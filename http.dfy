/** The HTTP surface shared by both variants of the service: the synthesis
    request, the responses, and the way the synthesis endpoint's outer
    `except` clauses turn an exception into a status code. */
module Http {
  import opened Python

  const MediaTypeWav := "audio/wav"

  /** Body of POST /tts/synthesize. The `language` field is never read and
      is not modelled. */
  datatype SynthesisRequest = SynthesisRequest(text: string, speakerId: Option<string>)

  /** What reaches the outer handlers of the synthesis endpoint: an exception
      raised by a stage, or the HTTPException(500) that the inner handler
      around the WAV write raises in place of the write's own exception. */
  datatype Thrown = Exception(exc: Exc) | WavWriteHttpError(writeExc: Exc)

  /** Why a request failed; each kind carries its own status code. */
  datatype Detail =
    | ModelNotLoaded                  // "TTS model not loaded yet."
    | VoiceListNotInitialized         // /voices before init or after teardown
    | InvalidInput(cause: Exc)        // "Invalid input for synthesis"
    | SynthesisRuntime(cause: Exc)    // "Speech synthesis failed (RuntimeError)"
    | SynthesisGeneral(raised: Thrown) // "Speech synthesis failed (General)"
    | Unhandled(cause: Exc)           // escaped the handler: the framework's own 500
  {
    function Status(): nat
    {
      match this
      case ModelNotLoaded => 503
      case VoiceListNotInitialized => 503
      case InvalidInput(_) => 400
      case SynthesisRuntime(_) => 500
      case SynthesisGeneral(_) => 500
      case Unhandled(_) => 500
    }
  }

  datatype Response =
    | Audio(content: seq<bv8>, mediaType: string)
    | VoiceListing(voices: seq<string>)
    | Error(detail: Detail)
  {
    function Status(): nat
    {
      if Error? then detail.Status() else 200
    }
  }

  /** The three outer handlers, tried in order: `except ValueError` (400),
      `except RuntimeError` (500), `except Exception` (500). The
      HTTPException raised for a failed WAV write is none of the first two,
      so it always lands in the general clause, whatever the write raised. */
  function Classify(t: Thrown): (d: Detail)
    ensures d.Status() == 400 <==> t == Exception(ValueError)
    ensures d.Status() == 500 <==> t != Exception(ValueError)
    ensures t == Exception(ValueError) ==> d == InvalidInput(ValueError)
    ensures d == SynthesisRuntime(RuntimeError) <==> t == Exception(RuntimeError)
    ensures t.Exception? && t.exc != ValueError && t.exc != RuntimeError ==> d == SynthesisGeneral(t)
    ensures t.WavWriteHttpError? ==> d == SynthesisGeneral(t)
  {
    match t
    case Exception(ValueError) => InvalidInput(ValueError)
    case Exception(RuntimeError) => SynthesisRuntime(RuntimeError)
    case _ => SynthesisGeneral(t)
  }
}
