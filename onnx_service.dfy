/** The fixed-speed variant of the service: the ONNX Kokoro model behind the
    misaki Chinese G2P converter (memory_main.py). The converter, the model
    and the WAV writer are foreign code, given as outcomes and as pure
    functions; the ghost `calls` trace records which of them a request
    reaches and with which arguments. */
module OnnxService {
  import opened Python
  import opened Http
  import Voices

  /** The speed every request is synthesized at. */
  const FixedSpeed: real := 1.0

  /** What the G2P converter returns: the phoneme string, and a second
      component the service discards. */
  datatype G2POutput = G2POutput(phonemes: string, tokens: seq<string>)

  /** What `kokoro.create` returns: the samples and their sample rate. */
  datatype Wave = Wave(samples: seq<real>, sampleRate: int)

  /** Calls into foreign code made while serving a request. */
  datatype EngineCall =
    | G2PCall(text: string)                                             // text to phonemes
    | CreateCall(phonemes: string, voice: string, speed: real, isPhonemes: bool)  // phonemes to samples
    | WriteCall(samples: seq<real>, sampleRate: int)                    // WAV encoding into the response buffer

  /** The process: the module-level choice of VOICE and the attributes of
      `app.state`. */
  class Service {
    /** VOICE, fixed when the module is imported. */
    const defaultVoice: string

    /** `app.state.g2p`, `app.state.kokoro`, `app.state.voice_list`; None
        while the attribute is not set. */
    var stateG2P: Option<Ref>
    var stateKokoro: Option<Ref>
    var stateVoiceList: Option<seq<string>>

    /** Importing the module: `draw` is the random index the default voice
        is taken from; app.state is empty. */
    constructor (draw: int)
      requires 0 <= draw <= |Voices.VoiceList| - 1
      ensures defaultVoice == Voices.DefaultVoice(draw) && defaultVoice in Voices.VoiceList
      ensures stateG2P == None && stateKokoro == None && stateVoiceList == None
    {
      defaultVoice := Voices.DefaultVoice(draw);
      stateG2P, stateKokoro, stateVoiceList := None, None, None;
    }

    /** Both attributes the synthesis handler reads are set. */
    predicate Loaded()
      reads this
    {
      stateKokoro.Some? && stateG2P.Some?
    }

    /** The handler gets past its readiness check. */
    predicate Ready()
      reads this
    {
      Loaded() && Truthy(stateKokoro.value) && Truthy(stateG2P.value)
    }

    /** The startup half of `lifespan`: the ZHG2P converter, then the Kokoro
        model. The first exception is re-raised, so the server never starts;
        app.state is set only when both succeed. */
    method Startup(g2pLoad: Outcome<nat>, kokoroLoad: Outcome<nat>) returns (raised: Option<Exc>)
      modifies this
      ensures g2pLoad.Raised? ==> raised == Some(g2pLoad.exc)
      ensures g2pLoad.Returned? && kokoroLoad.Raised? ==> raised == Some(kokoroLoad.exc)
      ensures raised == None <==> g2pLoad.Returned? && kokoroLoad.Returned?
      ensures raised == None ==>
        stateG2P == Some(Obj(g2pLoad.value)) && stateKokoro == Some(Obj(kokoroLoad.value)) &&
        stateVoiceList == Some(Voices.VoiceList) &&
        Ready() && ListVoices() == VoiceListing(Voices.VoiceList)
      ensures raised.Some? ==>
        stateG2P == old(stateG2P) && stateKokoro == old(stateKokoro) && stateVoiceList == old(stateVoiceList)
    {
      if g2pLoad.Raised? {
        return Some(g2pLoad.exc);
      }
      if kokoroLoad.Raised? {
        return Some(kokoroLoad.exc);
      }
      stateG2P := Some(Obj(g2pLoad.value));
      stateKokoro := Some(Obj(kokoroLoad.value));
      stateVoiceList := Some(Voices.VoiceList);
      raised := None;
    }

    /** The shutdown half of `lifespan`: `kokoro` and `voice_list` are
        deleted in order, `g2p` is left in place; deleting an attribute that
        is not set raises KeyError and stops there. */
    method Shutdown() returns (raised: Option<Exc>)
      modifies this
      ensures stateG2P == old(stateG2P)
      ensures raised == None <==> old(stateKokoro.Some? && stateVoiceList.Some?)
      ensures raised.Some? ==> raised == Some(KeyError)
      ensures stateKokoro == None
      ensures stateVoiceList == if old(stateKokoro).None? then old(stateVoiceList) else None
      ensures raised == None ==> !Loaded() && ListVoices() == Error(VoiceListNotInitialized)
    {
      if stateKokoro.None? {
        return Some(KeyError);
      }
      stateKokoro := None;
      if stateVoiceList.None? {
        return Some(KeyError);
      }
      stateVoiceList := None;
      raised := None;
    }

    /** GET /voices: the stored catalog, or 503 when the attribute is not set
        (the handler catches the AttributeError). */
    function ListVoices(): (r: Response)
      reads this
      ensures r.Status() == 200 <==> stateVoiceList.Some?
      ensures stateVoiceList.Some? ==> r == VoiceListing(stateVoiceList.value)
      ensures stateVoiceList.None? ==> r == Error(VoiceListNotInitialized) && r.Status() == 503
    {
      match stateVoiceList
      case Some(voices) => VoiceListing(voices)
      case None => Error(VoiceListNotInitialized)
    }

    /** The voice a request is synthesized with. */
    function EffectiveVoice(req: SynthesisRequest): string
    {
      Voices.ResolveVoice(req.speakerId, defaultVoice)
    }

    /** POST /tts/synthesize. The app.state attributes are read outside the
        try: when one is not set, the AttributeError escapes the handler and
        the framework answers 500. A present but falsy handle gives 503. The
        model gets the converter's phonemes with speed 1.0 and
        is_phonemes=True, and the WAV is written at the sample rate the model
        returned. A failure of the write is turned into HTTPException(500) by
        the inner handler, which the outer general handler then re-wraps, so
        it is a 500 whatever was raised. */
    method Synthesize(
      req: SynthesisRequest,
      g2p: string -> Outcome<G2POutput>,
      create: (string, string, real, bool) -> Outcome<Wave>,
      writeWav: (seq<real>, int) -> Outcome<seq<bv8>>)
      returns (resp: Response, ghost calls: seq<EngineCall>)
      ensures !Loaded() ==> resp == Error(Unhandled(AttributeError)) && calls == []
      ensures Loaded() && !Ready() ==> resp == Error(ModelNotLoaded) && calls == []
      ensures Ready() ==> |calls| >= 1 && calls[0] == G2PCall(req.text)
      ensures Ready() ==>
        var voice := EffectiveVoice(req);
        match g2p(req.text)
        case Raised(e) =>
          resp == Error(Classify(Exception(e))) && calls == [G2PCall(req.text)]
        case Returned(out) =>
          match create(out.phonemes, voice, FixedSpeed, true)
          case Raised(e) =>
            resp == Error(Classify(Exception(e))) &&
            calls == [G2PCall(req.text), CreateCall(out.phonemes, voice, FixedSpeed, true)]
          case Returned(wave) =>
            calls == [G2PCall(req.text), CreateCall(out.phonemes, voice, FixedSpeed, true),
                      WriteCall(wave.samples, wave.sampleRate)] &&
            match writeWav(wave.samples, wave.sampleRate)
            case Raised(e) => resp == Error(Classify(WavWriteHttpError(e)))
            case Returned(bytes) => resp == Audio(bytes, MediaTypeWav)
      ensures resp.Status() == 503 <==> Loaded() && !Ready()
      ensures resp.Status() == 400 <==>
        Ready() &&
        (g2p(req.text) == Raised(ValueError) ||
         (g2p(req.text).Returned? &&
          create(g2p(req.text).value.phonemes, EffectiveVoice(req), FixedSpeed, true) == Raised(ValueError)))
      ensures resp.Audio? || resp.Error?
      ensures resp.Audio? ==> resp.mediaType == MediaTypeWav && |calls| == 3
    {
      calls := [];
      if stateKokoro.None? || stateG2P.None? {
        return Error(Unhandled(AttributeError)), calls;
      }
      var kokoro := stateKokoro.value;
      var converter := stateG2P.value;
      if !Truthy(kokoro) || !Truthy(converter) {
        return Error(ModelNotLoaded), calls;
      }
      var speakerId := defaultVoice;
      if TruthyStr(req.speakerId) {
        speakerId := req.speakerId.value;
      }
      calls := calls + [G2PCall(req.text)];
      var converted := g2p(req.text);
      if converted.Raised? {
        return Error(Classify(Exception(converted.exc))), calls;
      }
      var phonemes := converted.value.phonemes;
      calls := calls + [CreateCall(phonemes, speakerId, FixedSpeed, true)];
      var created := create(phonemes, speakerId, FixedSpeed, true);
      if created.Raised? {
        return Error(Classify(Exception(created.exc))), calls;
      }
      var wav, sampleRate := created.value.samples, created.value.sampleRate;
      // the inner try around the write
      calls := calls + [WriteCall(wav, sampleRate)];
      var buffer := writeWav(wav, sampleRate);
      if buffer.Raised? {
        return Error(Classify(WavWriteHttpError(buffer.exc))), calls;
      }
      resp := Audio(buffer.value, MediaTypeWav);
    }
  }
}
