/** The length-adaptive variant of the service: a KModel with a Chinese
    KPipeline (original.py). The loaders, the pipeline, the tensor transfer
    and the WAV writer are foreign code, given as outcomes and as pure
    functions; the ghost `calls` trace records which of them a request
    reaches and with which arguments. */
module KokoroService {
  import opened Python
  import opened Http
  import Voices
  import SpeedPolicy

  /** SAMPLE_RATE: the rate every WAV of this variant is written at. */
  const SampleRate: int := 24000

  /** Audio as the acoustic model returns it: a tensor, possibly resident on
      an accelerator. */
  datatype Tensor = Tensor(samples: seq<real>)

  /** The first result of the pipeline's generator; `audio` is None when the
      model produced none. */
  datatype PipelineResult = PipelineResult(audio: Option<Tensor>)

  /** Calls into foreign code made while serving a request. */
  datatype EngineCall =
    | PipelineCall(text: string, voice: string)        // first result of the pipeline, run with the speed rule
    | ToHostCall(audio: Tensor)                        // transfer of the audio to a host array
    | WriteCall(samples: seq<real>, sampleRate: int)   // WAV encoding into the response buffer

  /** The two pronunciations en_callable fixes. */
  const KokoroPhonemes := "k\U{02C8}Ok\U{0259}\U{0279}O"
  const SolPhonemes := "s\U{02C8}Ol"

  /** en_callable: the English fallback handed to the Chinese pipeline.
      `enFirst` is `next(en_pipeline(text)).phonemes`, which may raise. */
  function EnCallable(text: string, enFirst: string -> Outcome<string>): (r: Outcome<string>)
    ensures text == "Kokoro" ==> r == Returned(KokoroPhonemes)
    ensures text == "Sol" ==> r == Returned(SolPhonemes)
    ensures text != "Kokoro" && text != "Sol" ==> r == enFirst(text)
  {
    if text == "Kokoro" then Returned(KokoroPhonemes)
    else if text == "Sol" then Returned(SolPhonemes)
    else enFirst(text)
  }

  /** The process: the module-level choice of VOICE, the globals `model` and
      `pipeline`, and the attributes of `app.state`. */
  class Service {
    /** VOICE, fixed when the module is imported. */
    const defaultVoice: string

    /** The module globals `model` and `pipeline`. */
    var model: Ref
    var pipeline: Ref

    /** `app.state.model`, `app.state.pipeline`, `app.state.voice_list`;
        None while the attribute is not set. */
    var stateModel: Option<Ref>
    var statePipeline: Option<Ref>
    var stateVoiceList: Option<seq<string>>

    /** Importing the module: `draw` is the random index the default voice
        is taken from; both globals start as None and app.state is empty. */
    constructor (draw: int)
      requires 0 <= draw <= |Voices.VoiceList| - 1
      ensures defaultVoice == Voices.DefaultVoice(draw) && defaultVoice in Voices.VoiceList
      ensures model == Null && pipeline == Null
      ensures stateModel == None && statePipeline == None && stateVoiceList == None
    {
      defaultVoice := Voices.DefaultVoice(draw);
      model, pipeline := Null, Null;
      stateModel, statePipeline, stateVoiceList := None, None, None;
    }

    /** Both attributes the synthesis handler reads are set. */
    predicate Loaded()
      reads this
    {
      stateModel.Some? && statePipeline.Some?
    }

    /** The handler gets past its readiness check. */
    predicate Ready()
      reads this
    {
      Loaded() && Truthy(stateModel.value) && Truthy(statePipeline.value)
    }

    /** The startup half of `lifespan`. The three constructors run in order:
        the English KPipeline, the KModel (assigned to the global at once),
        the Chinese KPipeline. The first exception is re-raised, so the
        server never starts; app.state is set only when all three succeed. */
    method Startup(enLoad: Outcome<nat>, modelLoad: Outcome<nat>, zhLoad: Outcome<nat>)
      returns (raised: Option<Exc>)
      modifies this
      ensures enLoad.Raised? ==> raised == Some(enLoad.exc)
      ensures enLoad.Returned? && modelLoad.Raised? ==> raised == Some(modelLoad.exc)
      ensures enLoad.Returned? && modelLoad.Returned? && zhLoad.Raised? ==> raised == Some(zhLoad.exc)
      ensures raised == None <==> enLoad.Returned? && modelLoad.Returned? && zhLoad.Returned?
      ensures model == if enLoad.Returned? && modelLoad.Returned? then Obj(modelLoad.value) else old(model)
      ensures raised == None ==>
        pipeline == Obj(zhLoad.value) &&
        stateModel == Some(model) && statePipeline == Some(pipeline) &&
        stateVoiceList == Some(Voices.VoiceList) &&
        Ready() && ListVoices() == VoiceListing(Voices.VoiceList)
      ensures raised.Some? ==>
        pipeline == old(pipeline) && stateModel == old(stateModel) &&
        statePipeline == old(statePipeline) && stateVoiceList == old(stateVoiceList)
    {
      if enLoad.Raised? {
        return Some(enLoad.exc);
      }
      if modelLoad.Raised? {
        return Some(modelLoad.exc);
      }
      model := Obj(modelLoad.value);
      if zhLoad.Raised? {
        return Some(zhLoad.exc);
      }
      pipeline := Obj(zhLoad.value);
      stateModel := Some(model);
      statePipeline := Some(pipeline);
      stateVoiceList := Some(Voices.VoiceList);
      raised := None;
    }

    /** The shutdown half of `lifespan`: the three attributes are deleted in
        order; deleting one that is not set raises KeyError and stops there.
        The globals keep their references. */
    method Shutdown() returns (raised: Option<Exc>)
      modifies this
      ensures model == old(model) && pipeline == old(pipeline)
      ensures raised == None <==> old(Loaded() && stateVoiceList.Some?)
      ensures raised.Some? ==> raised == Some(KeyError)
      ensures stateModel == None
      ensures statePipeline == if old(stateModel).None? then old(statePipeline) else None
      ensures stateVoiceList ==
        if old(stateModel).None? || old(statePipeline).None? then old(stateVoiceList) else None
      ensures raised == None ==> !Loaded() && ListVoices() == Error(VoiceListNotInitialized)
    {
      if stateModel.None? {
        return Some(KeyError);
      }
      stateModel := None;
      if statePipeline.None? {
        return Some(KeyError);
      }
      statePipeline := None;
      if stateVoiceList.None? {
        return Some(KeyError);
      }
      stateVoiceList := None;
      raised := None;
    }

    /** GET /voices: the stored catalog, or 503 when the attribute is not set
        (the handler catches the AttributeError). */
    function ListVoices(): (r: Response)
      reads this
      ensures r.Status() == 200 <==> stateVoiceList.Some?
      ensures stateVoiceList.Some? ==> r == VoiceListing(stateVoiceList.value)
      ensures stateVoiceList.None? ==> r == Error(VoiceListNotInitialized) && r.Status() == 503
    {
      match stateVoiceList
      case Some(voices) => VoiceListing(voices)
      case None => Error(VoiceListNotInitialized)
    }

    /** The voice a request is synthesized with. */
    function EffectiveVoice(req: SynthesisRequest): string
    {
      Voices.ResolveVoice(req.speakerId, defaultVoice)
    }

    /** POST /tts/synthesize. The app.state attributes are read outside the
        try: when one is not set, the AttributeError escapes the handler and
        the framework answers 500. A present but falsy handle gives 503. Only
        the first result of the generator is used; the WAV is written at
        SAMPLE_RATE. A failure of the transfer or of the write is turned into
        HTTPException(500) by the inner handler, which the outer general
        handler then re-wraps, so it is a 500 whatever was raised. */
    method Synthesize(
      req: SynthesisRequest,
      runPipeline: (string, string, nat -> real) -> Outcome<PipelineResult>,
      toHost: Tensor -> Outcome<seq<real>>,
      writeWav: (seq<real>, int) -> Outcome<seq<bv8>>)
      returns (resp: Response, ghost calls: seq<EngineCall>)
      ensures !Loaded() ==> resp == Error(Unhandled(AttributeError)) && calls == []
      ensures Loaded() && !Ready() ==> resp == Error(ModelNotLoaded) && calls == []
      ensures Ready() ==> |calls| >= 1 && calls[0] == PipelineCall(req.text, EffectiveVoice(req))
      ensures Ready() ==>
        var voice := EffectiveVoice(req);
        match runPipeline(req.text, voice, SpeedPolicy.SpeedFor)
        case Raised(e) =>
          resp == Error(Classify(Exception(e))) && calls == [PipelineCall(req.text, voice)]
        case Returned(first) =>
          if first.audio.None? then
            resp == Error(Classify(WavWriteHttpError(AttributeError))) &&
            calls == [PipelineCall(req.text, voice)]
          else
            var audio := first.audio.value;
            match toHost(audio)
            case Raised(e) =>
              resp == Error(Classify(WavWriteHttpError(e))) &&
              calls == [PipelineCall(req.text, voice), ToHostCall(audio)]
            case Returned(samples) =>
              calls == [PipelineCall(req.text, voice), ToHostCall(audio), WriteCall(samples, SampleRate)] &&
              match writeWav(samples, SampleRate)
              case Raised(e) => resp == Error(Classify(WavWriteHttpError(e)))
              case Returned(bytes) => resp == Audio(bytes, MediaTypeWav)
      ensures resp.Status() == 503 <==> Loaded() && !Ready()
      ensures resp.Status() == 400 <==>
        Ready() && runPipeline(req.text, EffectiveVoice(req), SpeedPolicy.SpeedFor) == Raised(ValueError)
      ensures resp.Audio? || resp.Error?
      ensures resp.Audio? ==>
        resp.mediaType == MediaTypeWav && |calls| == 3 &&
        calls[2] == WriteCall(calls[2].samples, SampleRate)
    {
      calls := [];
      if stateModel.None? || statePipeline.None? {
        return Error(Unhandled(AttributeError)), calls;
      }
      var model := stateModel.value;
      var pipeline := statePipeline.value;
      if !Truthy(model) || !Truthy(pipeline) {
        return Error(ModelNotLoaded), calls;
      }
      var speakerId := defaultVoice;
      if TruthyStr(req.speakerId) {
        speakerId := req.speakerId.value;
      }
      calls := calls + [PipelineCall(req.text, speakerId)];
      var first := runPipeline(req.text, speakerId, SpeedPolicy.SpeedFor);
      if first.Raised? {
        return Error(Classify(Exception(first.exc))), calls;
      }
      var wav := first.value.audio;
      // the inner try around the transfer and the write
      if wav.None? {
        return Error(Classify(WavWriteHttpError(AttributeError))), calls;
      }
      calls := calls + [ToHostCall(wav.value)];
      var host := toHost(wav.value);
      if host.Raised? {
        return Error(Classify(WavWriteHttpError(host.exc))), calls;
      }
      calls := calls + [WriteCall(host.value, SampleRate)];
      var buffer := writeWav(host.value, SampleRate);
      if buffer.Raised? {
        return Error(Classify(WavWriteHttpError(buffer.exc))), calls;
      }
      resp := Audio(buffer.value, MediaTypeWav);
    }
  }
}
