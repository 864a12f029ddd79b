# Kokoro TTS API: a Dafny model of its decision rules

The service is a thin HTTP wrapper around the Kokoro text-to-speech engine,
in two variants:

- `original.py` drives a `KModel` through a Chinese `KPipeline`. Its speech
  rate depends on how long the utterance is, and it has an English fallback
  with two fixed pronunciations.
- `memory_main.py` drives the ONNX `Kokoro` model behind the `misaki` Chinese
  G2P converter, at a fixed speed 1.0.

The engine calls are opaque. What is left to model is the set of decision
rules around them:

- the speech-rate curve;
- the voice catalog, the default voice drawn at import, and how a request's
  voice is chosen;
- how readiness and each stage's outcome map to a status code;
- how `app.state` is filled at startup and emptied at shutdown.

Layout, one module per file:

- `python.dfy` (`Python`): Python semantics the code relies on. It has
  optional values, truthiness, exception classes, and `Outcome` (a foreign
  call either returns or raises). `Ref` is a reference that is `None` or a
  (truthy) object.
- `http.dfy` (`Http`): the request, the responses with their status codes,
  and `Classify`, which models the handler's three outer `except` clauses.
- `voices.dfy` (`Voices`): `VOICE_LIST`, the default `VOICE`, and speaker
  resolution. Both variants use them.
- `speed.dfy` (`SpeedPolicy`): `speed_callable`, using exact `real`
  arithmetic.
- `kokoro_service.dfy` (`KokoroService`): `original.py`. The class `Service`
  holds the process state: `VOICE`, the globals `model` and `pipeline`, and
  the `app.state` attributes. Each attribute is `None` while it is not set.
  `Startup` and `Shutdown` are the two halves of `lifespan`; `ListVoices` and
  `Synthesize` are the two handlers.
- `onnx_service.dfy` (`OnnxService`): the same for `memory_main.py`.

Foreign code is modelled as follows:

- Each loader (the `KPipeline`, `KModel`, `ZHG2P` and `Kokoro` constructors)
  is an `Outcome` value: an object id, or the exception it raised.
- Each per-request call (the pipeline's first result, `wav.cpu().numpy()`,
  the G2P converter, `kokoro.create`, `soundfile.write`) is a pure function
  parameter returning an `Outcome`.
- Each `Synthesize` method also returns a ghost list of the calls it made
  and their arguments. This is what lets a contract say "the model is never
  called" or "the WAV is written at this rate".

Four behaviours of the code are easy to misread; the model follows the
code:

- An attribute that is not set is not reported as "not ready". Both handlers
  read `request.app.state.model` (or `.kokoro`) before their `try`. When the
  attribute is missing, Starlette's `State` raises `AttributeError`. It
  leaves the handler, and the framework answers with its own 500. The 503
  "not loaded yet" answer comes only from an attribute that is set but
  falsy. The startup code never stores a falsy handle, so with these loaders
  that branch is never reached. `Detail.Unhandled(AttributeError)` models the
  500.
- A `ValueError` from any synthesis stage is a 400, not only one from the
  text conversion. In `memory_main.py` that includes `kokoro.create`.
- A failed WAV write is a 500 even when the writer raised `ValueError`. The
  inner handler raises `HTTPException(500)`, and the outer `except
  Exception` wraps it again as a "General" failure.
- Shutdown does not release everything. `original.py` deletes the three
  `app.state` attributes but leaves the globals `model` and `pipeline`
  holding their objects. `memory_main.py` leaves `app.state.g2p` in place.
  Deleting an attribute that is not set raises `KeyError`.

## Model

| member | source | states |
|---|---|---|
| SpeedPolicy.SpeedFor | original.py:100-106 | the speed is within [0.88, 1.1]; it is exactly 1 × 1.1 for up to 83 phonemes and exactly 0.8 × 1.1 from 183 on |
| SpeedPolicy.SpeedInBand | original.py:104-106 | between 83 and 183 phonemes the speed is 1.1 − 0.0022 · (len − 83), matching both plateaus at the ends |
| SpeedPolicy.SpeedNonIncreasing | original.py:100-106 | a longer chunk is never given a higher speed |
| SpeedPolicy.SpeedStrictlyDecreasingInBand | original.py:104-105 | on the slope, a longer chunk always gets a strictly lower speed |
| SpeedPolicy.SpeedStep | original.py:100-106 | one more phoneme lowers the speed by 0 to 1.1/500; it drops by exactly 1.1/500 only on the slope, so there is no jump at 83 or 183 |
| SpeedPolicy.SpeedRangeIsTight | original.py:101-106 | both bounds, 1.1 and 0.88, are reached |
| Voices.CatalogWellFormed | original.py:15 | the catalog has 55 identifiers, each "zf_" plus three digits, so none is empty |
| Voices.DefaultVoice | original.py:16 | any in-range draw of randint gives a catalog member (memory_main.py:16 draws the same way) |
| Voices.ResolveVoice | original.py:108-110 | a non-empty speaker_id is used unchanged; None or "" gives the default |
| Voices.ResolvedVoiceInCatalog | memory_main.py:81-83 | with a default drawn from the catalog, the effective voice is never empty; it is in the catalog exactly when the caller named a catalog voice or none |
| Voices.UnknownVoiceAccepted | memory_main.py:81-83 | there is an identifier outside the catalog that reaches the engine unchanged: no validation happens |
| Http.Classify | original.py:126-131 | status 400 exactly for a ValueError from a stage; 500 for RuntimeError and every other exception; a ValueError becomes InvalidInput, any exception other than ValueError and RuntimeError becomes the general failure, and the WAV-write HTTPException always lands in the general 500 clause |
| KokoroService.EnCallable | original.py:29-34 | "Kokoro" and "Sol" get their fixed phonemes whatever the English pipeline does; any other text gets the English pipeline's outcome, raised exceptions included |
| KokoroService.Service.constructor | original.py:15-21 | VOICE is a catalog member; both globals start as None; app.state starts empty |
| KokoroService.Service.Startup | original.py:24-55 | the first loader failure is re-raised and leaves app.state untouched, so the service never becomes ready; if KModel loaded before the failure, the global `model` still holds it; when all loaders succeed, model, pipeline and voice_list are set and the service is ready |
| KokoroService.Service.Shutdown | original.py:44-48 | deletes model, pipeline and voice_list in that order; a missing attribute raises KeyError and stops; the globals are untouched; after a clean teardown /voices answers 503 |
| KokoroService.Service.ListVoices | original.py:69-78 | 200 with the stored list exactly when voice_list is set, otherwise 503 |
| KokoroService.Service.Synthesize | original.py:93-131 | missing attribute: unhandled 500; falsy handle: 503; neither calls the engine. Otherwise one pipeline call with the resolved voice and SpeedFor, using only its first result. ValueError gives 400, any other pipeline exception 500. Missing audio, a failed transfer or a failed write gives 500. Success is 200 `audio/wav` holding the writer's bytes at SAMPLE_RATE 24000 |
| OnnxService.Service.constructor | memory_main.py:15-16 | VOICE is a catalog member; app.state starts empty |
| OnnxService.Service.Startup | memory_main.py:18-35 | an exception from ZHG2P or Kokoro is re-raised and leaves app.state untouched, so the service never becomes ready; when both succeed, g2p, kokoro and voice_list are set and the service is ready |
| OnnxService.Service.Shutdown | memory_main.py:26-30 | deletes kokoro then voice_list and keeps g2p; a missing attribute raises KeyError and stops; after a clean teardown /voices answers 503 and the synthesis handler no longer passes its readiness check |
| OnnxService.Service.ListVoices | memory_main.py:49-58 | 200 with the stored list exactly when voice_list is set, otherwise 503 |
| OnnxService.Service.Synthesize | memory_main.py:74-111 | missing attribute: unhandled 500; falsy handle: 503; neither calls G2P or the model. Otherwise the model gets the G2P phonemes (the second component is dropped), the resolved voice, speed 1.0 and is_phonemes=True. A ValueError from G2P or the model gives 400, any other exception 500. A failed write gives 500. Success is 200 `audio/wav` with the bytes written at the model's own sample rate |

## Left out

- HTTP routing, pydantic parsing of the request body, the uvicorn entry points and the `/` liveness route: framework plumbing. The request is modelled as already parsed.
- The `language` field of the request, `N_ZEROS`, `JOIN_SENTENCES`, `REPO_ID` and the model file names: they are never read, or are only passed to loaders, which are opaque here.
- The internals of `KModel`, `KPipeline`, `Kokoro`, `ZHG2P` and `soundfile.write`: foreign libraries. Each is an outcome or a pure function that returns or raises. The WAV byte layout is not specified.
- How the Chinese pipeline uses `en_callable` and the speed callable internally: that happens inside `KPipeline`. The model states only what it is given.
- Only the first result of the pipeline's generator is modelled. Later results are never requested.
- Torch device probing, `.to(device)`, `.eval()` and `torch.cuda.empty_cache()`: hardware-dependent foreign calls. The host transfer `wav.cpu().numpy()` is kept, as a step that may raise.
- `randint` itself: the drawn index is a constructor parameter, within the bounds randint guarantees.
- IEEE-754 rounding in `speed_callable`: the constants are rational, and the model uses exact reals.
- The memory profiler, `print` logging, and the explicit `del` and `buffer.close()` calls in `memory_main.py`: they have no effect on any response.
- The human-readable `detail` strings: each is modelled by the `Detail` kind that produces it.
- Exceptions outside `Exception` (such as `KeyboardInterrupt` or cancellation): no handler here catches them.
- Async execution and concurrent requests: the handlers never write shared state (the `Synthesize` methods have no `modifies` clause), and the code adds no locking.
