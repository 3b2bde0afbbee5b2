# AudioEngine of hobot_audio, modelled in Dafny

This project models `AudioEngine` from `src/audio_engine/audioengine.cpp`. It is the adapter
between the robot's microphone capture and the vendor speech front-end SDK (HRSC: wake-up,
voice-activity detection (VAD), direction of arrival (DOA), speech recognition (ASR)). It has
three parts:

- **Channel remapper** (`channel_remap.dfy`, module `ChannelRemap`). `InputData` copies the
  interleaved 16-bit PCM input, recorded with `mic_chn_num_` channels, into a reused scratch
  buffer of `len / mic_chn_num_ * sdkin_chn_num_` bytes. It does this in one of three
  hard-coded ways:
  - a straight copy when the counts are equal;
  - an expansion that puts each source frame at the front of a wider target frame;
  - a fixed 8-to-6 reduction that drops channels 5 and 6.

  The remap is specified by pure functions of the buffer's previous content and the input,
  and it is proved byte by byte in both directions.
- **Engine** (`audio_engine.dfy`, module `Engine`). A class `AudioEngine` with the fields
  of the C++ class that carry the adapter's logic:
  - the lifecycle flags `init_` and `start_`;
  - the settings Init stores and the SDK channel count;
  - the consumer callbacks;
  - the VAD state;
  - the scratch buffer as an `array<byte>` with its size.

  `InputData` runs the same copy loops over the array, with loop invariants that tie the
  array to the remap functions. Calls into the SDK are recorded in `sdkCalls` and
  invocations of consumer callbacks in `deliveries`. The invariant `Valid` says the scratch
  buffer always equals the remap of the last input over a zeroed buffer, so no byte of
  earlier audio ever reaches the SDK.
- **Scenarios** (`scenarios.dfy`, module `Scenarios`). Concrete runs of a fresh engine,
  proved from the method contracts alone.

`arith.dfy` (module `Arith`) holds division and multiplication facts used by the proofs.

The outcomes of HrscInit and HrscStart are parameters of `Init`. SDK callbacks are methods
that the environment calls. A null payload is `None`, and a null consumer callback is `None`
in `Consumers`.

## Model

| member | source | states |
|---|---|---|
| ChannelRemap.Supported | src/audio_engine/audioengine.cpp:291-317 | the channel counts the model covers: equal counts, mic below sdk, or exactly 8 to 6 |
| ChannelRemap.LayoutOf | src/audio_engine/audioengine.cpp:291-304 | the straight copy is taken exactly for equal counts, the expansion exactly for mic below sdk, the 8-to-6 branch exactly for mic above sdk, and for supported counts that last one only for 8 to 6 |
| ChannelRemap.ScratchSize | src/audio_engine/audioengine.cpp:283 | the scratch size `len / mic_chn_num_ * sdkin_chn_num_`, in unbounded integers |
| ChannelRemap.FrameCount | src/audio_engine/audioengine.cpp:297 | the loop count `len / (mic_chn_num_ * 2)` of both copy loops, never negative |
| ChannelRemap.Prepared | src/audio_engine/audioengine.cpp:284-289 | the buffer the copy starts from has the new size; it is the old buffer when the size is unchanged and all zeros otherwise |
| ChannelRemap.Expanded | src/audio_engine/audioengine.cpp:293-303 | the scratch buffer after n turns of the expand loop; it keeps the buffer's length, and its bytes are given by the expand lemmas below |
| ChannelRemap.Reduced | src/audio_engine/audioengine.cpp:304-317 | the scratch buffer after n turns of the 8-to-6 loop; it keeps the buffer's length, and its bytes are given by the reduce lemmas below |
| ChannelRemap.CopyReadEnd | src/audio_engine/audioengine.cpp:291-317 | one past the last input byte the copy reads as written, for any channel counts: `size`, `frames * 2 mic` or `frames * 16` by branch |
| ChannelRemap.CopyWriteEnd | src/audio_engine/audioengine.cpp:291-317 | one past the last scratch byte the copy writes as written: `size`, the end of the last source frame in its target frame, or `frames * 12` by branch |
| ChannelRemap.NineToSixMisaligned | src/audio_engine/audioengine.cpp:304-317 | nine mics with six SDK channels take the 8-to-6 branch and stay in bounds on a 36-byte input: 32 bytes read, 24 of 24 written |
| ChannelRemap.Remap | src/audio_engine/audioengine.cpp:283-318 | the buffer handed to the SDK has exactly `len / mic * sdk` bytes, whichever branch runs |
| ChannelRemap.ScratchSizeNonNegative | src/audio_engine/audioengine.cpp:283 | for supported channel counts the scratch size is never negative |
| ChannelRemap.IdentityCopies | src/audio_engine/audioengine.cpp:291-292 | equal counts: the output is the first `size` input bytes, and the whole input when `len` is a multiple of the channel count; the copy never reads past the input |
| ChannelRemap.ExpandFitsScratch | src/audio_engine/audioengine.cpp:283-303 | expand case: `len / (2 mic)` target frames fit in the scratch buffer and as many source frames fit in the input |
| ChannelRemap.ExpandStep | src/audio_engine/audioengine.cpp:299-303 | one turn of the expand loop copies source frame n to the start of target frame n, stays in bounds and changes nothing else |
| ChannelRemap.ExpandCopiesFrame | src/audio_engine/audioengine.cpp:293-303 | expand case: byte k of source frame i lands at byte k of target frame i |
| ChannelRemap.ExpandKeepsPadding | src/audio_engine/audioengine.cpp:284-303 | expand case: the padding bytes `2 mic .. 2 sdk` of each target frame are untouched |
| ChannelRemap.ExpandKeepsTail | src/audio_engine/audioengine.cpp:297-303 | expand case: bytes after the last whole target frame are untouched |
| ChannelRemap.ExpandCharacterized | src/audio_engine/audioengine.cpp:293-303 | converse: any buffer with those three properties is the remap output |
| ChannelRemap.ReduceFitsScratch | src/audio_engine/audioengine.cpp:283-317 | 8-to-6 case: `len / 16` frames of 12 written and 16 read bytes fit in the scratch buffer and the input |
| ChannelRemap.ReduceStep | src/audio_engine/audioengine.cpp:310-317 | one turn of the 8-to-6 loop copies source bytes 0..8 and 12..16 of frame n to target bytes 0..12 of frame n and changes nothing else |
| ChannelRemap.ReduceCopiesFrame | src/audio_engine/audioengine.cpp:304-317 | 8-to-6 case: target bytes 0..8 are source bytes 0..8 and target bytes 8..12 are source bytes 12..16 of the same frame |
| ChannelRemap.ReduceKeepsTail | src/audio_engine/audioengine.cpp:284-317 | 8-to-6 case: bytes after the last whole target frame are untouched |
| ChannelRemap.ReduceCharacterized | src/audio_engine/audioengine.cpp:304-317 | converse: any buffer with the kept bytes of each frame and the old tail is the remap output |
| ChannelRemap.ReduceIgnoresDroppedChannels | src/audio_engine/audioengine.cpp:305-317 | 8-to-6 case: inputs that differ only in channels 5 and 6 give the same output |
| ChannelRemap.NoLeakAcrossCalls | src/audio_engine/audioengine.cpp:284-289 | with the buffer reused at the same size, remapping over the previous output equals remapping over the earlier buffer: nothing of the previous input survives |
| ChannelRemap.SupportedStaysInBounds | src/audio_engine/audioengine.cpp:291-318 | for the supported channel counts the copy reads only input bytes and writes only scratch bytes |
| Engine.InitSdkCalls | src/audio_engine/audioengine.cpp:246-266 | InitSDK's calls start with HrscInit with the configuration; HrscStart is among them exactly when HrscInit returned a handle; the VOIP switch with value 1 in VOIP mode and 0 otherwise is among them exactly when both succeeded; nothing else is called |
| Engine.SdkInputChannels | src/audio_engine/audioengine.cpp:128-130 | the SDK channel count is the old one or 3; it is kept exactly when it does not exceed the mic count or already is 3 |
| Engine.FourMicsOverrunBuffers | src/audio_engine/audioengine.cpp:304-317 | four mics with six SDK channels select the 8-to-6 loop, which reads 16 bytes of an 8-byte input and writes 12 into a 6-byte buffer |
| Engine.MemCopy | src/audio_engine/audioengine.cpp:291-317 | `memcpy` writes the source range at the offset and nothing else |
| Engine.ExpandFrames | src/audio_engine/audioengine.cpp:293-303 | the expand loop leaves the array equal to the expand function of its old content |
| Engine.ReduceFrames | src/audio_engine/audioengine.cpp:304-317 | the 8-to-6 loop leaves the array equal to the reduce function of its old content |
| Engine.RemapInto | src/audio_engine/audioengine.cpp:291-318 | the branch selection leaves the array equal to `Remap` of its old content |
| Engine.AudioEngine.Valid | src/audio_engine/audioengine.cpp:283-318 | the object invariant: the buffer's length is `audio_size_`. Before any input it is all zeros; afterwards the engine is initialised with supported counts, the size is that of the last input, and the buffer is the remap of the last input over a zeroed buffer |
| Engine.AudioEngine.constructor | src/audio_engine/audioengine.cpp:104 | a fresh engine is neither initialised nor started, has an empty zeroed buffer and no consumers |
| Engine.AudioEngine.Init | src/audio_engine/audioengine.cpp:110-146 | an Init after a successful Init returns 0 and changes nothing. Otherwise it stores the settings, sets the path to `config_path + "/hrsc"`, settles the SDK channel count and runs InitSDK. It returns 0 exactly when HrscInit and HrscStart both succeed, and only then stores the consumers and sets `init_`; on failure it returns -1 |
| Engine.AudioEngine.InitSdk | src/audio_engine/audioengine.cpp:181-269 | calls HrscInit with the derived configuration; HrscStart only after a handle; the VOIP switch (1 in VOIP mode, else 0) only after a successful start; returns 0 exactly when both succeed, else -1 |
| Engine.AudioEngine.Start | src/audio_engine/audioengine.cpp:150-170 | -1 and no change before Init; otherwise 0 and `start_` set, also when already started |
| Engine.AudioEngine.Stop | src/audio_engine/audioengine.cpp:174-179 | no SDK call unless started; otherwise HrscStop then HrscRelease; `start_` is not cleared |
| Engine.AudioEngine.DeInitSdk | src/audio_engine/audioengine.cpp:330-337 | HrscStop then HrscRelease |
| Engine.AudioEngine.Reset | src/audio_engine/audioengine.cpp:172 | returns 0 |
| Engine.AudioEngine.DeInit | src/audio_engine/audioengine.cpp:148 | returns 0 |
| Engine.AudioEngine.InputData | src/audio_engine/audioengine.cpp:271-328 | -1 with buffer and SDK untouched unless initialised and started. Otherwise it returns 0 and sizes the buffer to `len / mic * sdk`, keeping the same array when the size is unchanged and a fresh zeroed one otherwise. The buffer then holds the remap of the input over its prepared content, which equals the remap over a zeroed buffer, and that whole buffer goes to HrscProcess |
| Engine.AudioEngine.VoipDataCallback | src/audio_engine/audioengine.cpp:27-40 | a null payload is dropped; otherwise the audio goes to the audio consumer if one is registered |
| Engine.AudioEngine.AsrDataCallback | src/audio_engine/audioengine.cpp:49-57 | a null payload is dropped; otherwise the audio goes to the ASR-data consumer if one is registered |
| Engine.AudioEngine.EventCallback | src/audio_engine/audioengine.cpp:59-80 | wake-up events are relayed as they are; VAD begin/end set the VAD state first and are then relayed; other events change nothing |
| Engine.AudioEngine.CmdDataCallback | src/audio_engine/audioengine.cpp:82-88 | a null command is dropped; otherwise it goes to the command consumer if one is registered |
| Engine.AudioEngine.DoaCallback | src/audio_engine/audioengine.cpp:90-95 | the angle goes to the smart-data consumer if one is registered |
| Engine.AudioEngine.AsrCallback | src/audio_engine/audioengine.cpp:97-102 | the text goes to the ASR consumer if one is registered |
| Scenarios.ExpandTwoToThree | src/audio_engine/audioengine.cpp:283-303 | with an initial SDK count of 6, which Init lowers to 3, two mics expand 4-byte frames to 6-byte frames with two zero bytes, on a fresh buffer and on the same buffer reused by the second call |
| Scenarios.ReduceEightToSix | src/audio_engine/audioengine.cpp:304-317 | a 16-byte frame `0..15` becomes `0..7, 12..15` |
| Scenarios.InitIsIdempotent | src/audio_engine/audioengine.cpp:117-154 | Start and InputData fail before Init; a second Init succeeds without another SDK call |
| Scenarios.FailedInitThenRetry | src/audio_engine/audioengine.cpp:128-135 | a failed HrscStart leaves the engine uninitialised with no consumer; the lowered channel count survives, so a retry with 8 mics gets 3 SDK channels |
| Scenarios.VadBeginThenEnd | src/audio_engine/audioengine.cpp:59-80 | the consumer sees VAD begin with state Begin, VAD end with state End, and a later wake-up with state End; other events are skipped |
| Scenarios.RelaysDropWhatTheyCannotDeliver | src/audio_engine/audioengine.cpp:27-102 | with no consumers nothing is delivered; null payloads are dropped; registered audio, smart, command, ASR-text and ASR-data consumers get their payloads |
| Scenarios.StopLeavesEngineStarted | src/audio_engine/audioengine.cpp:174-179 | Stop before Start makes no SDK call; two Stops after Start issue HrscStop and HrscRelease twice; InputData still reaches HrscProcess |

## Left out

- The vendor SDK. HrscInit, HrscStart, HrscSetParam, HrscProcess, HrscStop and HrscRelease are recorded calls, and the success of HrscInit and HrscStart is an input.
- The fixed SDK configuration constants: sample rate, format, output channel count, timeouts, reference channel, score, prefix and suffix. The callback-table wiring is also left out. Only the settings derived from the engine's fields are recorded in `SdkConfig`.
- Loading the custom wake-up word from `cmd_word.json`. It is file I/O and only affects the configuration passed to the SDK.
- The debug copy of each buffer to `audio_sdk.pcm` in Start, Stop and InputData. It is file I/O.
- Logging, and the wake-up counter in EventCallback. They are log-only.
- WakeupDataCallback. It only logs.
- The singleton `Instance()` and the threads the SDK calls back from. Relays are methods on the one engine.
- The destructor. It only frees the scratch buffer.
- The SDK handle `sdk_handle_`, which HrscInit sets. Only the call trace is captured. Handle identity is not modelled. Neither is the handle kept without release after a failed HrscStart, nor its use by HrscProcess after HrscRelease.
- The file-saving flag and stream, `save_file_` and `audio_inconvert_file_`. They are file I/O.
- The configuration structs `input_cfg_`, `output_cfg_` and `effect_cfg_`. Their engine-derived part is the `SdkConfig` recorded with HrscInit.
- The `end` flag of InputData. The source only logs it.
- Engine.AudioEngine.InputData: requires that an initialised, started engine has supported channel counts (equal counts, mic below sdk, or 8 to 6). Init accepts any mic count. A count of 0 divides by zero when the scratch size is computed at line 283, and a negative count allocates a negative size. Every other unsupported count takes the 8-to-6 branch, which either overruns a buffer (see Findings) or stays in bounds with misaligned source or target frames (`NineToSixMisaligned`). None of these is modelled.
- Engine.AudioEngine.InputData: the `int` arithmetic of `len / mic_chn_num_ * sdkin_chn_num_` is unbounded here. A 32-bit overflow is not modelled, and the input length is the length of the byte sequence.
- AsrCallback with a null text is undefined behaviour in the source, which has no null check. The model takes a non-null string.
- The header is not part of this model, so these initial values are assumed:
  - `sdkin_chn_num_` is a constructor parameter;
  - `init_` and `start_` are false and `mic_chn_num_` is 0;
  - the scratch buffer is empty with size 0;
  - the VAD state starts as none;
  - no consumers are registered.
- Behaviours a reader may not expect, modelled as written:
  - Stop does not clear `start_`, so repeated Stop calls repeat the SDK stop and release, and InputData keeps feeding the SDK afterwards;
  - DoaCallback and AsrCallback have no null check;
  - the SDK channel count is forced to 3 only when it exceeds the mic count.

## Findings

| source | as written | input that shows it | evidently intended | confidence | as-written member | corrected member |
|---|---|---|---|---|---|---|
| src/audio_engine/audioengine.cpp:304-317 | every mic count above the SDK count takes the 8-to-6 branch, which always reads 16 and writes 12 bytes per `len / (2 mic)` frames | `sdkin_chn_num_ = 6`, `mic_chn = 4`, an 8-byte input: the SDK count becomes 3, the loop reads 16 input bytes and writes 12 bytes into a 6-byte buffer | the 8-to-6 reduction is taken only for 8 mics and 6 SDK channels | medium, not executed | Engine.FourMicsOverrunBuffers | ChannelRemap.SupportedStaysInBounds |
