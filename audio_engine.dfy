// The AudioEngine adapter between the robot's audio capture and the vendor
// speech front-end SDK (src/audio_engine/audioengine.cpp): its lifecycle
// flags, the InputData path that remaps channels into a reused scratch buffer
// and hands it to the SDK, and the SDK callbacks it relays to the consumer
// callbacks registered at Init.
//
// The vendor SDK is not modelled: every call into it is appended to
// `sdkCalls`, and the outcome of HrscInit and HrscStart is a parameter of
// Init. Every invocation of a consumer callback is appended to `deliveries`.
module Engine {
  import opened ChannelRemap

  datatype Option<T> = None | Some(value: T)

  /** A registered consumer callback, identified by an opaque number. */
  type ConsumerId = nat

  /** The six consumer callbacks Init stores; None stands for a null function. */
  datatype Consumers = Consumers(
    audio: Option<ConsumerId>,     // audio_cb_ (VOIP audio)
    smart: Option<ConsumerId>,     // audio_smart_cb_ (DOA angle)
    cmd: Option<ConsumerId>,       // audio_cmd_cb_ (command word)
    event: Option<ConsumerId>,     // audio_event_cb_ (wake-up and VAD events)
    asr: Option<ConsumerId>,       // audio_asr_cb_ (recognised text)
    asrData: Option<ConsumerId>)   // audio_asr_data_cb_ (audio for recognition)

  const NoConsumers := Consumers(None, None, None, None, None, None)

  /** Events the SDK reports through its event callback. */
  datatype HrscEvent =
    | EventWkpNormal
    | EventWkpOneshot
    | EventVadBegin
    | EventVadEnd
    | EventOther(code: int)

  /** The engine's voice-activity state. */
  datatype VadState = VadStateNone | VadStateBegin | VadStateEnd

  /** The part of the SDK configuration InitSDK derives from the engine's settings. */
  datatype SdkConfig = SdkConfig(
    inputChannels: int,
    cfgFilePath: string,
    linearMic: int,
    asrOutputMode: int,
    asrOutputChannel: int)

  /** A call into the vendor SDK. */
  datatype SdkCall =
    | SdkInit(config: SdkConfig)       // HrscInit
    | SdkStart                         // HrscStart
    | SdkSetVoipSwitch(value: int)     // HrscSetParam(kHrscParasTypeVoipDataSwitch)
    | SdkProcess(audio: seq<byte>)     // HrscProcess
    | SdkStop                          // HrscStop
    | SdkRelease                       // HrscRelease

  /** An invocation of a consumer callback. `vad` is the engine's VAD state
      while the consumer runs. */
  datatype Delivery =
    | AudioDelivered(consumer: ConsumerId, audio: seq<byte>)
    | SmartDelivered(consumer: ConsumerId, doa: int)
    | CmdDelivered(consumer: ConsumerId, cmd: string)
    | EventDelivered(consumer: ConsumerId, event: HrscEvent, vad: VadState)
    | AsrTextDelivered(consumer: ConsumerId, text: string)
    | AsrDataDelivered(consumer: ConsumerId, audio: seq<byte>)

  /** The calls InitSDK makes: HrscInit; HrscStart when that returned a
      handle; the VOIP switch when HrscStart succeeded. */
  function InitSdkCalls(config: SdkConfig, sdkInitOk: bool, sdkStartOk: bool, voipMode: int): (r: seq<SdkCall>)
    ensures 1 <= |r| <= 3 && r[0] == SdkInit(config)
    ensures SdkStart in r <==> sdkInitOk
    ensures SdkSetVoipSwitch(if voipMode != 0 then 1 else 0) in r <==> sdkInitOk && sdkStartOk
    ensures forall c :: c in r ==> c.SdkInit? || c.SdkStart? || c.SdkSetVoipSwitch?
  {
    [SdkInit(config)] +
    (if sdkInitOk then [SdkStart] else []) +
    (if sdkInitOk && sdkStartOk then [SdkSetVoipSwitch(if voipMode != 0 then 1 else 0)] else [])
  }

  /** The SDK input channel count Init settles on: sdkin_chn_num_ is forced
      to 3 when it exceeds the microphone count and kept otherwise. */
  function SdkInputChannels(current: int, mic: int): (r: int)
    ensures r == current || r == 3
    ensures r == current <==> current <= mic || current == 3
    ensures r <= mic || r == 3
  {
    if current > mic then 3 else current
  }

  /** Init's channel rule sends four microphones with six SDK channels to
      three SDK channels; InputData then takes the 8-to-6 branch, which is
      written for eight channels only: on an 8-byte input it reads 16 bytes
      and writes 12 into a 6-byte scratch buffer. */
  lemma FourMicsOverrunBuffers()
    ensures SdkInputChannels(6, 4) == 3 && LayoutOf(4, 3) == Drop8To6
    ensures CopyReadEnd(8, 4, 3) == 16 && CopyWriteEnd(8, 4, 3) == 12
    ensures ScratchSize(8, 4, 3) == 6 && !Supported(4, 3)
  {
  }

  /** memcpy(dst + at, src + from, n). */
  method MemCopy(dst: array<byte>, at: nat, src: seq<byte>, from: nat, n: nat)
    requires at + n <= dst.Length && from + n <= |src|
    modifies dst
    ensures dst[..] == Splice(old(dst[..]), at, src[from..from + n])
  {
    forall t | 0 <= t < n {
      dst[at + t] := src[from + t];
    }
    ghost var want := Splice(old(dst[..]), at, src[from..from + n]);
    forall j | 0 <= j < dst.Length ensures dst[j] == want[j] {
      SpliceAt(old(dst[..]), at, src[from..from + n], j);
    }
    assert dst[..] == want;
  }

  /** The expand loop of InputData: copies each of the len / (mic * 2)
      source frames to the front of its 2 * sdk byte target frame. */
  method ExpandFrames(buf: array<byte>, data: seq<byte>, mic: int, sdk: int)
    requires 0 < mic < sdk && buf.Length == ScratchSize(|data|, mic, sdk)
    modifies buf
    ensures buf[..] == Expanded(old(buf[..]), data, mic, sdk, FrameCount(|data|, mic))
  {
    ghost var prev := buf[..];
    ExpandFitsScratch(|data|, mic, sdk);
    ExpandedNone(prev, data, mic, sdk);
    var dst, src := 0, 0;
    var frameCount := |data| / (mic * 2);
    var index := 0;
    while index < frameCount
      invariant 0 <= index <= frameCount == FrameCount(|data|, mic)
      invariant dst == index * (2 * sdk) && src == index * (2 * mic)
      invariant buf[..] == Expanded(prev, data, mic, sdk, index)
    {
      ExpandStep(prev, data, mic, sdk, index, dst, src);
      MemCopy(buf, dst, data, src, mic * 2);
      assert (index + 1) * (2 * sdk) == dst + sdk * 2 && (index + 1) * (2 * mic) == src + mic * 2;
      dst := dst + sdk * 2;
      src := src + mic * 2;
      index := index + 1;
    }
  }

  /** The 8-to-6 loop of InputData: per 16-byte source frame, copies bytes
      0..8, skips bytes 8..12 and copies bytes 12..16 into a 12-byte target
      frame. */
  method ReduceFrames(buf: array<byte>, data: seq<byte>)
    requires buf.Length == ScratchSize(|data|, 8, 6)
    modifies buf
    ensures buf[..] == Reduced(old(buf[..]), data, |data| / 16)
  {
    ghost var prev := buf[..];
    ReduceFitsScratch(|data|);
    ReducedNone(prev, data);
    var dst, src := 0, 0;
    var frameCount := |data| / (8 * 2);
    var index := 0;
    while index < frameCount
      invariant 0 <= index <= frameCount == |data| / 16
      invariant dst == 12 * index && src == 16 * index
      invariant buf[..] == Reduced(prev, data, index)
    {
      ReduceStep(prev, data, index);
      MemCopy(buf, dst, data, src, 4 * 2);
      dst := dst + 4 * 2;
      src := src + 6 * 2;
      MemCopy(buf, dst, data, src, 2 * 2);
      dst := dst + 2 * 2;
      src := src + 2 * 2;
      index := index + 1;
    }
  }

  /** The copy step of InputData, selected by the channel counts. */
  method RemapInto(buf: array<byte>, data: seq<byte>, mic: int, sdk: int)
    requires Supported(mic, sdk) && buf.Length == ScratchSize(|data|, mic, sdk)
    modifies buf
    ensures buf[..] == Remap(old(buf[..]), data, mic, sdk)
  {
    if mic == sdk {
      MemCopy(buf, 0, data, 0, buf.Length);
      assert buf[..] == data[..buf.Length];
    } else if mic < sdk {
      ExpandFrames(buf, data, mic, sdk);
    } else {
      ReduceFrames(buf, data);
    }
  }

  class AudioEngine {
    var init: bool                 // init_
    var start: bool                // start_
    var micChannels: int           // mic_chn_num_
    var sdkChannels: int           // sdkin_chn_num_
    var voipMode: int              // voip_mode_
    var micType: int               // mic_type_
    var asrMode: int               // asr_mode_
    var asrChannel: int            // asr_channel_
    var sdkFilePath: string        // sdk_file_path_
    var consumers: Consumers       // the six stored consumer callbacks
    var vadState: VadState         // updated by update_vad_state
    var buffer: array<byte>        // adapter_buffer_ (empty while it is null)
    var audioSize: int             // audio_size_
    var sdkCalls: seq<SdkCall>     // calls made into the vendor SDK, oldest first
    var deliveries: seq<Delivery>  // consumer callback invocations, oldest first

    // The input of the last successful InputData, if any.
    ghost var lastInput: Option<seq<byte>>

    /** The scratch buffer is always audioSize bytes long, and it is always
        the remap of the last input into a zero-filled buffer: bytes the remap
        does not write are zero. */
    ghost predicate Valid()
      reads this`buffer, this`audioSize, this`lastInput, this`init,
            this`micChannels, this`sdkChannels, buffer
    {
      && 0 <= audioSize == buffer.Length
      && (lastInput.None? ==> buffer[..] == Zeros(audioSize))
      && (lastInput.Some? ==>
            && init
            && Supported(micChannels, sdkChannels)
            && ScratchSize(|lastInput.value|, micChannels, sdkChannels) == audioSize
            && buffer[..] == Remap(Zeros(audioSize), lastInput.value, micChannels, sdkChannels))
    }

    /** A fresh engine; `defaultSdkChannels` is the initial sdkin_chn_num_. */
    constructor (defaultSdkChannels: int)
      ensures Valid() && fresh(buffer)
      ensures !init && !start
      ensures micChannels == 0 && sdkChannels == defaultSdkChannels
      ensures consumers == NoConsumers && vadState == VadStateNone
      ensures audioSize == 0 && sdkCalls == [] && deliveries == []
    {
      init, start := false, false;
      micChannels, sdkChannels := 0, defaultSdkChannels;
      voipMode, micType, asrMode, asrChannel := 0, 0, 0, 0;
      sdkFilePath := "";
      consumers := NoConsumers;
      vadState := VadStateNone;
      buffer := new byte[0];
      audioSize := 0;
      sdkCalls, deliveries := [], [];
      lastInput := None;
    }

    // ------------------------------------------------------------ lifecycle

    /** AudioEngine::Init. Idempotent once it has succeeded. Otherwise it
        records the settings, settles the SDK channel count, runs InitSDK
        and, only when that succeeds, stores the consumers and sets init_.
        `sdkInitOk` says whether HrscInit returns a handle, `sdkStartOk`
        whether HrscStart succeeds. */
    method Init(cbs: Consumers, micChn: int, configPath: string, voip: int, linearMic: int,
                asrOutputMode: int, asrOutputChannel: int, sdkInitOk: bool, sdkStartOk: bool)
      returns (ret: int)
      requires Valid()
      modifies this`init, this`micChannels, this`sdkChannels, this`voipMode, this`micType,
               this`asrMode, this`asrChannel, this`sdkFilePath, this`consumers, this`sdkCalls
      ensures Valid()
      ensures old(init) ==> ret == 0 && unchanged(this)
      ensures !old(init) ==>
        && micChannels == micChn && voipMode == voip && micType == linearMic
        && asrMode == asrOutputMode && asrChannel == asrOutputChannel
        && sdkFilePath == configPath + "/hrsc"
        && sdkChannels == SdkInputChannels(old(sdkChannels), micChn)
        && sdkCalls == old(sdkCalls) + InitSdkCalls(
             SdkConfig(sdkChannels, sdkFilePath, linearMic, asrOutputMode, asrOutputChannel),
             sdkInitOk, sdkStartOk, voip)
        && (ret == 0 <==> sdkInitOk && sdkStartOk)
        && (ret == 0 ==> init && consumers == cbs)
        && (ret != 0 ==> ret == -1 && !init && consumers == old(consumers))
    {
      if init {
        return 0;
      }
      micChannels := micChn;
      voipMode := voip;
      micType := linearMic;
      asrMode := asrOutputMode;
      asrChannel := asrOutputChannel;
      sdkFilePath := configPath + "/hrsc";
      if sdkChannels > micChannels {
        sdkChannels := 3;
      }
      ret := InitSdk(sdkInitOk, sdkStartOk);
      if ret != 0 {
        return ret;
      }
      consumers := cbs;
      init := true;
      return 0;
    }

    /** AudioEngine::InitSDK: configures and starts the SDK, then sets its
        VOIP data switch to 1 in VOIP mode and to 0 otherwise. */
    method InitSdk(sdkInitOk: bool, sdkStartOk: bool) returns (ret: int)
      modifies this`sdkCalls
      ensures sdkCalls == old(sdkCalls) + InitSdkCalls(
        SdkConfig(sdkChannels, sdkFilePath, micType, asrMode, asrChannel),
        sdkInitOk, sdkStartOk, voipMode)
      ensures ret == 0 <==> sdkInitOk && sdkStartOk
      ensures ret != 0 ==> ret == -1
    {
      sdkCalls := sdkCalls + [SdkInit(SdkConfig(sdkChannels, sdkFilePath, micType, asrMode, asrChannel))];
      if !sdkInitOk {
        return -1;
      }
      sdkCalls := sdkCalls + [SdkStart];
      if !sdkStartOk {
        return -1;
      }
      var value := 0;
      if voipMode != 0 {
        value := 1;
      }
      sdkCalls := sdkCalls + [SdkSetVoipSwitch(value)];
      return 0;
    }

    /** AudioEngine::Start: fails before Init, is idempotent, sets start_. */
    method Start() returns (ret: int)
      modifies this`start
      ensures !old(init) ==> ret == -1 && start == old(start)
      ensures old(init) ==> ret == 0 && start
    {
      if !init {
        return -1;
      }
      if start {
        return 0;
      }
      start := true;
      return 0;
    }

    /** AudioEngine::Stop: nothing before Start; otherwise stops and releases
        the SDK. It does not clear start_, so every later Stop repeats both
        calls. */
    method Stop() returns (ret: int)
      modifies this`sdkCalls
      ensures ret == 0
      ensures !start ==> sdkCalls == old(sdkCalls)
      ensures start ==> sdkCalls == old(sdkCalls) + [SdkStop, SdkRelease]
    {
      if !start {
        return 0;
      }
      DeInitSdk();
      return 0;
    }

    /** AudioEngine::DeInitSDK. */
    method DeInitSdk()
      modifies this`sdkCalls
      ensures sdkCalls == old(sdkCalls) + [SdkStop, SdkRelease]
    {
      sdkCalls := sdkCalls + [SdkStop];
      sdkCalls := sdkCalls + [SdkRelease];
    }

    /** AudioEngine::Reset: succeeds and changes nothing. */
    method Reset() returns (ret: int)
      ensures ret == 0
    {
      return 0;
    }

    /** AudioEngine::DeInit: succeeds and changes nothing. */
    method DeInit() returns (ret: int)
      ensures ret == 0
    {
      return 0;
    }

    // ------------------------------------------------------------ audio input

    /** AudioEngine::InputData. Before Init and Start it fails and touches
        neither the buffer nor the SDK. Otherwise it sizes the scratch buffer
        to len / mic * sdk bytes (reallocating and zero-filling it only when
        that size changes), remaps the input into it, and hands the whole
        buffer to HrscProcess. */
    method InputData(data: seq<byte>, end: bool) returns (ret: int)
      requires Valid()
      requires init && start ==> Supported(micChannels, sdkChannels)
      modifies this`buffer, this`audioSize, this`sdkCalls, this`lastInput, buffer
      ensures Valid()
      ensures !(init && start) ==>
        && ret == -1 && buffer == old(buffer) && buffer[..] == old(buffer[..])
        && audioSize == old(audioSize) && sdkCalls == old(sdkCalls)
      ensures init && start ==>
        && ret == 0
        && audioSize == ScratchSize(|data|, micChannels, sdkChannels)
        && (audioSize == old(audioSize) ==> buffer == old(buffer))
        && (audioSize != old(audioSize) ==> fresh(buffer))
        && buffer[..] == Remap(Prepared(old(buffer[..]), audioSize), data, micChannels, sdkChannels)
        && buffer[..] == Remap(Zeros(audioSize), data, micChannels, sdkChannels)
        && sdkCalls == old(sdkCalls) + [SdkProcess(buffer[..])]
    {
      if !init || !start {
        return -1;
      }
      var mic, sdk := micChannels, sdkChannels;
      var size := |data| / mic * sdk;
      ScratchSizeNonNegative(|data|, mic, sdk);
      if audioSize != size {
        audioSize := size;
        buffer := new byte[size](_ => 0);
      }
      var buf := buffer;
      ghost var prev := buf[..];
      assert prev == Prepared(old(buffer[..]), size);

      RemapInto(buf, data, mic, sdk);
      if lastInput.Some? && prev == old(buffer[..]) {
        NoLeakAcrossCalls(Zeros(size), lastInput.value, data, mic, sdk);
      }
      lastInput := Some(data);
      sdkCalls := sdkCalls + [SdkProcess(buf[..])];
      return 0;
    }

    // ------------------------------------------------------------ SDK callbacks

    /** VoipDataCallback: drops a null payload, otherwise forwards the audio
        to the audio consumer when one is registered. */
    method VoipDataCallback(data: Option<seq<byte>>)
      modifies this`deliveries
      ensures data.None? ==> deliveries == old(deliveries)
      ensures data.Some? ==>
        deliveries == old(deliveries) + (if consumers.audio.Some? then [AudioDelivered(consumers.audio.value, data.value)] else [])
    {
      if data.None? {
        return;
      }
      if consumers.audio.Some? {
        deliveries := deliveries + [AudioDelivered(consumers.audio.value, data.value)];
      }
    }

    /** AsrDataCallback: drops a null payload, otherwise forwards the audio
        to the ASR-data consumer when one is registered. */
    method AsrDataCallback(data: Option<seq<byte>>)
      modifies this`deliveries
      ensures data.None? ==> deliveries == old(deliveries)
      ensures data.Some? ==>
        deliveries == old(deliveries) + (if consumers.asrData.Some? then [AsrDataDelivered(consumers.asrData.value, data.value)] else [])
    {
      if data.None? {
        return;
      }
      if consumers.asrData.Some? {
        deliveries := deliveries + [AsrDataDelivered(consumers.asrData.value, data.value)];
      }
    }

    /** EventCallback: wake-up events are forwarded as they are; VAD begin
        and end first set the VAD state and are then forwarded; every other
        event is ignored. */
    method EventCallback(event: HrscEvent)
      modifies this`vadState, this`deliveries
      ensures vadState == (match event
                           case EventVadBegin => VadStateBegin
                           case EventVadEnd => VadStateEnd
                           case _ => old(vadState))
      ensures event.EventOther? ==> deliveries == old(deliveries)
      ensures !event.EventOther? ==>
        deliveries == old(deliveries) + (if consumers.event.Some? then [EventDelivered(consumers.event.value, event, vadState)] else [])
    {
      if event == EventWkpNormal || event == EventWkpOneshot {
        if consumers.event.Some? {
          deliveries := deliveries + [EventDelivered(consumers.event.value, event, vadState)];
        }
      } else if event == EventVadBegin {
        vadState := VadStateBegin;
        if consumers.event.Some? {
          deliveries := deliveries + [EventDelivered(consumers.event.value, event, vadState)];
        }
      } else if event == EventVadEnd {
        vadState := VadStateEnd;
        if consumers.event.Some? {
          deliveries := deliveries + [EventDelivered(consumers.event.value, event, vadState)];
        }
      }
    }

    /** CmdDataCallback: drops a null command, otherwise forwards it to the
        command consumer when one is registered. */
    method CmdDataCallback(cmd: Option<string>)
      modifies this`deliveries
      ensures cmd.None? ==> deliveries == old(deliveries)
      ensures cmd.Some? ==>
        deliveries == old(deliveries) + (if consumers.cmd.Some? then [CmdDelivered(consumers.cmd.value, cmd.value)] else [])
    {
      if cmd.None? {
        return;
      }
      if consumers.cmd.Some? {
        deliveries := deliveries + [CmdDelivered(consumers.cmd.value, cmd.value)];
      }
    }

    /** DoaCallback: forwards the angle to the smart-data consumer when one
        is registered. */
    method DoaCallback(doa: int)
      modifies this`deliveries
      ensures deliveries == old(deliveries) +
        (if consumers.smart.Some? then [SmartDelivered(consumers.smart.value, doa)] else [])
    {
      if consumers.smart.Some? {
        deliveries := deliveries + [SmartDelivered(consumers.smart.value, doa)];
      }
    }

    /** AsrCallback: forwards the recognised text to the ASR consumer when
        one is registered. The source has no null check here. */
    method AsrCallback(asr: string)
      modifies this`deliveries
      ensures deliveries == old(deliveries) +
        (if consumers.asr.Some? then [AsrTextDelivered(consumers.asr.value, asr)] else [])
    {
      if consumers.asr.Some? {
        deliveries := deliveries + [AsrTextDelivered(consumers.asr.value, asr)];
      }
    }
  }
}
