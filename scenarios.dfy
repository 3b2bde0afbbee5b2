// Concrete runs of the engine: each method drives a fresh AudioEngine through
// a short sequence of calls and states what comes out, using only the
// contracts of the engine's methods.
module Scenarios {
  import opened ChannelRemap
  import opened Engine

  /** An initial sdkin_chn_num_ of 6, which yields the 2-to-3 and 8-to-6 layouts. */
  const DefaultSdkChannels := 6

  /** Two microphone channels expand to three SDK channels: 4-byte source
      frames become 6-byte target frames whose last 2 bytes are zero, on the
      first call (fresh buffer) and on a second call of the same size (the
      reused buffer). */
  method ExpandTwoToThree() returns (first: seq<byte>, second: seq<byte>, reused: bool)
    ensures first == [1, 2, 3, 4, 0, 0, 5, 6, 7, 8, 0, 0]
    ensures second == [9, 8, 7, 6, 0, 0, 5, 4, 3, 2, 0, 0]
    ensures reused
  {
    var e := new AudioEngine(DefaultSdkChannels);
    var r := e.Init(NoConsumers, 2, "/opt/cfg", 0, 0, 0, 0, true, true);
    r := e.Start();
    first := FeedTwoChannels(e, [1, 2, 3, 4, 5, 6, 7, 8]);
    var scratch := e.buffer;
    second := FeedTwoChannels(e, [9, 8, 7, 6, 5, 4, 3, 2]);
    reused := e.buffer == scratch;
  }

  /** One InputData call on a started engine remapping two channels to three. */
  method FeedTwoChannels(e: AudioEngine, data: seq<byte>) returns (out: seq<byte>)
    requires e.Valid() && e.init && e.start && e.micChannels == 2 && e.sdkChannels == 3
    requires |data| == 8
    modifies e`buffer, e`audioSize, e`sdkCalls, e`lastInput, e.buffer
    ensures e.Valid() && e.init && e.start && e.micChannels == 2 && e.sdkChannels == 3
    ensures e.audioSize == 12
    ensures old(e.audioSize) == 12 ==> e.buffer == old(e.buffer)
    ensures e.buffer == old(e.buffer) || fresh(e.buffer)
    ensures out == [data[0], data[1], data[2], data[3], 0, 0, data[4], data[5], data[6], data[7], 0, 0]
  {
    var r := e.InputData(data, false);
    out := e.buffer[..];
    ExpandExample(out, data);
  }

  lemma ExpandExample(out: seq<byte>, data: seq<byte>)
    requires |data| == 8 && out == Remap(Zeros(ScratchSize(8, 2, 3)), data, 2, 3)
    ensures out == [data[0], data[1], data[2], data[3], 0, 0, data[4], data[5], data[6], data[7], 0, 0]
  {
    var want: seq<byte> := [data[0], data[1], data[2], data[3], 0, 0, data[4], data[5], data[6], data[7], 0, 0];
    assert |out| == 12;
    forall j | 0 <= j < 12 ensures out[j] == want[j] {
      assert j / 6 == if j < 6 then 0 else 1;
    }
  }

  /** Eight microphone channels reduce to six: of a 16-byte source frame the
      bytes 0..8 and 12..16 are kept, bytes 8..12 are dropped. */
  method ReduceEightToSix() returns (out: seq<byte>, size: int)
    ensures size == 12
    ensures out == [0, 1, 2, 3, 4, 5, 6, 7, 12, 13, 14, 15]
  {
    var e := new AudioEngine(DefaultSdkChannels);
    var r := e.Init(NoConsumers, 8, "/opt/cfg", 0, 0, 0, 0, true, true);
    r := e.Start();
    out, size := FeedEightChannels(e, [0, 1, 2, 3, 4, 5, 6, 7, 8, 9, 10, 11, 12, 13, 14, 15]);
  }

  /** One InputData call on a started engine reducing eight channels to six. */
  method FeedEightChannels(e: AudioEngine, data: seq<byte>) returns (out: seq<byte>, size: int)
    requires e.Valid() && e.init && e.start && e.micChannels == 8 && e.sdkChannels == 6
    requires |data| == 16
    modifies e`buffer, e`audioSize, e`sdkCalls, e`lastInput, e.buffer
    ensures size == 12
    ensures out == [data[0], data[1], data[2], data[3], data[4], data[5], data[6], data[7],
                    data[12], data[13], data[14], data[15]]
  {
    var r := e.InputData(data, false);
    out, size := e.buffer[..], e.audioSize;
    ReduceExample(out, data);
  }

  lemma ReduceExample(out: seq<byte>, data: seq<byte>)
    requires |data| == 16 && out == Remap(Zeros(ScratchSize(16, 8, 6)), data, 8, 6)
    ensures out == [data[0], data[1], data[2], data[3], data[4], data[5], data[6], data[7],
                    data[12], data[13], data[14], data[15]]
  {
    var want: seq<byte> := [data[0], data[1], data[2], data[3], data[4], data[5], data[6], data[7],
                            data[12], data[13], data[14], data[15]];
    forall j | 0 <= j < 12 ensures out[j] == want[j] {
      ReduceCopiesFrame(Zeros(12), data, 0, j);
      ReduceCopiesFrame(Zeros(12), data, 0, j - 8);
    }
  }

  /** Start and InputData fail before Init; a second Init succeeds without
      reconfiguring the SDK; the SDK sees one HrscInit, one HrscStart and the
      VOIP switch set to 1 in VOIP mode. */
  method InitIsIdempotent() returns (early: int, before: int, first: int, again: int, calls: seq<SdkCall>)
    ensures early == -1 && before == -1 && first == 0 && again == 0
    ensures calls == [SdkInit(SdkConfig(6, "/opt/cfg/hrsc", 1, 0, 0)), SdkStart, SdkSetVoipSwitch(1)]
  {
    var e := new AudioEngine(DefaultSdkChannels);
    early := e.Start();
    before := e.InputData([1, 2], false);
    first := e.Init(NoConsumers, 6, "/opt/cfg", 1, 1, 0, 0, true, true);
    assert "/opt/cfg" + "/hrsc" == "/opt/cfg/hrsc";
    again := e.Init(NoConsumers, 2, "/elsewhere", 0, 0, 0, 0, false, false);
    calls := e.sdkCalls;
  }

  /** When HrscStart fails, Init fails, leaves the engine uninitialised and
      stores no consumer. The channel count it settled on stays, so a retry
      with eight microphones keeps three SDK channels: a layout the remapper
      cannot handle (the 8-to-6 loop would write 12 bytes per frame into a
      buffer sized for 6). */
  method FailedInitThenRetry() returns (failed: int, retried: int, mic: int, sdk: int, stored: Consumers)
    ensures failed == -1 && retried == 0 && stored == NoConsumers
    ensures mic == 8 && sdk == 3 && !Supported(mic, sdk)
  {
    var e := new AudioEngine(DefaultSdkChannels);
    var cbs := Consumers(Some(1), Some(2), Some(3), Some(4), Some(5), Some(6));
    failed := e.Init(cbs, 2, "/opt/cfg", 0, 0, 0, 0, true, false);
    stored := e.consumers;
    retried := e.Init(NoConsumers, 8, "/opt/cfg", 0, 0, 0, 0, true, true);
    mic, sdk := e.micChannels, e.sdkChannels;
  }

  /** VAD begin then end set the VAD state to Begin then End before each is
      relayed; wake-up events are relayed without changing it; other events
      are ignored. */
  method VadBeginThenEnd() returns (vad: VadState, relayed: seq<Delivery>)
    ensures vad == VadStateEnd
    ensures relayed == [EventDelivered(4, EventVadBegin, VadStateBegin),
                        EventDelivered(4, EventVadEnd, VadStateEnd),
                        EventDelivered(4, EventWkpNormal, VadStateEnd)]
  {
    var e := new AudioEngine(DefaultSdkChannels);
    var r := e.Init(Consumers(None, None, None, Some(4), None, None), 2, "/opt/cfg", 0, 0, 0, 0, true, true);
    e.EventCallback(EventVadBegin);
    e.EventCallback(EventOther(17));
    e.EventCallback(EventVadEnd);
    e.EventCallback(EventWkpNormal);
    vad, relayed := e.vadState, e.deliveries;
  }

  /** Null payloads are dropped and, with no consumer registered, so is
      everything else; registered consumers receive what the SDK passes. */
  method RelaysDropWhatTheyCannotDeliver() returns (none: seq<Delivery>, some: seq<Delivery>)
    ensures none == []
    ensures some == [AudioDelivered(1, [1, 2]), SmartDelivered(2, 90), CmdDelivered(3, "wake"),
                     AsrTextDelivered(5, "hello"), AsrDataDelivered(6, [3, 4])]
  {
    var quiet := new AudioEngine(DefaultSdkChannels);
    quiet.VoipDataCallback(Some([1, 2]));
    quiet.AsrDataCallback(Some([1, 2]));
    quiet.CmdDataCallback(Some("wake"));
    quiet.DoaCallback(90);
    quiet.AsrCallback("hello");
    quiet.EventCallback(EventWkpOneshot);
    none := quiet.deliveries;

    var e := new AudioEngine(DefaultSdkChannels);
    var r := e.Init(Consumers(Some(1), Some(2), Some(3), None, Some(5), Some(6)), 2, "/opt/cfg", 0, 0, 0, 0, true, true);
    assert e.consumers == Consumers(Some(1), Some(2), Some(3), None, Some(5), Some(6)) && e.deliveries == [];
    e.VoipDataCallback(Some([1, 2]));
    e.VoipDataCallback(None);
    e.CmdDataCallback(None);
    e.AsrDataCallback(None);
    assert e.deliveries == [AudioDelivered(1, [1, 2])];
    e.DoaCallback(90);
    e.CmdDataCallback(Some("wake"));
    assert e.deliveries == [AudioDelivered(1, [1, 2]), SmartDelivered(2, 90), CmdDelivered(3, "wake")];
    e.AsrCallback("hello");
    e.AsrDataCallback(Some([3, 4]));
    some := e.deliveries;
  }

  /** Stop before Start makes no SDK call. Stop after Start stops and
      releases the SDK but leaves start_ set, so a second Stop repeats both
      calls and InputData still hands audio to the SDK. */
  method StopLeavesEngineStarted() returns (calls: seq<SdkCall>, fed: int)
    ensures fed == 0
    ensures calls == [SdkInit(SdkConfig(2, "/opt/cfg/hrsc", 0, 0, 0)), SdkStart, SdkSetVoipSwitch(0),
                      SdkStop, SdkRelease, SdkStop, SdkRelease, SdkProcess([1, 2, 3, 4])]
  {
    var e := new AudioEngine(2);
    var r := e.Stop();
    r := e.Init(NoConsumers, 2, "/opt/cfg", 0, 0, 0, 0, true, true);
    assert "/opt/cfg" + "/hrsc" == "/opt/cfg/hrsc";
    ghost var setup := [SdkInit(SdkConfig(2, "/opt/cfg/hrsc", 0, 0, 0)), SdkStart, SdkSetVoipSwitch(0)];
    assert e.sdkCalls == setup;
    r := e.Stop();
    r := e.Start();
    r := e.Stop();
    r := e.Stop();
    assert e.sdkCalls == setup + [SdkStop, SdkRelease, SdkStop, SdkRelease];
    fed := e.InputData([1, 2, 3, 4], false);
    IdentityCopies(Zeros(4), [1, 2, 3, 4], 2);
    assert e.buffer[..] == [1, 2, 3, 4];
    calls := e.sdkCalls;
  }
}
