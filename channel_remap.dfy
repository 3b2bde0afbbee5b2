// The channel remapper of AudioEngine::InputData, as functions on byte
// sequences. The engine converts an interleaved 16-bit PCM buffer recorded
// with `mic` channels into a scratch buffer laid out for the `sdk` channels
// the vendor SDK was configured with. Three layouts are hard-coded: a straight
// copy (mic == sdk), an expansion that copies every source frame to the front
// of a wider target frame (mic < sdk), and a fixed 8-to-6 reduction that
// drops channels 5 and 6.
//
// The scratch buffer is reused between calls, so the bytes the remap does not
// write keep their previous value: every function here takes that previous
// content `prev` as well as the input `data`.
module ChannelRemap {
  import Arith

  newtype byte = x: int | 0 <= x < 256

  /** The three channel layouts the remapper knows. */
  datatype Layout = Identity | Expand | Drop8To6

  /** The channel counts the model covers: equal counts, fewer microphone
      than SDK channels, or exactly 8 to 6. A microphone count of 0 divides
      by zero when the scratch size is computed, and a negative one allocates
      a negative size. Every other unsupported count takes the 8-to-6 branch,
      which either overruns a buffer or stays in bounds with misaligned
      source or target frames. None of these is modelled. */
  predicate Supported(mic: int, sdk: int) {
    0 < mic && (mic <= sdk || (mic == 8 && sdk == 6))
  }

  /** Which branch of InputData a pair of channel counts selects. */
  function LayoutOf(mic: int, sdk: int): (r: Layout)
    ensures r == Identity <==> mic == sdk
    ensures r == Expand <==> mic < sdk
    ensures r == Drop8To6 <==> mic > sdk
    ensures Supported(mic, sdk) && r == Drop8To6 ==> mic == 8 && sdk == 6
  {
    if mic == sdk then Identity else if mic < sdk then Expand else Drop8To6
  }

  /** Size in bytes of the scratch buffer: `len / mic_chn_num_ * sdkin_chn_num_`. */
  function ScratchSize(len: nat, mic: int, sdk: int): (size: int)
    requires 0 < mic
  {
    len / mic * sdk
  }

  lemma ScratchSizeNonNegative(len: nat, mic: int, sdk: int)
    requires Supported(mic, sdk)
    ensures 0 <= ScratchSize(len, mic, sdk)
  {
    Arith.LeDivIff(0, len, mic);
    Arith.MulLeMono(0, len / mic, sdk);
  }

  /** Number of whole source frames: `len / (mic_chn_num_ * 2)`. */
  function FrameCount(len: nat, mic: int): (frames: nat)
    requires 0 < mic
  {
    Arith.LeDivIff(0, len, mic * 2);
    len / (mic * 2)
  }

  /** Byte position of `offset` within frame `frame` of a buffer with frames of `width` bytes. */
  function Pos(frame: int, offset: int, width: int): int {
    frame * width + offset
  }

  /** A freshly allocated and zero-filled scratch buffer. */
  function Zeros(n: nat): (zeros: seq<byte>) {
    seq(n, _ => 0)
  }

  /** The scratch buffer InputData copies into: the old one when the size is
      unchanged, a new zero-filled one otherwise. */
  function Prepared(prev: seq<byte>, size: nat): (r: seq<byte>)
    ensures |r| == size
    ensures |prev| == size ==> r == prev
    ensures |prev| != size ==> forall i :: 0 <= i < size ==> r[i] == 0
  {
    if |prev| == size then prev else Zeros(size)
  }

  /** The bytes of s with t copied over them at offset `at`, as memcpy leaves them. */
  function Splice(s: seq<byte>, at: int, t: seq<byte>): (spliced: seq<byte>)
    requires 0 <= at && at + |t| <= |s|
  {
    s[..at] + t + s[at + |t|..]
  }

  lemma SpliceAt(s: seq<byte>, at: int, t: seq<byte>, j: int)
    requires 0 <= at && at + |t| <= |s| && 0 <= j < |s|
    ensures |Splice(s, at, t)| == |s|
    ensures Splice(s, at, t)[j] == if at <= j < at + |t| then t[j - at] else s[j]
  {
  }

  /** Each of the first FrameCount source frames lies inside the input. */
  lemma FrameInInput(len: nat, mic: int, f: int, k: int)
    requires 0 < mic && 0 <= f < FrameCount(len, mic) && 0 <= k < 2 * mic
    ensures 0 <= f * (2 * mic) + k < len
  {
    Arith.LeDivIff(f + 1, len, 2 * mic);
    assert (f + 1) * (2 * mic) == f * (2 * mic) + 2 * mic;
    Arith.MulLeMono(0, f, 2 * mic);
  }

  // ---------------------------------------------------------------- expand

  /** Byte j of the scratch buffer after the first n frames of the expand
      loop: frame f of width 2 * sdk holds source frame f in its first
      2 * mic bytes once f < n; every other byte is the previous content. */
  function ExpandedAt(prev: seq<byte>, data: seq<byte>, mic: int, sdk: int, n: nat, j: nat): byte
    requires 0 < mic < sdk && n <= FrameCount(|data|, mic) && j < |prev|
  {
    var f, k := j / (2 * sdk), j % (2 * sdk);
    Arith.LeDivIff(0, j, 2 * sdk);
    if f < n && k < 2 * mic then
      FrameInInput(|data|, mic, f, k);
      data[f * (2 * mic) + k]
    else
      prev[j]
  }

  /** The scratch buffer after n turns of the expand loop. */
  function Expanded(prev: seq<byte>, data: seq<byte>, mic: int, sdk: int, n: nat): (r: seq<byte>)
    requires 0 < mic < sdk && n <= FrameCount(|data|, mic)
    ensures |r| == |prev|
  {
    seq(|prev|, j requires 0 <= j < |prev| => ExpandedAt(prev, data, mic, sdk, n, j))
  }

  /** Before the expand loop runs, the scratch buffer is unchanged. */
  lemma ExpandedNone(prev: seq<byte>, data: seq<byte>, mic: int, sdk: int)
    requires 0 < mic < sdk
    ensures Expanded(prev, data, mic, sdk, 0) == prev
  {
    forall j | 0 <= j < |prev| ensures Expanded(prev, data, mic, sdk, 0)[j] == prev[j] {
      Arith.LeDivIff(0, j, 2 * sdk);
    }
  }

  /** In the expand case all frame writes and reads stay in bounds:
      FrameCount target frames fit in the scratch buffer and FrameCount
      source frames fit in the input. */
  lemma {:induction false} ExpandFitsScratch(len: nat, mic: int, sdk: int)
    requires 0 < mic < sdk
    ensures FrameCount(len, mic) * (2 * sdk) <= ScratchSize(len, mic, sdk)
    ensures FrameCount(len, mic) * (2 * mic) <= len
  {
    var fc := FrameCount(len, mic);
    Arith.NestedDiv(len, mic);
    assert 2 * fc <= len / mic;
    Arith.MulLeMono(2 * fc, len / mic, sdk);
    assert fc * (2 * sdk) == (2 * fc) * sdk;
    Arith.LeDivIff(fc, len, 2 * mic);
  }

  /** One more turn of the expand loop, whose write offset is dst == n * 2 * sdk
      and read offset src == n * 2 * mic, copies source frame n over the front
      of target frame n and changes nothing else. */
  lemma ExpandStep(prev: seq<byte>, data: seq<byte>, mic: int, sdk: int, n: nat, dst: int, src: int)
    requires 0 < mic < sdk && n < FrameCount(|data|, mic) && |prev| == ScratchSize(|data|, mic, sdk)
    requires dst == n * (2 * sdk) && src == n * (2 * mic)
    ensures 0 <= src && src + 2 * mic <= |data|
    ensures 0 <= dst && dst + 2 * mic <= |prev|
    ensures Expanded(prev, data, mic, sdk, n + 1) ==
      Splice(Expanded(prev, data, mic, sdk, n), dst, data[src..src + 2 * mic])
  {
    FrameInInput(|data|, mic, n, 0);
    FrameInInput(|data|, mic, n, 2 * mic - 1);
    ExpandFitsScratch(|data|, mic, sdk);
    Arith.MulLtMono(n, FrameCount(|data|, mic), 2 * sdk);
    var before, after := Expanded(prev, data, mic, sdk, n), Expanded(prev, data, mic, sdk, n + 1);
    var copied := Splice(before, dst, data[src..src + 2 * mic]);
    forall j | 0 <= j < |prev| ensures after[j] == copied[j] {
      SpliceAt(before, dst, data[src..src + 2 * mic], j);
      ExpandStepAt(prev, data, mic, sdk, n, dst, src, j);
    }
  }

  lemma ExpandStepAt(prev: seq<byte>, data: seq<byte>, mic: int, sdk: int, n: nat, dst: int, src: int, j: int)
    requires 0 < mic < sdk && n < FrameCount(|data|, mic)
    requires dst == n * (2 * sdk) && src == n * (2 * mic) && 0 <= j < |prev|
    ensures 0 <= src && src + 2 * mic <= |data|
    ensures Expanded(prev, data, mic, sdk, n + 1)[j] ==
      if dst <= j < dst + 2 * mic then data[src + (j - dst)]
      else Expanded(prev, data, mic, sdk, n)[j]
  {
    var w := 2 * sdk;
    FrameInInput(|data|, mic, n, 0);
    FrameInInput(|data|, mic, n, 2 * mic - 1);
    Arith.FrameSplit(j, w);
    if dst <= j < dst + 2 * mic {
      Arith.DivModOf(n, j - dst, w);
    } else if j / w == n {
      assert j == dst + j % w;
    }
  }

  // ---------------------------------------------------------------- reduce

  /** Byte j of the scratch buffer after the first n frames of the 8-to-6
      loop: target frame f (12 bytes) holds bytes 0..8 and 12..16 of source
      frame f (16 bytes) once f < n; every other byte is the previous content. */
  function ReducedAt(prev: seq<byte>, data: seq<byte>, n: nat, j: nat): byte
    requires n <= |data| / 16 && j < |prev|
  {
    var f, k := j / 12, j % 12;
    if f < n then
      if k < 8 then data[16 * f + k] else data[16 * f + 4 + k]
    else
      prev[j]
  }

  /** The scratch buffer after n turns of the 8-to-6 loop. */
  function Reduced(prev: seq<byte>, data: seq<byte>, n: nat): (r: seq<byte>)
    requires n <= |data| / 16
    ensures |r| == |prev|
  {
    seq(|prev|, j requires 0 <= j < |prev| => ReducedAt(prev, data, n, j))
  }

  /** Before the 8-to-6 loop runs, the scratch buffer is unchanged. */
  lemma ReducedNone(prev: seq<byte>, data: seq<byte>)
    ensures Reduced(prev, data, 0) == prev
  {
  }

  /** In the 8-to-6 case all frame writes and reads stay in bounds. */
  lemma ReduceFitsScratch(len: nat)
    ensures FrameCount(len, 8) == len / 16
    ensures (len / 16) * 12 <= ScratchSize(len, 8, 6)
    ensures (len / 16) * 16 <= len
  {
    Arith.NestedDiv(len, 8);
    Arith.FrameSplit(len / 8, 2);
    Arith.FrameSplit(len, 16);
  }

  /** One more turn of the 8-to-6 loop copies bytes 0..8 of source frame n to
      offset 12 * n and bytes 12..16 to offset 12 * n + 8, skipping source
      bytes 8..12, and changes nothing else. */
  lemma ReduceStep(prev: seq<byte>, data: seq<byte>, n: nat)
    requires n < |data| / 16 && |prev| == ScratchSize(|data|, 8, 6)
    ensures 16 * n + 16 <= |data| && 12 * n + 12 <= |prev|
    ensures Reduced(prev, data, n + 1) ==
      Splice(Splice(Reduced(prev, data, n), 12 * n, data[16 * n..16 * n + 8]),
             12 * n + 8, data[16 * n + 12..16 * n + 16])
  {
    ReduceFitsScratch(|data|);
    Arith.MulLtMono(n, |data| / 16, 12);
    Arith.LeDivIff(n + 1, |data|, 16);
    var before, after := Reduced(prev, data, n), Reduced(prev, data, n + 1);
    var half := Splice(before, 12 * n, data[16 * n..16 * n + 8]);
    var copied := Splice(half, 12 * n + 8, data[16 * n + 12..16 * n + 16]);
    forall j | 0 <= j < |prev| ensures after[j] == copied[j] {
      SpliceAt(before, 12 * n, data[16 * n..16 * n + 8], j);
      SpliceAt(half, 12 * n + 8, data[16 * n + 12..16 * n + 16], j);
      ReduceStepAt(prev, data, n, j);
    }
  }

  lemma ReduceStepAt(prev: seq<byte>, data: seq<byte>, n: nat, j: int)
    requires n < |data| / 16 && 0 <= j < |prev|
    ensures Reduced(prev, data, n + 1)[j] ==
      if 12 * n <= j < 12 * n + 8 then data[16 * n + (j - 12 * n)]
      else if 12 * n + 8 <= j < 12 * n + 12 then data[16 * n + 4 + (j - 12 * n)]
      else Reduced(prev, data, n)[j]
  {
    if 12 * n <= j < 12 * n + 12 {
      Arith.DivModOf(n, j - 12 * n, 12);
    }
  }

  // ------------------------------------------------------- bounds as written

  /** One past the last input byte InputData's copy reads, for the branch the
      channel counts select, whatever those counts are. */
  function CopyReadEnd(len: nat, mic: int, sdk: int): (end: int)
    requires 0 < mic
  {
    match LayoutOf(mic, sdk)
    case Identity => ScratchSize(len, mic, sdk)
    case Expand => FrameCount(len, mic) * (2 * mic)
    case Drop8To6 => FrameCount(len, mic) * 16
  }

  /** One past the last scratch byte InputData's copy writes. */
  function CopyWriteEnd(len: nat, mic: int, sdk: int): (end: int)
    requires 0 < mic
  {
    match LayoutOf(mic, sdk)
    case Identity => ScratchSize(len, mic, sdk)
    case Expand => if FrameCount(len, mic) == 0 then 0 else (FrameCount(len, mic) - 1) * (2 * sdk) + 2 * mic
    case Drop8To6 => FrameCount(len, mic) * 12
  }

  /** For the supported channel counts the copy reads only input bytes and
      writes only scratch bytes. */
  lemma {:induction false} SupportedStaysInBounds(len: nat, mic: int, sdk: int)
    requires Supported(mic, sdk)
    ensures 0 <= CopyReadEnd(len, mic, sdk) <= len
    ensures 0 <= CopyWriteEnd(len, mic, sdk) <= ScratchSize(len, mic, sdk)
  {
    match LayoutOf(mic, sdk)
    case Identity =>
      Arith.FrameSplit(len, mic);
      Arith.LeDivIff(0, len, mic);
      Arith.MulLeMono(0, len / mic, mic);
    case Expand =>
      ExpandFitsScratch(len, mic, sdk);
      var fc := FrameCount(len, mic);
      Arith.MulLeMono(0, fc, 2 * mic);
      if fc > 0 {
        Arith.MulLtMono(fc - 1, fc, 2 * sdk);
        Arith.MulLeMono(0, fc - 1, 2 * sdk);
      }
    case Drop8To6 =>
      ReduceFitsScratch(len);
  }

  /** Outside the supported counts the copy need not overrun: nine
      microphones with six SDK channels take the 8-to-6 branch, stay in bounds
      on a 36-byte input, but step through the input in 16-byte strides while
      its frames are 18 bytes wide. */
  lemma NineToSixMisaligned()
    ensures LayoutOf(9, 6) == Drop8To6 && !Supported(9, 6)
    ensures CopyReadEnd(36, 9, 6) == 32 && CopyWriteEnd(36, 9, 6) == 24 == ScratchSize(36, 9, 6)
  {
  }

  // ---------------------------------------------------------------- the remap

  /** The scratch buffer after InputData's copy, given its previous content. */
  function Remap(prev: seq<byte>, data: seq<byte>, mic: int, sdk: int): (r: seq<byte>)
    requires Supported(mic, sdk) && |prev| == ScratchSize(|data|, mic, sdk)
    ensures |r| == ScratchSize(|data|, mic, sdk)
  {
    match LayoutOf(mic, sdk)
    case Identity => data[..|prev|]
    case Expand => Expanded(prev, data, mic, sdk, FrameCount(|data|, mic))
    case Drop8To6 => Reduced(prev, data, |data| / 16)
  }

  /** Equal channel counts: the output is the first `size` input bytes, and
      the whole input when its length is a multiple of the channel count. */
  lemma IdentityCopies(prev: seq<byte>, data: seq<byte>, mic: int)
    requires 0 < mic && |prev| == ScratchSize(|data|, mic, mic)
    ensures |prev| <= |data|
    ensures Remap(prev, data, mic, mic) == data[..|prev|]
    ensures |data| % mic == 0 ==> Remap(prev, data, mic, mic) == data
  {
    Arith.FrameSplit(|data|, mic);
  }

  /** Expand case: the first 2 * mic bytes of target frame i are source frame i. */
  lemma ExpandCopiesFrame(prev: seq<byte>, data: seq<byte>, mic: int, sdk: int, i: int, k: int)
    requires 0 < mic < sdk && |prev| == ScratchSize(|data|, mic, sdk)
    requires 0 <= i < FrameCount(|data|, mic) && 0 <= k < 2 * mic
    ensures 0 <= Pos(i, k, 2 * sdk) < |prev| && 0 <= Pos(i, k, 2 * mic) < |data|
    ensures Remap(prev, data, mic, sdk)[Pos(i, k, 2 * sdk)] == data[Pos(i, k, 2 * mic)]
  {
    ExpandFitsScratch(|data|, mic, sdk);
    Arith.MulLtMono(i, FrameCount(|data|, mic), 2 * sdk);
    Arith.MulLeMono(0, i, 2 * sdk);
    FrameInInput(|data|, mic, i, k);
    Arith.DivModOf(i, k, 2 * sdk);
  }

  /** Expand case: the padding bytes 2 * mic .. 2 * sdk of each target frame
      keep the scratch buffer's previous content. */
  lemma ExpandKeepsPadding(prev: seq<byte>, data: seq<byte>, mic: int, sdk: int, i: int, k: int)
    requires 0 < mic < sdk && |prev| == ScratchSize(|data|, mic, sdk)
    requires 0 <= i < FrameCount(|data|, mic) && 2 * mic <= k < 2 * sdk
    ensures 0 <= Pos(i, k, 2 * sdk) < |prev|
    ensures Remap(prev, data, mic, sdk)[Pos(i, k, 2 * sdk)] == prev[Pos(i, k, 2 * sdk)]
  {
    ExpandFitsScratch(|data|, mic, sdk);
    Arith.MulLtMono(i, FrameCount(|data|, mic), 2 * sdk);
    Arith.MulLeMono(0, i, 2 * sdk);
    Arith.DivModOf(i, k, 2 * sdk);
  }

  /** Expand case: the bytes after the last whole target frame keep the
      previous content (the scratch buffer has an extra half frame whenever
      len / mic is odd). */
  lemma ExpandKeepsTail(prev: seq<byte>, data: seq<byte>, mic: int, sdk: int, j: int)
    requires 0 < mic < sdk && |prev| == ScratchSize(|data|, mic, sdk)
    requires FrameCount(|data|, mic) * (2 * sdk) <= j < |prev|
    ensures Remap(prev, data, mic, sdk)[j] == prev[j]
  {
    var fc := FrameCount(|data|, mic);
    Arith.FrameSplit(j, 2 * sdk);
    if j / (2 * sdk) < fc {
      Arith.MulLtMono(j / (2 * sdk), fc, 2 * sdk);
    }
  }

  /** Expand case, converse: any buffer that holds every source frame at the
      front of its target frame and the previous content everywhere else is
      the output of the remap. Together with the three lemmas above this pins
      the output down completely. */
  lemma ExpandCharacterized(prev: seq<byte>, data: seq<byte>, mic: int, sdk: int, out: seq<byte>)
    requires 0 < mic < sdk && |prev| == ScratchSize(|data|, mic, sdk) && |out| == |prev|
    requires HoldsFrames(data, mic, sdk, out)
    requires HoldsPadding(prev, data, mic, sdk, out)
    requires HoldsTail(prev, data, mic, sdk, out)
    ensures out == Remap(prev, data, mic, sdk)
  {
    var r := Remap(prev, data, mic, sdk);
    var fc, w := FrameCount(|data|, mic), 2 * sdk;
    forall j | 0 <= j < |out| ensures out[j] == r[j] {
      Arith.FrameSplit(j, w);
      Arith.LeDivIff(0, j, w);
      var f, k := j / w, j % w;
      if f < fc && k < 2 * mic {
        FrameFromHolds(prev, data, mic, sdk, out, f, k);
      } else if f < fc {
        PaddingFromHolds(prev, data, mic, sdk, out, f, k);
      } else {
        Arith.MulLeMono(fc, f, w);
        ExpandKeepsTail(prev, data, mic, sdk, j);
      }
    }
  }

  /** Every source frame sits at the front of its target frame in `out`. */
  ghost predicate HoldsFrames(data: seq<byte>, mic: int, sdk: int, out: seq<byte>)
    requires 0 < mic
  {
    forall i, k :: 0 <= i < FrameCount(|data|, mic) && 0 <= k < 2 * mic &&
        0 <= Pos(i, k, 2 * sdk) < |out| && 0 <= Pos(i, k, 2 * mic) < |data|
      ==> out[Pos(i, k, 2 * sdk)] == data[Pos(i, k, 2 * mic)]
  }

  /** The padding bytes of every target frame in `out` are those of `prev`. */
  ghost predicate HoldsPadding(prev: seq<byte>, data: seq<byte>, mic: int, sdk: int, out: seq<byte>)
    requires 0 < mic
  {
    forall i, k :: 0 <= i < FrameCount(|data|, mic) && 2 * mic <= k < 2 * sdk &&
        0 <= Pos(i, k, 2 * sdk) < |out| && Pos(i, k, 2 * sdk) < |prev|
      ==> out[Pos(i, k, 2 * sdk)] == prev[Pos(i, k, 2 * sdk)]
  }

  /** The bytes of `out` after the last whole target frame are those of `prev`. */
  ghost predicate HoldsTail(prev: seq<byte>, data: seq<byte>, mic: int, sdk: int, out: seq<byte>)
    requires 0 < mic
  {
    forall j :: 0 <= j < |out| && j < |prev| && FrameCount(|data|, mic) * (2 * sdk) <= j ==> out[j] == prev[j]
  }

  lemma FrameFromHolds(prev: seq<byte>, data: seq<byte>, mic: int, sdk: int, out: seq<byte>, f: int, k: int)
    requires 0 < mic < sdk && |prev| == ScratchSize(|data|, mic, sdk) && |out| == |prev|
    requires HoldsFrames(data, mic, sdk, out)
    requires 0 <= f < FrameCount(|data|, mic) && 0 <= k < 2 * mic
    ensures 0 <= Pos(f, k, 2 * sdk) < |out|
    ensures out[Pos(f, k, 2 * sdk)] == Remap(prev, data, mic, sdk)[Pos(f, k, 2 * sdk)]
  {
    ExpandCopiesFrame(prev, data, mic, sdk, f, k);
  }

  lemma PaddingFromHolds(prev: seq<byte>, data: seq<byte>, mic: int, sdk: int, out: seq<byte>, f: int, k: int)
    requires 0 < mic < sdk && |prev| == ScratchSize(|data|, mic, sdk) && |out| == |prev|
    requires HoldsPadding(prev, data, mic, sdk, out)
    requires 0 <= f < FrameCount(|data|, mic) && 2 * mic <= k < 2 * sdk
    ensures 0 <= Pos(f, k, 2 * sdk) < |out|
    ensures out[Pos(f, k, 2 * sdk)] == Remap(prev, data, mic, sdk)[Pos(f, k, 2 * sdk)]
  {
    ExpandKeepsPadding(prev, data, mic, sdk, f, k);
  }

  /** 8-to-6 case: bytes 0..8 of target frame i are bytes 0..8 of source frame
      i (channels 1 to 4), and bytes 8..12 are source bytes 12..16 (channels 7
      and 8). */
  lemma ReduceCopiesFrame(prev: seq<byte>, data: seq<byte>, i: int, k: int)
    requires |prev| == ScratchSize(|data|, 8, 6)
    requires 0 <= i < FrameCount(|data|, 8)
    ensures 0 <= 12 * i && 12 * i + 12 <= |prev| && 16 * i + 16 <= |data|
    ensures 0 <= k < 8 ==> Remap(prev, data, 8, 6)[12 * i + k] == data[16 * i + k]
    ensures 0 <= k < 4 ==> Remap(prev, data, 8, 6)[12 * i + 8 + k] == data[16 * i + 12 + k]
  {
    if 0 <= k < 8 {
      Arith.DivModOf(i, k, 12);
    }
    if 0 <= k < 4 {
      Arith.DivModOf(i, 8 + k, 12);
    }
  }

  /** 8-to-6 case: bytes after the last whole target frame keep the previous
      content (six of them when len % 16 >= 8). */
  lemma ReduceKeepsTail(prev: seq<byte>, data: seq<byte>, j: int)
    requires |prev| == ScratchSize(|data|, 8, 6)
    requires (|data| / 16) * 12 <= j < |prev|
    ensures Remap(prev, data, 8, 6)[j] == prev[j]
  {
  }

  /** Source offset, within a 16-byte frame, of byte k of a 12-byte target frame. */
  function KeptOffset(k: int): int {
    if k < 8 then k else k + 4
  }

  /** Every target frame of `out` holds the kept bytes of its source frame. */
  ghost predicate HoldsKept(data: seq<byte>, out: seq<byte>) {
    forall i, k :: 0 <= i < |data| / 16 && 0 <= k < 12 &&
        0 <= Pos(i, k, 12) < |out| && 0 <= Pos(i, KeptOffset(k), 16) < |data|
      ==> out[Pos(i, k, 12)] == data[Pos(i, KeptOffset(k), 16)]
  }

  /** 8-to-6 case, converse: any buffer that holds the kept bytes of every
      source frame and the previous content after the last whole target frame
      is the output of the remap. */
  lemma ReduceCharacterized(prev: seq<byte>, data: seq<byte>, out: seq<byte>)
    requires |prev| == ScratchSize(|data|, 8, 6) && |out| == |prev|
    requires HoldsKept(data, out)
    requires forall j :: (|data| / 16) * 12 <= j < |out| ==> out[j] == prev[j]
    ensures out == Remap(prev, data, 8, 6)
  {
    var r := Remap(prev, data, 8, 6);
    var fc := |data| / 16;
    forall j | 0 <= j < |out| ensures out[j] == r[j] {
      Arith.FrameSplit(j, 12);
      Arith.LeDivIff(0, j, 12);
      var f, k := j / 12, j % 12;
      if f < fc {
        Arith.LeDivIff(f + 1, |data|, 16);
        assert 0 <= Pos(f, KeptOffset(k), 16) < |data|;
        assert out[Pos(f, k, 12)] == data[Pos(f, KeptOffset(k), 16)];
      } else {
        Arith.MulLeMono(fc, f, 12);
      }
    }
  }

  /** 8-to-6 case: input bytes 8..12 of each frame (channels 5 and 6) are
      never read: inputs that differ only there give the same output. */
  lemma ReduceIgnoresDroppedChannels(prev: seq<byte>, d1: seq<byte>, d2: seq<byte>)
    requires |d1| == |d2| && |prev| == ScratchSize(|d1|, 8, 6)
    requires forall j :: 0 <= j < |d1| && !(8 <= j % 16 < 12) ==> d1[j] == d2[j]
    ensures Remap(prev, d1, 8, 6) == Remap(prev, d2, 8, 6)
  {
    forall j | 0 <= j < |prev| ensures Remap(prev, d1, 8, 6)[j] == Remap(prev, d2, 8, 6)[j] {
      var f, k := j / 12, j % 12;
      if f < |d1| / 16 {
        if k < 8 {
          Arith.DivModOf(f, k, 16);
        } else {
          Arith.DivModOf(f, 4 + k, 16);
        }
      }
    }
  }

  /** Which bytes the remap writes depends only on the scratch size: so a
      call leaves nothing of the previous call's audio in its output, once
      both calls have the same scratch size. */
  lemma NoLeakAcrossCalls(prev: seq<byte>, d1: seq<byte>, d2: seq<byte>, mic: int, sdk: int)
    requires Supported(mic, sdk)
    requires |prev| == ScratchSize(|d1|, mic, sdk) == ScratchSize(|d2|, mic, sdk)
    ensures Remap(Remap(prev, d1, mic, sdk), d2, mic, sdk) == Remap(prev, d2, mic, sdk)
  {
    if mic < sdk {
      NoLeakExpand(prev, d1, d2, mic, sdk);
    } else if mic > sdk {
      NoLeakReduce(prev, d1, d2);
    }
  }

  lemma NoLeakExpand(prev: seq<byte>, d1: seq<byte>, d2: seq<byte>, mic: int, sdk: int)
    requires 0 < mic < sdk
    requires |prev| == ScratchSize(|d1|, mic, sdk) == ScratchSize(|d2|, mic, sdk)
    ensures FrameCount(|d1|, mic) == FrameCount(|d2|, mic)
    ensures Expanded(Expanded(prev, d1, mic, sdk, FrameCount(|d1|, mic)), d2, mic, sdk, FrameCount(|d2|, mic))
         == Expanded(prev, d2, mic, sdk, FrameCount(|d2|, mic))
  {
    Arith.MulCancel(|d1| / mic, |d2| / mic, sdk);
    Arith.NestedDiv(|d1|, mic);
    Arith.NestedDiv(|d2|, mic);
    var n := FrameCount(|d2|, mic);
    var mid := Expanded(prev, d1, mic, sdk, n);
    var a, b := Expanded(mid, d2, mic, sdk, n), Expanded(prev, d2, mic, sdk, n);
    forall j | 0 <= j < |prev| ensures a[j] == b[j] {
      assert a[j] == ExpandedAt(mid, d2, mic, sdk, n, j);
      assert b[j] == ExpandedAt(prev, d2, mic, sdk, n, j);
      assert mid[j] == ExpandedAt(prev, d1, mic, sdk, n, j);
    }
  }

  lemma NoLeakReduce(prev: seq<byte>, d1: seq<byte>, d2: seq<byte>)
    requires |prev| == ScratchSize(|d1|, 8, 6) == ScratchSize(|d2|, 8, 6)
    ensures |d1| / 16 == |d2| / 16
    ensures Reduced(Reduced(prev, d1, |d1| / 16), d2, |d2| / 16) == Reduced(prev, d2, |d2| / 16)
  {
    Arith.MulCancel(|d1| / 8, |d2| / 8, 6);
    Arith.NestedDiv(|d1|, 8);
    Arith.NestedDiv(|d2|, 8);
    var n := |d2| / 16;
    var mid := Reduced(prev, d1, n);
    var a, b := Reduced(mid, d2, n), Reduced(prev, d2, n);
    forall j | 0 <= j < |prev| ensures a[j] == b[j] {
      assert a[j] == ReducedAt(mid, d2, n, j);
      assert b[j] == ReducedAt(prev, d2, n, j);
      assert mid[j] == ReducedAt(prev, d1, n, j);
    }
  }
}
