/** write_callback of decoder_plugin_flac.cpp: the planar samples of a frame become interleaved
    little-endian PCM in each output's chunk, a circular buffer that would silently drop its
    oldest byte if it were full. */
module FlacPack {
  import opened Bytes
  import opened CacheBuffers

  // ----- sample widths -----

  /** decoder_plugin_api::get_bit_count: whole bytes. */
  function BitCount(bits: nat): nat {
    8 * (bits / 8 + if bits % 8 != 0 then 1 else 0)
  }

  /** metadata_callback: 24 bits are played as 32. */
  function Bps(origBps: nat): nat {
    if BitCount(origBps) == 24 then 32 else BitCount(origBps)
  }

  /** The bytes of one sample, whichever push function is chosen. */
  function Width(origBps: nat): nat {
    Bps(origBps) / 8
  }

  /** libFLAC delivers 4 to 32 bits; the model allows any width from 1. */
  predicate Depth(origBps: nat) {
    1 <= origBps <= 32
  }

  lemma WidthFits(origBps: nat)
    requires Depth(origBps)
    ensures 1 <= Width(origBps) <= 4 && Width(origBps) != 3 && origBps <= 8 * Width(origBps)
    ensures Width(origBps) == if origBps <= 8 then 1 else if origBps <= 16 then 2 else 4
  {
  }

  // ----- one sample -----

  /** Byte i of a sample in two's complement; the division rounds down, as >> does. */
  function ByteOf(v: int, i: nat): byte
    requires i < 4
  {
    ((v / (if i == 0 then 1 else if i == 1 then 0x100 else if i == 2 then 0x1_0000 else 0x100_0000)) % 256) as byte
  }

  function LowBytes(v: int, size: nat): (r: seq<byte>)
    requires size <= 4
    ensures |r| == size
  {
    [ByteOf(v, 0), ByteOf(v, 1), ByteOf(v, 2), ByteOf(v, 3)][..size]
  }

  function PackSample(origBps: nat, v: int): (r: seq<byte>)
    requires Depth(origBps)
    ensures |r| == Width(origBps)
  {
    WidthFits(origBps);
    if origBps == 24 then [0, ByteOf(v, 0), ByteOf(v, 1), ByteOf(v, 2)] else LowBytes(v, Width(origBps))
  }

  function Pow2(n: nat): (r: nat)
    ensures 1 <= r
  {
    if n == 0 then 1 else 2 * Pow2(n - 1)
  }

  lemma {:induction false} Pow2Grows(a: nat, b: nat)
    requires a <= b
    ensures Pow2(a) <= Pow2(b)
  {
    if a == b {
    } else {
      Pow2Grows(a, b - 1);
    }
  }

  /** A signed number of so many bits. */
  predicate InBits(v: int, bits: nat)
    requires 0 < bits
  {
    0 - Pow2(bits - 1) <= v < Pow2(bits - 1)
  }

  function Unsigned(s: seq<byte>): nat {
    if s == [] then 0 else s[0] as nat + 256 * Unsigned(s[1..])
  }

  /** What a player makes of little-endian bytes. */
  function Signed(s: seq<byte>): int
    requires s != []
  {
    if Unsigned(s) < Pow2(8 * |s| - 1) then Unsigned(s) else Unsigned(s) - Pow2(8 * |s|)
  }

  lemma Unsigned4(s: seq<byte>)
    requires 1 <= |s| <= 4
    ensures Unsigned(s) == s[0] as nat + (if |s| > 1 then 256 * s[1] as nat else 0)
      + (if |s| > 2 then 0x1_0000 * s[2] as nat else 0) + (if |s| > 3 then 0x100_0000 * s[3] as nat else 0)
  {
    assert Unsigned(s[1..]) == if |s| > 1 then s[1] as nat + 256 * Unsigned(s[1..][1..]) else 0;
    if |s| > 1 { assert s[1..][1..] == s[2..]; }
    if |s| > 2 { assert s[2..][0] == s[2] && s[2..][1..] == s[3..]; }
    if |s| > 3 { assert s[3..][0] == s[3] && s[3..][1..] == []; }
  }

  lemma Powers()
    ensures Pow2(7) == 0x80 && Pow2(8) == 0x100 && Pow2(15) == 0x8000 && Pow2(16) == 0x1_0000
    ensures Pow2(23) == 0x80_0000 && Pow2(31) == 0x8000_0000 && Pow2(32) == 0x1_0000_0000
  {
    assert Pow2(7) == 0x80;
    assert Pow2(8) == 0x100;
    assert Pow2(12) == 0x1000;
    assert Pow2(15) == 0x8000;
    assert Pow2(16) == 0x1_0000;
    assert Pow2(20) == 0x10_0000;
    assert Pow2(23) == 0x80_0000;
    assert Pow2(27) == 0x800_0000;
    assert Pow2(31) == 0x8000_0000;
    assert Pow2(32) == 0x1_0000_0000;
  }

  /** The division chain takes a number apart. */
  lemma Digits(v: int)
    ensures v % 0x100 == ByteOf(v, 0) as nat
    ensures v % 0x1_0000 == ByteOf(v, 0) as nat + 0x100 * ByteOf(v, 1) as nat
    ensures v % 0x100_0000 == ByteOf(v, 0) as nat + 0x100 * ByteOf(v, 1) as nat + 0x1_0000 * ByteOf(v, 2) as nat
    ensures v % 0x1_0000_0000 == ByteOf(v, 0) as nat + 0x100 * ByteOf(v, 1) as nat
      + 0x1_0000 * ByteOf(v, 2) as nat + 0x100_0000 * ByteOf(v, 3) as nat
  {
    var a, b, c := v / 0x100, v / 0x1_0000, v / 0x100_0000;
    assert b == a / 0x100 && c == b / 0x100;
  }

  lemma UnsignedLow(v: int, size: nat)
    requires size == 1 || size == 2 || size == 4
    ensures Unsigned(LowBytes(v, size)) == v % Pow2(8 * size)
  {
    Powers();
    Digits(v);
    Unsigned4(LowBytes(v, size));
  }

  /** Two's complement: a number that fits is recovered from its remainder. */
  lemma SignedLow(v: int, size: nat)
    requires size == 1 || size == 2 || size == 4
    requires InBits(v, 8 * size)
    ensures Signed(LowBytes(v, size)) == v
  {
    Powers();
    UnsignedLow(v, size);
    Wrap(v, Pow2(8 * size - 1));
  }

  lemma Wrap(v: int, half: nat)
    requires 0 < half && 0 - half <= v < half
    ensures v % (2 * half) == if v < 0 then v + 2 * half else v
  {
    var m := 2 * half;
    var q, r := v / m, v % m;
    assert v == q * m + r;
    assert q >= 1 ==> q * m >= m;
    assert q <= -2 ==> q * m <= -2 * m;
  }

  lemma Signed24(v: int)
    requires InBits(v, 24)
    ensures Signed([0, ByteOf(v, 0), ByteOf(v, 1), ByteOf(v, 2)]) == 256 * v
  {
    var s: seq<byte> := [0, ByteOf(v, 0), ByteOf(v, 1), ByteOf(v, 2)];
    Powers();
    assert Unsigned(s) == 256 * (v % 0x100_0000) by {
      Digits(v);
      Unsigned4(s);
    }
    Wrap(v, 0x80_0000);
  }

  /** A sample survives packing; 24-bit samples come back scaled to 32 bits. Samples of 17 to 23
      bits travel in 32 bits too, but unscaled. */
  lemma SampleSurvives(origBps: nat, v: int)
    requires Depth(origBps) && InBits(v, origBps)
    ensures Signed(PackSample(origBps, v)) == if origBps == 24 then 256 * v else v
  {
    WidthFits(origBps);
    if origBps == 24 {
      Signed24(v);
    } else {
      Pow2Grows(origBps - 1, 8 * Width(origBps) - 1);
      SignedLow(v, Width(origBps));
    }
  }

  // ----- a frame -----

  /** Sample i of every channel. */
  function Column(buffer: seq<seq<int>>, i: nat): (r: seq<int>)
    requires forall c :: 0 <= c < |buffer| ==> i < |buffer[c]|
    ensures |r| == |buffer| && forall c :: 0 <= c < |buffer| ==> r[c] == buffer[c][i]
  {
    seq(|buffer|, c requires 0 <= c < |buffer| => buffer[c][i])
  }

  predicate Planar(buffer: seq<seq<int>>, n: nat) {
    forall c :: 0 <= c < |buffer| ==> n <= |buffer[c]|
  }

  /** The length of k pieces of length w. */
  function Span(k: nat, w: nat): nat {
    if k == 0 then 0 else Span(k - 1, w) + w
  }

  lemma {:induction false} SpanIs(k: nat, w: nat)
    ensures Span(k, w) == k * w
  {
    if k == 0 {
    } else {
      SpanIs(k - 1, w);
      assert k * w == (k - 1) * w + w;
    }
  }

  lemma {:induction false} SpanGrows(a: nat, b: nat, w: nat)
    requires a <= b
    ensures Span(a, w) <= Span(b, w)
  {
    if a == b {
    } else {
      SpanGrows(a, b - 1, w);
    }
  }

  /** The first n samples of every channel, in the order in which they are played. */
  function Interleaved(buffer: seq<seq<int>>, n: nat): (r: seq<int>)
    requires Planar(buffer, n)
    ensures |r| == Span(n, |buffer|)
  {
    if n == 0 then [] else Interleaved(buffer, n - 1) + Column(buffer, n - 1)
  }

  lemma {:induction false} FrameMajor(buffer: seq<seq<int>>, n: nat, i: nat, c: nat, k: nat)
    requires Planar(buffer, n) && i < n && c < |buffer| && k == Span(i, |buffer|) + c
    ensures k < |Interleaved(buffer, n)| && Interleaved(buffer, n)[k] == buffer[c][i]
  {
    if i == n - 1 {
    } else {
      FrameMajor(buffer, n - 1, i, c, k);
    }
  }

  function PackAll(origBps: nat, samples: seq<int>): (r: seq<byte>)
    requires Depth(origBps)
    ensures |r| == Span(|samples|, Width(origBps))
  {
    if samples == [] then []
    else PackAll(origBps, samples[..|samples| - 1]) + PackSample(origBps, samples[|samples| - 1])
  }

  lemma {:induction false} PackedAt(origBps: nat, samples: seq<int>, k: nat, w: nat, start: nat)
    requires Depth(origBps) && k < |samples| && w == Width(origBps) && start == Span(k, w)
    ensures start + w <= |PackAll(origBps, samples)|
    ensures PackAll(origBps, samples)[start..start + w] == PackSample(origBps, samples[k])
  {
    var n := |samples| - 1;
    LastPacked(origBps, samples, w);
    if k < n {
      PackedAt(origBps, samples[..n], k, w, start);
      TakenFromFirst(PackAll(origBps, samples[..n]), PackSample(origBps, samples[n]), start, start + w);
    }
  }

  /** The last sample lies behind the others. */
  lemma LastPacked(origBps: nat, samples: seq<int>, w: nat)
    requires Depth(origBps) && samples != [] && w == Width(origBps)
    ensures var n := |samples| - 1;
      var a, b, start := PackAll(origBps, samples[..n]), PackSample(origBps, samples[n]), Span(n, w);
      && PackAll(origBps, samples) == a + b && |a| == start && |b| == w && (a + b)[start..start + w] == b
  {
  }

  lemma TakenFromFirst(a: seq<byte>, b: seq<byte>, i: nat, j: nat)
    requires i <= j <= |a|
    ensures (a + b)[i..j] == a[i..j]
  {
  }

  /** Packing is lossless and ordered: the bytes at frame-major position k = (i, c) are sample i
      of channel c, scaled by 256 exactly when the stream has 24 bits. */
  lemma FrameSurvives(
    origBps: nat, buffer: seq<seq<int>>, n: nat, i: nat, c: nat, k: nat, w: nat, start: nat)
    requires Depth(origBps) && Planar(buffer, n) && i < n && c < |buffer| && InBits(buffer[c][i], origBps)
    requires k == i * |buffer| + c && w == Width(origBps) && start == k * w
    ensures 0 < w && start + w <= |PackAll(origBps, Interleaved(buffer, n))|
    ensures Signed(PackAll(origBps, Interleaved(buffer, n))[start..start + w])
      == if origBps == 24 then 256 * buffer[c][i] else buffer[c][i]
  {
    SpanIs(i, |buffer|);
    FrameMajor(buffer, n, i, c, k);
    SpanIs(k, w);
    PackedSurvives(origBps, Interleaved(buffer, n), k, w, start, buffer[c][i]);
  }

  lemma PackedSurvives(origBps: nat, samples: seq<int>, k: nat, w: nat, start: nat, v: int)
    requires Depth(origBps) && k < |samples| && w == Width(origBps) && start == Span(k, w)
    requires samples[k] == v && InBits(v, origBps)
    ensures 0 < w && start + w <= |PackAll(origBps, samples)|
    ensures Signed(PackAll(origBps, samples)[start..start + w]) == if origBps == 24 then 256 * v else v
  {
    WidthFits(origBps);
    PackedAt(origBps, samples, k, w, start);
    SampleSurvives(origBps, v);
  }

  // ----- the circular buffer and the callback -----

  method PushFuncCall(buf: Chunk, ival: int, sampleSize: nat)
    requires |buf.bytes| <= buf.capacity && sampleSize <= 4
    modifies buf`bytes
    ensures |buf.bytes| <= buf.capacity
    ensures |old(buf.bytes)| + sampleSize <= buf.capacity ==> buf.bytes == old(buf.bytes) + LowBytes(ival, sampleSize)
  {
    buf.InsertEnd(LowBytes(ival, sampleSize));
  }

  method PushFuncCall24(buf: Chunk, ival: int)
    requires |buf.bytes| <= buf.capacity
    modifies buf`bytes
    ensures |buf.bytes| <= buf.capacity
    ensures |old(buf.bytes)| + 4 <= buf.capacity ==>
      buf.bytes == old(buf.bytes) + [0, ByteOf(ival, 0), ByteOf(ival, 1), ByteOf(ival, 2)]
  {
    buf.PushBack(0);
    buf.PushBack(ByteOf(ival, 0));
    buf.PushBack(ByteOf(ival, 1));
    buf.PushBack(ByteOf(ival, 2));
  }

  /** The bytes of one sample of every channel. */
  function OneSample(channels: nat, origBps: nat): nat {
    channels * Bps(origBps) / 8
  }

  /** The room reserved for a frame is exactly what packing it takes. */
  lemma TotalIs(buffer: seq<seq<int>>, n: nat, origBps: nat)
    requires Depth(origBps) && Planar(buffer, n)
    ensures OneSample(|buffer|, origBps) * n == |PackAll(origBps, Interleaved(buffer, n))|
  {
    OneSampleIs(|buffer|, origBps);
    SpanOfSpan(n, |buffer|, Width(origBps));
  }

  lemma OneSampleIs(c: nat, origBps: nat)
    requires Depth(origBps)
    ensures OneSample(c, origBps) == c * Width(origBps)
  {
    WidthFits(origBps);
    if Width(origBps) == 1 {
    } else if Width(origBps) == 2 {
    } else {
      assert Width(origBps) == 4;
    }
  }

  lemma SpanOfSpan(n: nat, c: nat, w: nat)
    ensures Span(Span(n, c), w) == c * w * n
  {
    SpanIs(n, c);
    SpanIs(Span(n, c), w);
    Commutes(n, c, w);
  }

  lemma Commutes(n: nat, c: nat, w: nat)
    ensures n * c * w == c * w * n
  {
  }

  /** The body of the loop over samples and channels: the chunk is first made large enough for
      the whole frame, so no byte already in it is dropped. */
  method WriteFrame(buf: Chunk, buffer: seq<seq<int>>, blocksize: nat, origBps: nat)
    requires Depth(origBps) && Planar(buffer, blocksize)
    modifies buf`bytes, buf`capacity
    ensures buf.bytes == old(buf.bytes) + PackAll(origBps, Interleaved(buffer, blocksize))
    ensures |buf.bytes| <= buf.capacity
    ensures buf.capacity == if old(buf.capacity) < |buf.bytes| then |buf.bytes| else old(buf.capacity)
  {
    TotalIs(buffer, blocksize, origBps);
    Reserve(buf, OneSample(|buffer|, origBps) * blocksize);
    WriteColumns(buf, buffer, blocksize, origBps);
  }

  /** A buffer that held `base`, with the first i samples of every channel packed behind it. */
  ghost function Stage(base: seq<byte>, buffer: seq<seq<int>>, i: nat, origBps: nat): seq<byte>
    requires Depth(origBps) && Planar(buffer, i)
  {
    base + PackAll(origBps, Interleaved(buffer, i))
  }

  lemma FirstStage(base: seq<byte>, buffer: seq<seq<int>>, origBps: nat)
    requires Depth(origBps)
    ensures Stage(base, buffer, 0, origBps) == base
  {
  }

  /** The outer loop. */
  method WriteColumns(buf: Chunk, buffer: seq<seq<int>>, blocksize: nat, origBps: nat)
    requires Depth(origBps) && Planar(buffer, blocksize)
    requires |Stage(buf.bytes, buffer, blocksize, origBps)| <= buf.capacity
    modifies buf`bytes
    ensures buf.bytes == Stage(old(buf.bytes), buffer, blocksize, origBps)
  {
    ghost var base := buf.bytes;
    FirstStage(base, buffer, origBps);
    var i := 0;
    while i != blocksize
      invariant i <= blocksize && |buf.bytes| <= buf.capacity
      invariant buf.bytes == Stage(base, buffer, i, origBps)
      decreases blocksize - i
    {
      WriteColumn(buf, base, buffer, blocksize, i, origBps);
      i := i + 1;
    }
  }

  /** Makes room for so many more bytes. */
  method Reserve(buf: Chunk, total: nat)
    modifies buf`capacity
    ensures buf.capacity == if old(buf.capacity) < |buf.bytes| + total then |buf.bytes| + total else old(buf.capacity)
  {
    var needFree := total - (buf.capacity - |buf.bytes|);
    if needFree > 0 {
      buf.capacity := buf.capacity + needFree;
    }
  }

  /** What is packed when c samples of column i are done. */
  ghost function SoFar(buffer: seq<seq<int>>, i: nat, c: nat): seq<int>
    requires Planar(buffer, i + 1) && c <= |buffer|
  {
    Interleaved(buffer, i) + Column(buffer, i)[..c]
  }

  lemma ColumnEnds(buffer: seq<seq<int>>, i: nat)
    requires Planar(buffer, i + 1)
    ensures SoFar(buffer, i, 0) == Interleaved(buffer, i)
    ensures SoFar(buffer, i, |buffer|) == Interleaved(buffer, i + 1)
  {
    assert Column(buffer, i)[..|buffer|] == Column(buffer, i);
  }

  /** One more sample: what it adds, and that there is room for it. */
  lemma NextPacked(base: seq<byte>, buffer: seq<seq<int>>, n: nat, i: nat, c: nat, origBps: nat)
    requires Depth(origBps) && Planar(buffer, n) && i < n && c < |buffer|
    ensures base + PackAll(origBps, SoFar(buffer, i, c + 1))
      == base + PackAll(origBps, SoFar(buffer, i, c)) + PackSample(origBps, buffer[c][i])
    ensures |PackAll(origBps, SoFar(buffer, i, c))| + Width(origBps) <= |PackAll(origBps, Interleaved(buffer, n))|
  {
    Room(buffer, n, i, c, origBps);
    NextInColumn(Interleaved(buffer, i), Column(buffer, i), c);
    PackMore(origBps, SoFar(buffer, i, c), buffer[c][i]);
    Assoc(base, PackAll(origBps, SoFar(buffer, i, c)), PackSample(origBps, buffer[c][i]));
  }

  /** The inner loop: sample i of every channel. */
  method WriteColumn(buf: Chunk, ghost base: seq<byte>,
                     buffer: seq<seq<int>>, ghost n: nat, i: nat, origBps: nat)
    requires Depth(origBps) && Planar(buffer, n) && i < n
    requires |Stage(base, buffer, n, origBps)| <= buf.capacity
    requires buf.bytes == Stage(base, buffer, i, origBps) && |buf.bytes| <= buf.capacity
    modifies buf`bytes
    ensures |buf.bytes| <= buf.capacity && buf.bytes == Stage(base, buffer, i + 1, origBps)
  {
    var channel := 0;
    ColumnEnds(buffer, i);
    while channel != |buffer|
      invariant channel <= |buffer| && |buf.bytes| <= buf.capacity
      invariant buf.bytes == base + PackAll(origBps, SoFar(buffer, i, channel))
    {
      NextPacked(base, buffer, n, i, channel, origBps);
      WriteSample(buf, buffer[channel][i], origBps);
      channel := channel + 1;
    }
  }

  method WriteSample(buf: Chunk, ival: int, origBps: nat)
    requires Depth(origBps) && |buf.bytes| + Width(origBps) <= buf.capacity
    modifies buf`bytes
    ensures buf.bytes == old(buf.bytes) + PackSample(origBps, ival)
  {
    WidthFits(origBps);
    if origBps == 24 {
      PushFuncCall24(buf, ival);
    } else {
      PushFuncCall(buf, ival, Bps(origBps) / 8);
    }
  }

  lemma OneMore(k: nat, w: nat)
    ensures (k + 1) * w == k * w + w
  {
  }

  lemma NextInColumn(done: seq<int>, column: seq<int>, c: nat)
    requires c < |column|
    ensures done + column[..c + 1] == (done + column[..c]) + [column[c]]
  {
  }

  /** The next sample still fits into the room for the frame. */
  lemma Room(buffer: seq<seq<int>>, n: nat, i: nat, c: nat, origBps: nat)
    requires Depth(origBps) && Planar(buffer, n) && i < n && c < |buffer|
    ensures |PackAll(origBps, SoFar(buffer, i, c))| + Width(origBps)
      <= |PackAll(origBps, Interleaved(buffer, n))|
  {
    var k, w := |SoFar(buffer, i, c)|, Width(origBps);
    assert k == Span(i, |buffer|) + c;
    FrameMajor(buffer, n, i, c, k);
    SpanGrows(k + 1, Span(n, |buffer|), w);
  }

  lemma PackMore(origBps: nat, samples: seq<int>, v: int)
    requires Depth(origBps)
    ensures PackAll(origBps, samples + [v]) == PackAll(origBps, samples) + PackSample(origBps, v)
  {
    assert (samples + [v])[..|samples|] == samples;
  }

  predicate Within(b: Chunk)
    reads b
  {
    |b.bytes| <= b.capacity
  }

  /** There is no room for another sample of every channel. */
  predicate Full(b: Chunk, channels: nat, origBps: nat)
    requires Depth(origBps)
    reads b
  {
    b.capacity - |b.bytes| < OneSample(channels, origBps)
  }

  lemma FullIs(b: Chunk, channels: nat, origBps: nat)
    requires Depth(origBps)
    ensures Full(b, channels, origBps) <==> b.capacity < |b.bytes| + channels * Width(origBps)
  {
    OneSampleIs(channels, origBps);
  }

  predicate Distinct(outputs: seq<Chunk>) {
    forall i, j :: 0 <= i < j < |outputs| ==> outputs[i] != outputs[j]
  }

  class FlacStream {
    const origBps: nat
    const totalSamples: nat
    var currentSamplesWritten: nat

    constructor (origBps: nat, totalSamples: nat)
      ensures this.origBps == origBps && this.totalSamples == totalSamples && currentSamplesWritten == 0
    {
      this.origBps, this.totalSamples, currentSamplesWritten := origBps, totalSamples, 0;
    }

    /** One round of write_callback; `rotate` is the argument of its put_cache_ptr. */
    method WriteOutput(out: Chunk, buffer: seq<seq<int>>, blocksize: nat) returns (rotate: bool)
      requires Depth(origBps) && Planar(buffer, blocksize) && Within(out)
      modifies this`currentSamplesWritten, out
      ensures currentSamplesWritten == old(currentSamplesWritten) + blocksize
      ensures out.bytes == old(out.bytes) + PackAll(origBps, Interleaved(buffer, blocksize))
      ensures Within(out) && old(out.capacity) <= out.capacity
      ensures rotate == (currentSamplesWritten == totalSamples || Full(out, |buffer|, origBps))
    {
      WriteFrame(out, buffer, blocksize, origBps);
      currentSamplesWritten := currentSamplesWritten + blocksize;
      rotate := currentSamplesWritten == totalSamples || Full(out, |buffer|, origBps);
    }

    /** Every output gets the whole frame behind what it has. The counter grows once for every
        output, so the flag for the very last data is right for a single output only. */
    method WriteCallback(outputs: seq<Chunk>, buffer: seq<seq<int>>, blocksize: nat)
      returns (rotate: seq<bool>)
      requires Distinct(outputs) && Depth(origBps) && Planar(buffer, blocksize)
      requires forall k :: 0 <= k < |outputs| ==> Within(outputs[k])
      modifies this, set b | b in outputs
      ensures |rotate| == |outputs|
      ensures currentSamplesWritten == old(currentSamplesWritten) + |outputs| * blocksize
      ensures forall k :: 0 <= k < |outputs| ==>
        && outputs[k].bytes == old(outputs[k].bytes) + PackAll(origBps, Interleaved(buffer, blocksize))
        && Within(outputs[k]) && old(outputs[k].capacity) <= outputs[k].capacity
        && rotate[k] == (old(currentSamplesWritten) + (k + 1) * blocksize == totalSamples
                         || Full(outputs[k], |buffer|, origBps))
    {
      rotate := [];
      var j := 0;
      while j != |outputs|
        invariant j <= |outputs| && |rotate| == j
        invariant currentSamplesWritten == old(currentSamplesWritten) + j * blocksize
        invariant forall k :: j <= k < |outputs| ==>
          outputs[k].bytes == old(outputs[k].bytes) && outputs[k].capacity == old(outputs[k].capacity)
        invariant forall k :: 0 <= k < j ==>
          && outputs[k].bytes == old(outputs[k].bytes) + PackAll(origBps, Interleaved(buffer, blocksize))
          && Within(outputs[k]) && old(outputs[k].capacity) <= outputs[k].capacity
          && rotate[k] == (old(currentSamplesWritten) + (k + 1) * blocksize == totalSamples
                           || Full(outputs[k], |buffer|, origBps))
      {
        var last := WriteOutput(outputs[j], buffer, blocksize);
        OneMore(j, blocksize);
        rotate := rotate + [last];
        j := j + 1;
      }
    }
  }
}
