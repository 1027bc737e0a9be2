/** A whole FLAC stream through write_callback: frame after frame, for any number of outputs, what
    each chunk receives and when an output is told of the last data. */
module FlacStreams {
  import opened Bytes
  import opened CacheBuffers
  import opened FlacPack

  // ----- the counter -----

  /** The counter after whole frames, by WriteCallback. */
  function Counted(frames: seq<nat>, outputs: nat): nat {
    if frames == [] then 0 else Counted(frames[..|frames| - 1], outputs) + outputs * frames[|frames| - 1]
  }

  lemma {:induction false} CountedIs(frames: seq<nat>, outputs: nat)
    ensures Counted(frames, outputs) == outputs * Counted(frames, 1)
  {
    if frames == [] {
    } else {
      var front, last := frames[..|frames| - 1], frames[|frames| - 1];
      CountedIs(front, outputs);
      assert outputs * (Counted(front, 1) + last) == outputs * Counted(front, 1) + outputs * last;
    }
  }

  /** The counter is at the total after k + 1 of the last frame's outputs. */
  predicate AtTotal(frames: seq<nat>, last: nat, outputs: nat, k: nat) {
    Counted(frames, outputs) + (k + 1) * last == Counted(frames, 1) + last
  }

  lemma LastSum(before: nat, last: nat, outputs: nat, k: nat)
    requires 0 < last && k < outputs
    ensures outputs * before + (k + 1) * last == before + last <==> k == 0 && (outputs == 1 || before == 0)
  {
    assert outputs * before == before + (outputs - 1) * before;
    assert (k + 1) * last == last + k * last;
    assert 0 < k ==> 0 < k * last;
    assert 1 < outputs && 0 < before ==> 0 < (outputs - 1) * before;
  }

  /** When the counter is at the total in the middle of the last frame. */
  lemma LastCount(frames: seq<nat>, last: nat, outputs: nat, k: nat)
    requires 0 < last && k < outputs
    ensures AtTotal(frames, last, outputs, k) <==> k == 0 && (outputs == 1 || Counted(frames, 1) == 0)
  {
    CountedIs(frames, outputs);
    LastSum(Counted(frames, 1), last, outputs, k);
  }

  lemma LastCounts(frames: seq<nat>, last: nat, outputs: nat)
    requires 0 < last
    ensures forall k: nat {:trigger AtTotal(frames, last, outputs, k)} :: k < outputs ==>
      (AtTotal(frames, last, outputs, k) <==> k == 0 && (outputs == 1 || Counted(frames, 1) == 0))
  {
    forall k: nat | k < outputs
      ensures AtTotal(frames, last, outputs, k) <==> k == 0 && (outputs == 1 || Counted(frames, 1) == 0)
    {
      LastCount(frames, last, outputs, k);
    }
  }

  lemma OneMoreFrame(sizes: seq<nat>, j: nat, outputs: nat)
    requires j < |sizes|
    ensures Counted(sizes[..j + 1], outputs) == Counted(sizes[..j], outputs) + outputs * sizes[j]
  {
    assert sizes[..j + 1][..j] == sizes[..j];
  }

  // ----- the frames and the chunks -----

  ghost predicate AllWithin(chunks: set<Chunk>)
    reads chunks
  {
    forall b :: b in chunks ==> Within(b)
  }

  /** The frames of a stream, decoded, and for each frame the free chunks of the outputs. */
  datatype Frame = Frame(outputs: seq<Chunk>, buffer: seq<seq<int>>, blocksize: nat)

  function Sizes(frames: seq<Frame>): (r: seq<nat>)
    ensures |r| == |frames|
  {
    seq(|frames|, i requires 0 <= i < |frames| => frames[i].blocksize)
  }

  ghost function OutputsOf(f: Frame): set<Chunk> {
    set b | b in f.outputs
  }

  ghost function ChunksOf(frames: seq<Frame>): set<Chunk> {
    if frames == [] then {} else ChunksOf(frames[..|frames| - 1]) + OutputsOf(frames[|frames| - 1])
  }

  lemma {:induction false} OutputsIn(frames: seq<Frame>, i: nat)
    requires i < |frames|
    ensures OutputsOf(frames[i]) <= ChunksOf(frames)
  {
    if i == |frames| - 1 {
    } else {
      OutputsIn(frames[..|frames| - 1], i);
    }
  }

  ghost predicate FrameOk(f: Frame, outputs: nat) {
    |f.outputs| == outputs && Distinct(f.outputs) && Planar(f.buffer, f.blocksize)
  }

  // ----- what a chunk receives -----

  /** What one frame amounts to: the chunks it goes to, and its samples packed. */
  datatype Piece = Piece(outputs: seq<Chunk>, bytes: seq<byte>)

  function PieceOf(f: Frame, origBps: nat): Piece
    requires Depth(origBps) && Planar(f.buffer, f.blocksize)
  {
    Piece(f.outputs, PackAll(origBps, Interleaved(f.buffer, f.blocksize)))
  }

  predicate AllPlanar(frames: seq<Frame>) {
    forall i :: 0 <= i < |frames| ==> Planar(frames[i].buffer, frames[i].blocksize)
  }

  function Pieces(frames: seq<Frame>, origBps: nat): seq<Piece>
    requires Depth(origBps) && AllPlanar(frames)
  {
    seq(|frames|, i requires 0 <= i < |frames| => PieceOf(frames[i], origBps))
  }

  /** The packed frames that went to b, one after the other. */
  ghost function Received(ps: seq<Piece>, b: Chunk): seq<byte> {
    if ps == [] then []
    else Received(ps[..|ps| - 1], b) + if b in ps[|ps| - 1].outputs then ps[|ps| - 1].bytes else []
  }

  /** What a chunk was at first. */
  datatype Before = Before(bytes: seq<byte>, capacity: nat)

  /** A chunk holds what it held at first and, behind it, what it has received. */
  ghost predicate GrownAt(b: Chunk, start: map<Chunk, Before>, ps: seq<Piece>)
    reads b
  {
    Within(b) && b in start && b.bytes == start[b].bytes + Received(ps, b) && start[b].capacity <= b.capacity
  }

  ghost predicate Grown(all: set<Chunk>, start: map<Chunk, Before>, ps: seq<Piece>)
    reads all
  {
    forall b {:trigger GrownAt(b, start, ps)} :: b in all ==> GrownAt(b, start, ps)
  }

  lemma OneMorePart(s: seq<byte>, done: seq<Piece>, p: Piece, b: Chunk)
    ensures s + Received(done + [p], b) == s + Received(done, b) + (if b in p.outputs then p.bytes else [])
  {
    assert (done + [p])[..|done|] == done;
    Assoc(s, Received(done, b), if b in p.outputs then p.bytes else []);
  }

  /** Frame i belongs to a stream for so many outputs with these chunks, and pieces[i] is what it
      amounts to. */
  ghost predicate Planned(frames: seq<Frame>, outputs: nat, all: set<Chunk>, pieces: seq<Piece>,
                          sizes: seq<nat>, origBps: nat, i: nat)
    requires Depth(origBps) && |frames| == |pieces| == |sizes| && i < |frames|
  {
    FrameOk(frames[i], outputs) && OutputsOf(frames[i]) <= all && pieces[i] == PieceOf(frames[i], origBps)
    && sizes[i] == frames[i].blocksize
  }

  /** write_callback for one frame, behind the pieces `done`. */
  method WriteNext(stream: FlacStream, f: Frame, ghost outputs: nat, ghost all: set<Chunk>,
                   ghost start: map<Chunk, Before>, ghost done: seq<Piece>) returns (rotate: seq<bool>)
    requires Depth(stream.origBps) && FrameOk(f, outputs) && OutputsOf(f) <= all && Grown(all, start, done)
    modifies stream, OutputsOf(f)
    ensures |rotate| == outputs && Grown(all, start, done + [PieceOf(f, stream.origBps)])
    ensures stream.currentSamplesWritten == old(stream.currentSamplesWritten) + outputs * f.blocksize
    ensures forall k :: 0 <= k < outputs ==>
      rotate[k] == (old(stream.currentSamplesWritten) + (k + 1) * f.blocksize == stream.totalSamples
                    || Full(f.outputs[k], |f.buffer|, stream.origBps))
  {
    ghost var p := PieceOf(f, stream.origBps);
    forall k | 0 <= k < |f.outputs|
      ensures Within(f.outputs[k])
    {
      assert f.outputs[k] in OutputsOf(f) && GrownAt(f.outputs[k], start, done);
    }
    rotate := stream.WriteCallback(f.outputs, f.buffer, f.blocksize);
    forall b | b in all
      ensures GrownAt(b, start, done + [p])
    {
      assert old(GrownAt(b, start, done));
      OneMorePart(start[b].bytes, done, p, b);
      if b in f.outputs {
        var k :| 0 <= k < |f.outputs| && f.outputs[k] == b;
      } else {
        assert b.bytes == old(b.bytes) && b.bytes + [] == b.bytes;
      }
    }
  }

  /** The frames before the last one. */
  method WriteFirst(stream: FlacStream, frames: seq<Frame>, n: nat, ghost outputs: nat, ghost all: set<Chunk>,
                    ghost start: map<Chunk, Before>, ghost pieces: seq<Piece>, ghost sizes: seq<nat>)
    requires Depth(stream.origBps) && n < |frames| == |pieces| == |sizes|
    requires forall i: nat {:trigger Planned(frames, outputs, all, pieces, sizes, stream.origBps, i)} ::
      i < |frames| ==> Planned(frames, outputs, all, pieces, sizes, stream.origBps, i)
    requires Grown(all, start, []) && stream.currentSamplesWritten == 0
    modifies stream, all
    ensures Grown(all, start, pieces[..n]) && stream.currentSamplesWritten == Counted(sizes[..n], outputs)
  {
    var j := 0;
    assert pieces[..0] == [];
    while j < n
      invariant j <= n && Grown(all, start, pieces[..j])
      invariant stream.currentSamplesWritten == Counted(sizes[..j], outputs)
    {
      assert Planned(frames, outputs, all, pieces, sizes, stream.origBps, j);
      OneMoreFrame(sizes, j, outputs);
      Extended(pieces, j);
      var _ := WriteNext(stream, frames[j], outputs, all, start, pieces[..j]);
      j := j + 1;
    }
  }

  /** What the last frame's flags are. */
  ghost predicate LastFlags(rotate: seq<bool>, f: Frame, before: nat, outputs: nat, origBps: nat)
    requires Depth(origBps)
    reads OutputsOf(f)
  {
    |f.outputs| == |rotate| == outputs && forall k :: 0 <= k < outputs ==>
      rotate[k] == ((k == 0 && (outputs == 1 || before == 0)) || Full(f.outputs[k], |f.buffer|, origBps))
  }

  /** The last frame. */
  method WriteLast(stream: FlacStream, f: Frame, ghost outputs: nat, ghost all: set<Chunk>,
                   ghost start: map<Chunk, Before>, ghost done: seq<Piece>, ghost before: seq<nat>)
    returns (rotate: seq<bool>)
    requires Depth(stream.origBps) && FrameOk(f, outputs) && OutputsOf(f) <= all && Grown(all, start, done)
    requires 0 < f.blocksize && stream.currentSamplesWritten == Counted(before, outputs)
    requires stream.totalSamples == Counted(before, 1) + f.blocksize
    modifies stream, OutputsOf(f)
    ensures Grown(all, start, done + [PieceOf(f, stream.origBps)])
    ensures LastFlags(rotate, f, Counted(before, 1), outputs, stream.origBps)
  {
    rotate := WriteNext(stream, f, outputs, all, start, done);
    LastCounts(before, f.blocksize, outputs);
    forall k: nat | k < outputs
      ensures rotate[k] == ((k == 0 && (outputs == 1 || Counted(before, 1) == 0))
                            || Full(f.outputs[k], |f.buffer|, stream.origBps))
    {
      assert AtTotal(before, f.blocksize, outputs, k) <==> k == 0 && (outputs == 1 || Counted(before, 1) == 0);
    }
  }

  /** A stream of any number of frames for any number of outputs, each frame into the chunks
      that the outputs then have. Every chunk receives, in order, the packed frames that were
      written to it. During the last frame, output k is told that this is the last data exactly if
      its chunk is full, or if it is the first output and either the only one or the stream has no
      samples before this frame. */
  method WriteStream(stream: FlacStream, frames: seq<Frame>, ghost outputs: nat) returns (rotate: seq<bool>)
    requires Depth(stream.origBps) && frames != [] && (forall i :: 0 <= i < |frames| ==> FrameOk(frames[i], outputs))
    requires AllWithin(ChunksOf(frames)) && frames[|frames| - 1].blocksize > 0
    requires stream.currentSamplesWritten == 0 && stream.totalSamples == Counted(Sizes(frames), 1)
    modifies stream, ChunksOf(frames)
    ensures AllWithin(ChunksOf(frames)) && AllPlanar(frames)
    ensures forall b :: b in ChunksOf(frames) ==>
      b.bytes == old(b.bytes) + Received(Pieces(frames, stream.origBps), b) && old(b.capacity) <= b.capacity
    ensures LastFlags(rotate, frames[|frames| - 1], Counted(Sizes(frames)[..|frames| - 1], 1), outputs, stream.origBps)
  {
    ghost var sizes, all, pieces := Sizes(frames), ChunksOf(frames), Pieces(frames, stream.origBps);
    ghost var start := map b | b in all :: Before(b.bytes, b.capacity);
    var n := |frames| - 1;
    OutputsAllIn(frames);
    OneMoreFrame(sizes, n, 1);
    Extended(sizes, n);
    Extended(pieces, n);
    assert forall b :: b in all ==> b.bytes + [] == b.bytes;
    WriteFirst(stream, frames, n, outputs, all, start, pieces, sizes);
    rotate := WriteLast(stream, frames[n], outputs, all, start, pieces[..n], sizes[..n]);
    assert forall b :: b in all ==> GrownAt(b, start, pieces);
  }

  lemma OutputsAllIn(frames: seq<Frame>)
    ensures forall i :: 0 <= i < |frames| ==> OutputsOf(frames[i]) <= ChunksOf(frames)
  {
    forall i | 0 <= i < |frames|
      ensures OutputsOf(frames[i]) <= ChunksOf(frames)
    {
      OutputsIn(frames, i);
    }
  }

  // ----- an output that is not told -----

  /** No output has chunk b for any of the pieces. */
  predicate Unused(ps: seq<Piece>, b: Chunk) {
    forall i :: 0 <= i < |ps| ==> b !in ps[i].outputs
  }

  /** A chunk that no output has had has received nothing. */
  lemma {:induction false} NothingReceived(ps: seq<Piece>, b: Chunk)
    requires Unused(ps, b)
    ensures Received(ps, b) == []
  {
    if ps == [] {
    } else {
      NothingReceived(ps[..|ps| - 1], b);
    }
  }

  lemma FirstReceived(ps: seq<Piece>, b: Chunk)
    requires ps != [] && b in ps[|ps| - 1].outputs && Unused(ps[..|ps| - 1], b)
    ensures Received(ps, b) == ps[|ps| - 1].bytes
  {
    NothingReceived(ps[..|ps| - 1], b);
    assert [] + ps[|ps| - 1].bytes == ps[|ps| - 1].bytes;
  }

  /** One frame of one sample for two outputs whose chunks have room left: the first output is told
      that this is the last data, the second is not, though its chunk then holds the whole stream. */
  method SecondOutputNotTold() returns (rotate: seq<bool>, second: seq<byte>)
    ensures rotate == [true, false] && second == PackAll(8, [5])
  {
    var stream := new FlacStream(8, 1);
    var a := new Chunk(10);
    var b := new Chunk(10);
    var f := Frame([a, b], [[5]], 1);
    OneSampleFrame(f);
    rotate := WriteStream(stream, [f], 2);
    second := b.bytes;
  }

  lemma OneSampleFrame(f: Frame)
    requires |f.outputs| == 2 && f.buffer == [[5]] && f.blocksize == 1
    ensures Sizes([f]) == [1] && Counted([1], 1) == 1 && Counted([], 1) == 0
    ensures ChunksOf([f]) == {f.outputs[0], f.outputs[1]} && AllPlanar([f])
    ensures Received(Pieces([f], 8), f.outputs[1]) == PackAll(8, [5]) && |PackAll(8, [5])| == 1
  {
    assert [1][..0] == [] && [f][..0] == [];
    assert Interleaved([[5]], 1) == Interleaved([[5]], 0) + Column([[5]], 0) == [5];
    var ps := Pieces([f], 8);
    assert ps == [PieceOf(f, 8)] && ps[..0] == [] && f.outputs[1] in f.outputs;
    FirstReceived(ps, f.outputs[1]);
    assert Span(1, 1) == Span(0, 1) + 1;
  }
}
