/** The far branch of update_dec_detail_seek: after the input thread has been asked to seek, the
    decoder clears chunk after chunk until it meets one that is tagged with the target. */
module FarSeek {
  import opened Bytes
  import opened RingSteps
  import opened CacheBuffers

  /** What the loop sees of a chunk. */
  datatype Seen = Seen(first: int, bytes: seq<byte>)

  /** The chunks from the first one with this tag on. */
  function SkipTo(q: seq<Seen>, to: int): seq<Seen> {
    if q == [] || q[0].first == to then q else SkipTo(q[1..], to)
  }

  /** What is left begins with a chunk that has the tag, and none of those passed over has it. */
  lemma {:induction false} SkipToIs(q: seq<Seen>, to: int)
    ensures var r := SkipTo(q, to);
      && |r| <= |q| && r == q[|q| - |r|..] && (r != [] ==> r[0].first == to)
      && forall i :: 0 <= i < |q| - |r| ==> q[i].first != to
  {
    if q == [] || q[0].first == to {
    } else {
      SkipToIs(q[1..], to);
    }
  }

  function Ahead(q: seq<Seen>): seq<byte> {
    if q == [] then [] else q[0].bytes + Ahead(q[1..])
  }

  // ----- the data queue at a far seek -----

  /** Whole chunks of these sizes, filled from the file at `from` on. */
  function Filled(file: seq<byte>, from: nat, sizes: seq<nat>): (q: seq<Seen>)
    requires from + Sum(sizes) <= |file|
    ensures |q| == |sizes|
    decreases |sizes|
  {
    if sizes == [] then []
    else [Seen(from, file[from..from + sizes[0]])] + Filled(file, from + sizes[0], sizes[1..])
  }

  /** The front chunk was tagged p and has lost k bytes since, which also lowers its tag; it ends
      at e. Behind it are whole chunks, in three parts. `ready` had bytes when the decoder looked at
      the counter; into the last of these `grown` more have come since. `late` are those that the
      reader has filled after that and before it went to the target, and `since` those after. */
  datatype Queue = Queue(p: nat, k: nat, e: nat, ready: seq<nat>, grown: nat, late: seq<nat>, to: nat, since: seq<nat>)

  predicate Filling(sizes: seq<nat>) {
    forall i :: 0 <= i < |sizes| ==> 0 < sizes[i]
  }

  predicate Possible(q: Queue, length: nat) {
    && q.p + q.k < q.e && q.e + Sum(q.ready) + Sum(q.late) <= length && q.to + Sum(q.since) <= length
    && Filling(q.ready) && Filling(q.late) && Filling(q.since)
    && (if q.ready == [] then q.grown == 0 else q.grown < q.ready[|q.ready| - 1])
  }

  /** The guard of the far branch: the position is p + k, and the target lies before it or behind
      all that is buffered. */
  predicate IsFar(q: Queue) {
    q.to < q.p + q.k || q.e + Sum(q.ready) - q.grown < q.to
  }

  function Late(q: Queue): nat { q.e + Sum(q.ready) }

  function Chunks(q: Queue, file: seq<byte>): seq<Seen>
    requires Possible(q, |file|)
  {
    [Seen(q.p - q.k, file[q.p + q.k..q.e])] + (Filled(file, q.e, q.ready)
      + (Filled(file, Late(q), q.late) + Filled(file, q.to, q.since)))
  }

  /** A tag lowered by consumed bytes is the target. */
  predicate LoweredTo(q: Queue) {
    0 < q.k && q.to == q.p - q.k
  }

  /** One of the chunks filled from `from` on is tagged with the target. */
  predicate StartsAt(from: nat, sizes: seq<nat>, to: nat)
    decreases |sizes|
  {
    sizes != [] && (from == to || StartsAt(from + sizes[0], sizes[1..], to))
  }

  /** What the decoder then has in front of it is the file from the target on. */
  predicate Lands(q: Queue, file: seq<byte>)
    requires Possible(q, |file|)
  {
    Ahead(SkipTo(Chunks(q, file), q.to)) <= file[q.to..]
  }

  ghost predicate LandsInEveryFile(q: Queue, length: nat)
    requires Possible(q, length)
  {
    forall file: seq<byte> :: |file| == length ==> Lands(q, file)
  }

  lemma {:induction false} AheadOfFilled(file: seq<byte>, from: nat, sizes: seq<nat>)
    requires from + Sum(sizes) <= |file|
    ensures Ahead(Filled(file, from, sizes)) == file[from..from + Sum(sizes)]
    decreases |sizes|
  {
    if sizes == [] {
    } else {
      var q, mid := Filled(file, from, sizes), from + sizes[0];
      AheadOfFilled(file, mid, sizes[1..]);
      assert q[1..] == Filled(file, mid, sizes[1..]);
      assert file[from..mid] + file[mid..from + Sum(sizes)] == file[from..from + Sum(sizes)];
    }
  }

  lemma {:induction false} AheadAppend(a: seq<Seen>, b: seq<Seen>)
    ensures Ahead(a + b) == Ahead(a) + Ahead(b)
  {
    if a == [] {
      assert a + b == b;
    } else {
      AheadAppend(a[1..], b);
      assert (a + b)[1..] == a[1..] + b;
      Assoc(a[0].bytes, Ahead(a[1..]), Ahead(b));
    }
  }

  predicate NoneTagged(q: seq<Seen>, to: int) {
    forall i :: 0 <= i < |q| ==> q[i].first != to
  }

  /** Chunks whose tags are not the target are all passed over. */
  lemma {:induction false} PassesOver(q: seq<Seen>, rest: seq<Seen>, to: int)
    requires NoneTagged(q, to)
    ensures SkipTo(q + rest, to) == SkipTo(rest, to)
  {
    if q == [] {
      assert q + rest == rest;
    } else {
      PassesOver(q[1..], rest, to);
      assert (q + rest)[1..] == q[1..] + rest;
    }
  }

  /** Each chunk is tagged with the offset at which it starts. */
  lemma {:induction false} FilledTags(file: seq<byte>, from: nat, sizes: seq<nat>, to: nat)
    requires from + Sum(sizes) <= |file|
    ensures NoneTagged(Filled(file, from, sizes), to) <==> !StartsAt(from, sizes, to)
    decreases |sizes|
  {
    if sizes == [] {
    } else {
      var q, tail := Filled(file, from, sizes), Filled(file, from + sizes[0], sizes[1..]);
      FilledTags(file, from + sizes[0], sizes[1..], to);
      assert q == [q[0]] + tail;
      assert NoneTagged(q, to) <==> q[0].first != to && NoneTagged(tail, to) by { HeadAndTail(q[0], tail, to); }
    }
  }

  lemma HeadAndTail(head: Seen, tail: seq<Seen>, to: int)
    ensures NoneTagged([head] + tail, to) <==> head.first != to && NoneTagged(tail, to)
  {
    var q := [head] + tail;
    assert q[0] == head;
    assert forall i :: 0 <= i < |tail| ==> q[i + 1] == tail[i];
  }

  /** No chunk that had bytes when the guard was evaluated starts at a far target. */
  lemma {:induction false} ReadyStarts(from: nat, sizes: seq<nat>, grown: nat, to: nat)
    requires Filling(sizes) && (if sizes == [] then grown == 0 else grown < sizes[|sizes| - 1])
    requires to < from || from + Sum(sizes) - grown < to
    ensures sizes != [] ==> grown < Sum(sizes)
    ensures !StartsAt(from, sizes, to)
    decreases |sizes|
  {
    if sizes == [] {
    } else if |sizes| == 1 {
      assert sizes[1..] == [] && Sum(sizes) == sizes[0] + Sum(sizes[1..]);
    } else {
      ReadyStarts(from + sizes[0], sizes[1..], grown, to);
    }
  }

  /** The loop passes over all that was there when the guard was evaluated. */
  lemma PassesReady(q: Queue, file: seq<byte>)
    requires Possible(q, |file|) && IsFar(q) && !LoweredTo(q)
    ensures SkipTo(Chunks(q, file), q.to) == SkipTo(Filled(file, Late(q), q.late) + Filled(file, q.to, q.since), q.to)
  {
    var rest := Filled(file, Late(q), q.late) + Filled(file, q.to, q.since);
    ReadyStarts(q.e, q.ready, q.grown, q.to);
    FilledTags(file, q.e, q.ready, q.to);
    PassesOver(Filled(file, q.e, q.ready), rest, q.to);
    assert Chunks(q, file)[1..] == Filled(file, q.e, q.ready) + rest;
  }

  /** Unless a lowered tag or a late chunk has the target, the loop stops in front of exactly the
      chunks filled since the file seek. */
  lemma StopsAtNew(q: Queue, file: seq<byte>)
    requires Possible(q, |file|) && IsFar(q) && !LoweredTo(q) && !StartsAt(Late(q), q.late, q.to)
    ensures SkipTo(Chunks(q, file), q.to) == Filled(file, q.to, q.since)
  {
    PassesReady(q, file);
    FilledTags(file, Late(q), q.late, q.to);
    PassesOver(Filled(file, Late(q), q.late), Filled(file, q.to, q.since), q.to);
  }

  /** A lowered tag that happens to be the target stops it at once. */
  lemma StopsAtOnce(q: Queue, length: nat)
    requires Possible(q, length) && LoweredTo(q)
    ensures !LandsInEveryFile(q, length)
  {
    var file: seq<byte> := seq(length, i => if i == q.p + q.k then 1 else 0);
    var chunks := Chunks(q, file);
    assert SkipTo(chunks, q.to) == chunks && chunks[0].bytes == file[q.p + q.k..q.e];
    assert Ahead(chunks)[0] == 1 && file[q.to..][0] == 0;
    assert !Lands(q, file);
  }

  /** Among chunks filled one after the other, the one that starts at the target is followed by the
      rest of them. */
  lemma {:induction false} StopsInside(file: seq<byte>, from: nat, sizes: seq<nat>, rest: seq<Seen>, to: nat)
    requires from + Sum(sizes) <= |file| && Filling(sizes) && StartsAt(from, sizes, to)
    ensures to < from + Sum(sizes)
    ensures Ahead(SkipTo(Filled(file, from, sizes) + rest, to)) == file[to..from + Sum(sizes)] + Ahead(rest)
    decreases |sizes|
  {
    var q := Filled(file, from, sizes);
    if from == to {
      AheadAppend(q, rest);
      AheadOfFilled(file, from, sizes);
    } else {
      var tail := Filled(file, from + sizes[0], sizes[1..]);
      StopsInside(file, from + sizes[0], sizes[1..], rest, to);
      assert (q + rest)[1..] == tail + rest;
    }
  }

  /** In front of a late chunk that starts at the target the decoder has the file up to where the
      reader was, and then, what it has filled since. */
  lemma StopsAtLate(q: Queue, file: seq<byte>)
    requires Possible(q, |file|) && IsFar(q) && !LoweredTo(q) && StartsAt(Late(q), q.late, q.to)
    ensures var end := Late(q) + Sum(q.late);
      q.to < end && Ahead(SkipTo(Chunks(q, file), q.to)) == file[q.to..end] + file[q.to..q.to + Sum(q.since)]
  {
    PassesReady(q, file);
    StopsInside(file, Late(q), q.late, Filled(file, q.to, q.since), q.to);
    AheadOfFilled(file, q.to, q.since);
  }

  /** The file from the target on, but its beginning twice. */
  lemma TwiceIsWrong(length: nat, to: nat, end: nat, more: nat)
    requires to < end <= length && 0 < more && to + more <= length
    ensures var file: seq<byte> := seq(length, i => if i == to then 1 else 0);
      !(file[to..end] + file[to..to + more] <= file[to..])
  {
    var file: seq<byte> := seq(length, i => if i == to then 1 else 0);
    var twice := file[to..end] + file[to..to + more];
    assert twice[end - to] == 1;
    if end < length { assert file[to..][end - to] == 0; }
  }

  lemma LateIsTwice(q: Queue, length: nat)
    requires Possible(q, length) && IsFar(q) && !LoweredTo(q) && StartsAt(Late(q), q.late, q.to) && q.since != []
    ensures !LandsInEveryFile(q, length)
  {
    var file: seq<byte> := seq(length, i => if i == q.to then 1 else 0);
    StopsAtLate(q, file);
    TwiceIsWrong(length, q.to, Late(q) + Sum(q.late), Sum(q.since));
    assert !Lands(q, file);
  }

  lemma OthersLand(q: Queue, file: seq<byte>)
    requires Possible(q, |file|) && IsFar(q) && !LoweredTo(q)
    requires q.since == [] || !StartsAt(Late(q), q.late, q.to)
    ensures Lands(q, file)
  {
    if StartsAt(Late(q), q.late, q.to) {
      StopsAtLate(q, file);
      assert file[q.to..q.to] == [];
      PartOfRest(file, q.to, Late(q) + Sum(q.late));
    } else {
      StopsAtNew(q, file);
      AheadOfFilled(file, q.to, q.since);
      PartOfRest(file, q.to, q.to + Sum(q.since));
    }
  }

  lemma PartOfRest(file: seq<byte>, a: nat, b: nat)
    requires a <= b <= |file|
    ensures file[a..b] <= file[a..]
  {
  }

  /** A far seek stands in front of the file from its target, whatever the file, exactly if the tag
      of a partly consumed front chunk, which is the offset it was tagged with less the bytes
      consumed since, is not the target, and the reader, before it went there, has not begun a chunk
      at the target, or has filled nothing since. */
  lemma FarSeekRightIff(q: Queue, length: nat)
    requires Possible(q, length) && IsFar(q)
    ensures LandsInEveryFile(q, length)
      <==> !LoweredTo(q) && (q.since == [] || !StartsAt(Late(q), q.late, q.to))
  {
    if LoweredTo(q) {
      StopsAtOnce(q, length);
    } else if q.since != [] && StartsAt(Late(q), q.late, q.to) {
      LateIsTwice(q, length);
    } else {
      forall file: seq<byte> | |file| == length
        ensures Lands(q, file)
      {
        OthersLand(q, file);
      }
    }
  }

  /** An input for the first: a chunk tagged 20 of which five bytes have been read. A seek from 25 to
      15 stops at that chunk at once and reports position 15, where byte 25 comes next. */
  lemma FarSeekGoesWrong()
    ensures var q := Queue(20, 5, 30, [], 0, [], 15, [10]);
      var file: seq<byte> := seq(40, i requires 0 <= i < 40 => i as byte);
      Possible(q, 40) && IsFar(q) && Ahead(SkipTo(Chunks(q, file), 15))[..1] == [25] && file[15] == 15
  {
    var q := Queue(20, 5, 30, [], 0, [], 15, [10]);
    var file: seq<byte> := seq(40, i requires 0 <= i < 40 => i as byte);
    assert Sum([10]) == 10 + Sum([]) && Sum([]) == 0;
    var chunks := Chunks(q, file);
    assert chunks[0] == Seen(15, file[25..30]);
    assert Ahead(chunks)[0] == file[25..30][0] == 25;
  }

  /** An input for the second: ten bytes are ready at position 0, and a seek to 20 is asked for. Before
      the reader gets to it, it fills [10, 20) and [20, 30), and after it [20, 30) again: those bytes
      come twice. */
  lemma LateChunkGoesWrong()
    ensures var q := Queue(0, 0, 10, [], 0, [10, 10], 20, [10]);
      var file: seq<byte> := seq(40, i requires 0 <= i < 40 => i as byte);
      Possible(q, 40) && IsFar(q) && Ahead(SkipTo(Chunks(q, file), 20)) == file[20..30] + file[20..30]
  {
    var q := Queue(0, 0, 10, [], 0, [10, 10], 20, [10]);
    var file: seq<byte> := seq(40, i requires 0 <= i < 40 => i as byte);
    assert Sum([]) == 0 && Sum([10]) == 10 + Sum([]) && [10, 10][1..] == [10] && Sum([10, 10]) == 10 + Sum([10]);
    assert StartsAt(20, [10], 20) && StartsAt(10, [10, 10], 20);
    StopsAtLate(q, file);
  }

  // ----- the loop -----

  ghost function Tags(cs: seq<Chunk>): (q: seq<Seen>)
    reads set c | c in cs
    ensures |q| == |cs| && forall i :: 0 <= i < |cs| ==> q[i] == Seen(cs[i].first, cs[i].bytes)
  {
    seq(|cs|, i requires 0 <= i < |cs| reads set c | c in cs => Seen(cs[i].first, cs[i].bytes))
  }

  /** Where the loop would end in this buffer. */
  ghost function Rest(buf: CacheBuffer, to: int): seq<Seen>
    reads buf, buf.dataBuffer, set c | c in buf.dataBuffer.Contents
  {
    SkipTo(Tags(buf.dataBuffer.Contents), to)
  }

  /** The front chunk is cleared and given back. */
  method DropFirst(buf: CacheBuffer, front: Chunk, ghost tags: seq<Seen>)
    requires buf.Settled() && buf.dataBuffer.Contents != [] && front == buf.dataBuffer.Contents[0]
    requires buf.dataLastSize == |front.bytes| && tags == Tags(buf.dataBuffer.Contents)
    modifies buf`totalBytesInBuffer, buf.Queues(), front
    ensures buf.Settled() && buf.DataChunks() <= old(buf.DataChunks()) && buf.Partial() == old(buf.Partial())
    ensures Tags(buf.dataBuffer.Contents) == tags[1..]
  {
    ReturnShared(buf.dataBuffer.Contents, buf.cacheBuffer.Contents, buf.bufferSizeCount);
    buf.ClearRound(front);
  }

  /** One round: a front chunk with another tag is dropped. */
  method DropFront(buf: CacheBuffer, front: Chunk, to: int)
    requires buf.Settled() && buf.dataBuffer.Contents != [] && front == buf.dataBuffer.Contents[0]
    requires buf.dataLastSize == |front.bytes| && front.first != to
    modifies buf`totalBytesInBuffer, buf.Queues(), front
    ensures buf.Settled() && buf.DataChunks() <= old(buf.DataChunks()) && buf.Partial() == old(buf.Partial())
    ensures |buf.dataBuffer.Contents| == old(|buf.dataBuffer.Contents|) - 1 && Rest(buf, to) == old(Rest(buf, to))
  {
    DropFirst(buf, front, Tags(buf.dataBuffer.Contents));
  }

  /** A round of the outer loop. */
  method NextFront(buf: CacheBuffer, front: Chunk, to: int) returns (ptr: Slot<Chunk>)
    requires buf.AtFront(Live(front)) && front.first != to
    modifies buf`totalBytesInBuffer, buf`dataLastSize, buf.Queues(), front
    ensures buf.AtFront(ptr) && buf.DataChunks() <= old(buf.DataChunks()) && buf.Partial() == old(buf.Partial())
    ensures |buf.dataBuffer.Contents| < old(|buf.dataBuffer.Contents|) && Rest(buf, to) == old(Rest(buf, to))
  {
    DropFront(buf, front, to);
    ptr := buf.AskFront();
  }

  /** The inner and the outer loop, with nothing else running: it ends at the first chunk with the tag,
      which stays where it is with all that is behind it, or it waits on an empty queue. */
  method SkipToTag(buf: CacheBuffer, to: int) returns (found: bool)
    requires buf.Settled()
    modifies buf`totalBytesInBuffer, buf`dataLastSize, buf.Queues(), buf.DataChunks()
    ensures buf.Settled() && buf.Partial() == old(buf.Partial())
    ensures Tags(buf.dataBuffer.Contents) == old(Rest(buf, to))
    ensures found <==> buf.dataBuffer.Contents != []
  {
    ghost var partial, rest := buf.Partial(), Rest(buf, to);
    var ptr := buf.AskFront();
    while ptr.Live? && ptr.value.first != to
      invariant buf.AtFront(ptr) && buf.DataChunks() <= old(buf.DataChunks())
      invariant buf.Partial() == partial && Rest(buf, to) == rest
      decreases |buf.dataBuffer.Contents|
    {
      ptr := NextFront(buf, ptr.value, to);
    }
    found := ptr.Live?;
  }
}
