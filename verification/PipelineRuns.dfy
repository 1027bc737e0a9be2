/** What holds in every run of the two threads over the chunk pool. */
module PipelineRuns {
  import opened Bytes
  import opened RingSteps
  import opened Pipeline

  /** The state after the constructor: every chunk is in the cache queue, empty. */
  function Constructed(n: nat, elemSize: nat): State {
    var ids := seq(n, i => i);
    State(
      Channel(Ring(seq(n + 1, i => if i < n then Live(i) else Raw), 0, n), WIdle, RIdle, ids),
      Channel(NewRing(n + 1), WIdle, RIdle, []),
      seq(n, _ => Chunk(0, [], elemSize, true)),
      0, 0, 0, PIdle, CIdle, [], 0)
  }

  ghost predicate Next(s: State, s': State) {
    exists e :: Enabled(s, e) && s' == Step(s, e)
  }

  ghost predicate Run(trace: seq<State>, n: nat, elemSize: nat) {
    && trace != [] && 1 <= n && trace[0] == Constructed(n, elemSize)
    && forall i {:trigger Next(trace[i], trace[i + 1])} :: 0 <= i < |trace| - 1 ==> Next(trace[i], trace[i + 1])
  }

  lemma ConstructedQueues(n: nat, elemSize: nat)
    requires 1 <= n
    ensures QueuesOk(Constructed(n, elemSize))
  {
    var s := Constructed(n, elemSize);
    NewRingIsEmpty<Id>(n + 1);
    assert forall j: nat :: j < n + 1 ==>
      s.cache.ring.slots[At(n + 1, 0, j)] == Expected<Id>(WIdle, RIdle, s.cache.fifo, j);
  }

  lemma ConstructedPool(n: nat, elemSize: nat)
    ensures var s := Constructed(n, elemSize);
      PoolOk(s) && ShapeOk(s) && LostEmpty(s) && StreamOrder(s) == s.cache.fifo
  {
    var s := Constructed(n, elemSize);
    assert Held(s) == s.cache.fifo && StreamOrder(s) == s.cache.fifo;
  }

  lemma ConstructedSums(n: nat, elemSize: nat)
    ensures var s := Constructed(n, elemSize); Contents(s.chunks, s.cache.fifo) == [] && Sum(Counts(s)) == 0
  {
    var s := Constructed(n, elemSize);
    ContentsEmpty(s.chunks, s.cache.fifo);
    assert Counts(s) == seq(n, _ => 0);
    SumZero(n);
  }

  lemma ConstructedInv(n: nat, elemSize: nat)
    requires 1 <= n
    ensures Inv(Constructed(n, elemSize))
  {
    ConstructedQueues(n, elemSize);
    ConstructedPool(n, elemSize);
    ConstructedSums(n, elemSize);
  }

  lemma NextKeeps(s: State, s': State)
    requires Inv(s) && Next(s, s')
    ensures Inv(s') && |s'.chunks| == |s.chunks|
  {
    var e :| Enabled(s, e) && s' == Step(s, e);
    StepKeepsInv(s, e);
    StepKeepsPool(s, e);
  }

  lemma StepKeepsPool(s: State, e: Event)
    requires Enabled(s, e)
    ensures |Step(s, e).chunks| == |s.chunks|
  {
  }

  lemma {:induction false} RunInv(trace: seq<State>, n: nat, elemSize: nat, k: nat)
    requires Run(trace, n, elemSize) && k < |trace|
    ensures Inv(trace[k]) && |trace[k].chunks| == n
  {
    if k == 0 {
      ConstructedInv(n, elemSize);
    } else {
      var m := k - 1;
      RunInv(trace, n, elemSize, m);
      assert Next(trace[m], trace[m + 1]);
      NextKeeps(trace[m], trace[m + 1]);
    }
  }

  // ----- the byte stream -----

  /** Sizes added over a list of chunks. */
  function SumOver(sizes: seq<nat>, ids: seq<Id>): nat {
    if ids == [] then 0 else (if ids[0] < |sizes| then sizes[ids[0]] else 0) + SumOver(sizes, ids[1..])
  }

  /** What the buffer holds, chunk by chunk: the data queue, the chunk that the producer is handing
      over, the partly filled chunk at the front of the cache queue. */
  function Buffered(s: State): seq<byte> {
    Contents(s.chunks, s.data.fifo) + Contents(s.chunks, ProdFlight(s))
    + (if s.cache.fifo == [] then [] else BytesOf(s.chunks, s.cache.fifo[0]))
  }

  lemma BufferedIsPipe(s: State)
    requires Inv(s)
    ensures Buffered(s) == s.pipe
  {
    ContentsAppend(s.chunks, s.data.fifo + ProdFlight(s), s.cache.fifo);
    ContentsAppend(s.chunks, s.data.fifo, ProdFlight(s));
    if s.cache.fifo != [] {
      ContentsEmpty(s.chunks, s.cache.fifo[1..]);
      assert BytesOf(s.chunks, s.cache.fifo[0]) + [] == BytesOf(s.chunks, s.cache.fifo[0]);
    }
  }

  /** The bytes in flight are one stream, whatever the interleaving: what the chunks hold is
      exactly the bytes that the clients put in and did not take out, in order. All other free
      chunks, and the chunk the consumer gives back, are empty; every chunk waiting in the data
      queue holds bytes. */
  lemma StreamIsKept(trace: seq<State>, n: nat, elemSize: nat, k: nat)
    requires Run(trace, n, elemSize) && k < |trace|
    ensures var s := trace[k];
      && s.pipe == Buffered(s)
      && (forall j :: 1 <= j < |s.cache.fifo| ==> BytesOf(s.chunks, s.cache.fifo[j]) == [])
      && (forall j :: 1 <= j < |s.data.fifo| ==> BytesOf(s.chunks, s.data.fifo[j]) != [])
      && (s.cons.CIdle? && s.data.fifo != [] ==> BytesOf(s.chunks, s.data.fifo[0]) != [])
      && (forall id :: id in ConsFlight(s) ==> BytesOf(s.chunks, id) == [])
  {
    RunInv(trace, n, elemSize, k);
    BufferedIsPipe(trace[k]);
  }

  // ----- ownership and the unchecked writes -----

  /** The chunks each thread may read or write at its program counter; with a front pointer just
      obtained, the chunk whose size is read through it. */
  function ProdTouches(s: State): seq<Id> {
    if s.prod.PHold? || s.prod.PPut? || s.prod.PAccount? then [s.prod.id]
    else if s.prod.PAskFront? && HasFront(s.cache) then [FrontId(s.cache)]
    else ProdFlight(s)
  }

  function ConsTouches(s: State): seq<Id> {
    if s.cons.CHold? || s.cons.CPut? || s.cons.CAccount? then [s.cons.id]
    else if s.cons.CAskFront? && HasFront(s.data) then [FrontId(s.data)]
    else ConsFlight(s)
  }

  lemma ProdTouchesHeld(s: State, id: Id)
    requires Inv(s) && id in ProdTouches(s)
    ensures exists i :: |s.data.fifo| <= i < |StreamOrder(s)| && Held(s)[i] == id
  {
    var a, b := |s.data.fifo|, |s.data.fifo + ProdFlight(s)|;
    if HasFront(s.cache) { FrontIsOldest(s.cache); }
    assert Held(s)[if ProdFlight(s) != [] then a else b] == id;
  }

  lemma ConsTouchesHeld(s: State, id: Id)
    requires Inv(s) && id in ConsTouches(s)
    ensures exists i :: 0 <= i < |Held(s)| && !(|s.data.fifo| <= i < |StreamOrder(s)|) && Held(s)[i] == id
  {
    if HasFront(s.data) { FrontIsOldest(s.data); }
    assert Held(s)[if ConsFlight(s) != [] then |StreamOrder(s)| else 0] == id;
  }

  /** No chunk is ever in the reach of both threads. */
  lemma NoSharedChunk(trace: seq<State>, n: nat, elemSize: nat, k: nat)
    requires Run(trace, n, elemSize) && k < |trace|
    ensures forall id :: !(id in ProdTouches(trace[k]) && id in ConsTouches(trace[k]))
  {
    RunInv(trace, n, elemSize, k);
    forall id | id in ProdTouches(trace[k]) && id in ConsTouches(trace[k])
      ensures false
    {
      ProdTouchesHeld(trace[k], id);
      ConsTouchesHeld(trace[k], id);
    }
  }

  /** Both rotations ignore the result of `write`; it is always true, because the chunks in the
      two queues and in both threads' hands never exceed the pool. The pool shrinks by one
      exactly when rotate_cache meets an empty chunk. */
  lemma RotationsAlwaysFit(trace: seq<State>, n: nat, elemSize: nat, k: nat)
    requires Run(trace, n, elemSize) && k < |trace|
    ensures var s := trace[k];
      && (s.prod.PGive? ==> s.data.w != WDone(false))
      && (s.cons.CGive? ==> s.cache.w != WDone(false))
      && NoDup(Held(s))
      && |s.cache.fifo| + |s.data.fifo| + |ProdFlight(s)| + |ConsFlight(s)| + s.dropped == n
  {
    RunInv(trace, n, elemSize, k);
  }

  // ----- the shared counter -----

  /** Setting one size to zero takes it out of the sum over the other chunks only. */
  lemma {:induction false} SumOverZeroed(sizes: seq<nat>, ids: seq<Id>, id: Id)
    requires id < |sizes| && id !in ids
    ensures SumOver(sizes[id := 0], ids) == SumOver(sizes, ids)
  {
    if ids == [] {
    } else {
      SumOverZeroed(sizes, ids[1..], id);
    }
  }

  /** The sum over distinct chunks is at most the sum over all, and equal to it when every
      chunk left out has size zero. */
  lemma {:induction false} SumOverDistinct(sizes: seq<nat>, ids: seq<Id>)
    requires NoDup(ids) && forall x :: x in ids ==> x < |sizes|
    ensures SumOver(sizes, ids) <= Sum(sizes)
    ensures (forall x :: 0 <= x < |sizes| && x !in ids ==> sizes[x] == 0) ==> SumOver(sizes, ids) == Sum(sizes)
    decreases |ids|
  {
    if ids == [] {
      if forall x :: 0 <= x < |sizes| ==> sizes[x] == 0 {
        assert sizes == seq(|sizes|, _ => 0);
        SumZero(|sizes|);
      }
    } else {
      var id, rest := ids[0], ids[1..];
      assert id in ids && ids == [id] + rest;
      assert id !in rest;
      SumUpdate(sizes, id, 0);
      SumOverZeroed(sizes, rest, id);
      assert forall x :: x in rest ==> x in ids;
      SumOverDistinct(sizes[id := 0], rest);
    }
  }

  lemma {:induction false} SumOverIsLength(chunks: seq<Chunk>, sizes: seq<nat>, ids: seq<Id>)
    requires |sizes| == |chunks| && forall id :: id in ids ==> id < |chunks| && |chunks[id].bytes| <= sizes[id]
    ensures |Contents(chunks, ids)| <= SumOver(sizes, ids)
    ensures (forall id :: id in ids ==> |chunks[id].bytes| == sizes[id]) ==>
      |Contents(chunks, ids)| == SumOver(sizes, ids)
  {
    if ids == [] {
    } else {
      assert ids[0] in ids && forall id :: id in ids[1..] ==> id in ids;
      SumOverIsLength(chunks, sizes, ids[1..]);
    }
  }

  predicate ProdEditing(s: State) { s.prod.PHold? || s.prod.PPut? || s.prod.PAccount? }

  predicate ConsEditing(s: State) { s.cons.CHold? || s.cons.CPut? || s.cons.CAccount? }

  function Sizes(chunks: seq<Chunk>): seq<nat> {
    seq(|chunks|, i requires 0 <= i < |chunks| => |chunks[i].bytes|)
  }

  /** All bytes of the pool are in the stream. */
  lemma PoolIsPipe(s: State)
    requires Inv(s)
    ensures Sum(Sizes(s.chunks)) == |s.pipe|
  {
    SumOverDistinct(Sizes(s.chunks), Held(s));
    SumOverIsLength(s.chunks, Sizes(s.chunks), Held(s));
    ContentsAppend(s.chunks, StreamOrder(s), ConsFlight(s));
    ContentsEmpty(s.chunks, ConsFlight(s));
    forall x | 0 <= x < |s.chunks| && x !in Held(s)
      ensures Sizes(s.chunks)[x] == 0
    {
      assert BytesOf(s.chunks, x) == [];
    }
  }

  /** The counter is the length of the stream, corrected by what the two edits under way have
      not yet reported. */
  lemma CounterIsStreamLength(trace: seq<State>, n: nat, elemSize: nat, k: nat)
    requires Run(trace, n, elemSize) && k < |trace|
    ensures var s := trace[k];
      s.total == |s.pipe|
        - (if ProdEditing(s) then |BytesOf(s.chunks, s.prod.id)| - s.cacheLast else 0)
        - (if ConsEditing(s) then |BytesOf(s.chunks, s.cons.id)| - s.dataLast else 0)
  {
    RunInv(trace, n, elemSize, k);
    var s := trace[k];
    PoolIsPipe(s);
    FrontIsHeld(s);
    FrontsDiffer(s);
    SumOfCounts(s);
  }

  /** The sum of the known sizes differs from that of the sizes at the chunks being edited. */
  lemma SumOfCounts(s: State)
    requires ProdEditing(s) ==> s.prod.id < |s.chunks|
    requires ConsEditing(s) ==> s.cons.id < |s.chunks|
    requires ProdEditing(s) && ConsEditing(s) ==> s.prod.id != s.cons.id
    ensures Sum(Counts(s)) == Sum(Sizes(s.chunks))
      - (if ProdEditing(s) then |BytesOf(s.chunks, s.prod.id)| - s.cacheLast else 0)
      - (if ConsEditing(s) then |BytesOf(s.chunks, s.cons.id)| - s.dataLast else 0)
  {
    var sizes := Sizes(s.chunks);
    var mid := if ProdEditing(s) then sizes[s.prod.id := s.cacheLast] else sizes;
    if ProdEditing(s) { SumUpdate(sizes, s.prod.id, s.cacheLast); }
    if ConsEditing(s) {
      SumUpdate(mid, s.cons.id, s.dataLast);
      assert Counts(s) == mid[s.cons.id := s.dataLast];
    } else {
      assert Counts(s) == mid;
    }
  }

  lemma FrontIsHeld(s: State)
    requires Inv(s)
    ensures ProdEditing(s) ==> s.prod.id < |s.chunks|
    ensures ConsEditing(s) ==> s.cons.id < |s.chunks|
  {
    if ProdEditing(s) { assert Held(s)[|s.data.fifo + ProdFlight(s)|] == s.prod.id && s.prod.id in Held(s); }
    if ConsEditing(s) { assert Held(s)[0] == s.cons.id && s.cons.id in Held(s); }
  }

  /** With no edit under way the counter is exactly the number of bytes in the pool. In every
      state it is non-negative, and no smaller than the bytes in the data queue except while
      the consumer has put bytes back and not yet reported them. */
  lemma CounterBounds(trace: seq<State>, n: nat, elemSize: nat, k: nat)
    requires Run(trace, n, elemSize) && k < |trace|
    ensures var s := trace[k];
      && 0 <= s.total
      && (!ProdEditing(s) && !ConsEditing(s) ==> s.total == |s.pipe|)
      && ((ConsEditing(s) ==> |BytesOf(s.chunks, s.cons.id)| <= s.dataLast) ==>
            |Contents(s.chunks, s.data.fifo)| <= s.total)
  {
    CounterIsStreamLength(trace, n, elemSize, k);
    RunInv(trace, n, elemSize, k);
    var s := trace[k];
    if ConsEditing(s) ==> |BytesOf(s.chunks, s.cons.id)| <= s.dataLast {
      DataIsCounted(s);
    }
  }

  /** The bytes behind the data queue that the counter knows of. */
  function KnownBehind(s: State): int {
    |Contents(s.chunks, ProdFlight(s))|
    + (if s.cache.fifo == [] then 0 else |BytesOf(s.chunks, s.cache.fifo[0])|)
    - (if ProdEditing(s) then |BytesOf(s.chunks, s.prod.id)| - s.cacheLast else 0)
  }

  /** `CounterIsStreamLength`, solved for the data queue: the counter covers it exactly when the
      consumer has not put back more than the counter knows to lie behind it. */
  lemma CounterCoversDataIff(trace: seq<State>, n: nat, elemSize: nat, k: nat)
    requires Run(trace, n, elemSize) && k < |trace|
    ensures var s := trace[k];
      |Contents(s.chunks, s.data.fifo)| <= s.total <==>
        (if ConsEditing(s) then |BytesOf(s.chunks, s.cons.id)| - s.dataLast else 0) <= KnownBehind(s)
  {
    StreamIsKept(trace, n, elemSize, k);
    CounterIsStreamLength(trace, n, elemSize, k);
  }

  lemma DataIsCounted(s: State)
    requires Inv(s)
    requires ConsEditing(s) ==> |BytesOf(s.chunks, s.cons.id)| <= s.dataLast
    ensures |Contents(s.chunks, s.data.fifo)| <= Sum(Counts(s))
  {
    var ids := s.data.fifo;
    forall i | 0 <= i < |ids|
      ensures ids[i] < |s.chunks| && |s.chunks[ids[i]].bytes| <= Counts(s)[ids[i]]
    {
      assert Held(s)[i] == ids[i] && ids[i] in Held(s);
      if ProdEditing(s) {
        assert Held(s)[|s.data.fifo + ProdFlight(s)|] == s.prod.id;
      }
    }
    assert forall i, j :: 0 <= i < j < |ids| ==> Held(s)[i] == ids[i] && Held(s)[j] == ids[j];
    SumOverIsLength(s.chunks, Counts(s), ids);
    SumOverDistinct(Counts(s), ids);
  }

  /** No event in the run asks for more capacity than a chunk was created with. */
  ghost predicate NeverGrows(trace: seq<State>, elemSize: nat) {
    forall k :: 0 <= k < |trace| ==> CapsAre(trace[k], elemSize)
  }

  predicate CapsAre(s: State, elemSize: nat) {
    forall id :: 0 <= id < |s.chunks| ==> s.chunks[id].cap == elemSize
  }

  /** What the two size registers hold is a size that fitted. */
  predicate LastFits(s: State, elemSize: nat) {
    && (ProdEditing(s) ==> s.cacheLast <= elemSize)
    && (ConsEditing(s) ==> s.dataLast <= elemSize)
  }

  lemma StepKeepsLast(s: State, e: Event, elemSize: nat)
    requires Enabled(s, e) && Fits(s.chunks) && CapsAre(s, elemSize) && LastFits(s, elemSize)
    ensures LastFits(Step(s, e), elemSize)
  {
  }

  lemma {:induction false} RunLast(trace: seq<State>, n: nat, elemSize: nat, k: nat)
    requires Run(trace, n, elemSize) && k < |trace| && NeverGrows(trace, elemSize)
    ensures LastFits(trace[k], elemSize)
  {
    if k == 0 {
    } else {
      var m := k - 1;
      RunLast(trace, n, elemSize, m);
      RunInv(trace, n, elemSize, m);
      assert Next(trace[m], trace[m + 1]) && CapsAre(trace[m], elemSize);
      var e :| Enabled(trace[m], e) && trace[m + 1] == Step(trace[m], e);
      StepKeepsLast(trace[m], e, elemSize);
    }
  }

  lemma CountsFit(s: State, elemSize: nat)
    requires Fits(s.chunks) && CapsAre(s, elemSize) && LastFits(s, elemSize)
    ensures Sum(Counts(s)) <= |s.chunks| * elemSize
  {
    SumBound(Counts(s), elemSize);
  }

  /** Without capacity growth the counter stays below the configured buffer size plus one
      chunk, so `available_bytes` never falls to minus a chunk. */
  lemma CounterCapacity(trace: seq<State>, bufferSize: nat, elemSize: nat, k: nat)
    requires elemSize > 0 && bufferSize > 0
    requires Run(trace, PoolSize(bufferSize, elemSize), elemSize) && k < |trace| && NeverGrows(trace, elemSize)
    ensures 0 <= trace[k].total < bufferSize + elemSize
  {
    RunInv(trace, PoolSize(bufferSize, elemSize), elemSize, k);
    RunLast(trace, PoolSize(bufferSize, elemSize), elemSize, k);
    CountsFit(trace[k], elemSize);
    PoolFits(bufferSize, elemSize);
  }
}
