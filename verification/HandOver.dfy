/** What a whole get and a whole put of the step system do: a get that finds a chunk comes back
    with it, a put hands over a full or finished chunk and leaves any other in place, and every
    call ends after a bounded number of its own thread's steps. */
module HandOver {
  import opened RingSteps
  import opened Pipeline
  import opened PipelineRuns

  predicate ByProducer(e: Event) {
    e.ProdGet? || e.ProdRead? || e.ProdWrite? || e.ProdEmpty? || e.ProdFront? || e.ProdAppend? || e.ProdClear? ||
    e.ProdPut? || e.ProdPutFront? || e.ProdAccount? || e.ProdTaken? || e.ProdGiven?
  }

  /** The chunks that a thread has in its hands are chunks of the pool. */
  lemma HandsInPool(s: State)
    requires PoolOk(s)
    ensures s.cache.fifo != [] ==> s.cache.fifo[0] < |s.chunks|
    ensures s.data.fifo != [] ==> s.data.fifo[0] < |s.chunks|
    ensures ProdFlight(s) != [] ==> ProdFlight(s)[0] < |s.chunks|
    ensures ConsFlight(s) != [] ==> ConsFlight(s)[0] < |s.chunks|
  {
    HeldParts(s);
    assert forall i :: 0 <= i < |Held(s)| ==> Held(s)[i] in Held(s);
  }

  // ----- what the other thread's steps leave alone -----

  /** `ids'` is `ids`, or `ids` with one more chunk behind. */
  predicate OneBehind(ids: seq<Id>, ids': seq<Id>) {
    ids' == ids || (|ids'| == |ids| + 1 && ids'[..|ids|] == ids)
  }

  /** The producer's side of s is that of s', except that the consumer may have given back an
      empty chunk behind the free ones. */
  predicate FreeSideKept(s: State, s': State) {
    && s'.prod == s.prod && s'.cache.r == s.cache.r && s'.dropped == s.dropped && s'.cacheLast == s.cacheLast
    && |s'.chunks| == |s.chunks|
    && (forall id :: 0 <= id < |s.chunks| && (id in s.cache.fifo || id in ProdFlight(s)) ==>
          s'.chunks[id] == s.chunks[id])
    && (forall id :: 0 <= id < |s.chunks| ==> s'.chunks[id].cap >= s.chunks[id].cap)
    && OneBehind(s.cache.fifo, s'.cache.fifo)
    && (s'.cache.fifo != s.cache.fifo ==> BytesOf(s'.chunks, s'.cache.fifo[|s.cache.fifo|]) == [])
  }

  lemma ConsumerEditKeeps(s: State, e: Event)
    requires Enabled(s, e) && ConsAt(s) && PoolOk(s) && (e.ConsDrop? || e.ConsPrepend?)
    ensures FreeSideKept(s, Step(s, e))
  {
    EditDisjoint(s, s.cons.id);
  }

  lemma ConsumerGivesBack(s: State)
    requires Enabled(s, ConsWrite) && QueuesOk(s) && PoolOk(s) && ShapeOk(s)
    ensures FreeSideKept(s, Step(s, ConsWrite))
  {
    RoomForFlight(s);
    ConsWriteQueues(s);
  }

  lemma ConsumerKeepsFreeSide(s: State, e: Event)
    requires Enabled(s, e) && QueuesOk(s) && PoolOk(s) && ShapeOk(s) && !ByProducer(e)
    ensures FreeSideKept(s, Step(s, e))
  {
    match e
    case ConsDrop(_) => ConsumerEditKeeps(s, e);
    case ConsPrepend(_, _, _) => ConsumerEditKeeps(s, e);
    case ConsWrite => ConsumerGivesBack(s);
    case ConsCleared => ConsClearedShape(s);
    case _ =>
  }

  /** The consumer's side of s is that of s', except that the producer may have handed a chunk
      over behind the others. */
  predicate DataSideKept(s: State, s': State) {
    && s'.cons == s.cons && s'.data.r == s.data.r && s'.dataLast == s.dataLast
    && |s'.chunks| == |s.chunks|
    && (forall id :: 0 <= id < |s.chunks| && id in s.data.fifo ==> s'.chunks[id] == s.chunks[id])
    && OneBehind(s.data.fifo, s'.data.fifo)
  }

  lemma ProducerEditKeeps(s: State, e: Event)
    requires Enabled(s, e) && ProdAt(s) && PoolOk(s) && (e.ProdAppend? || e.ProdClear?)
    ensures DataSideKept(s, Step(s, e))
  {
    EditDisjoint(s, s.prod.id);
  }

  lemma ProducerKeepsDataSide(s: State, e: Event)
    requires Enabled(s, e) && QueuesOk(s) && PoolOk(s) && ByProducer(e)
    ensures DataSideKept(s, Step(s, e))
  {
    match e
    case ProdAppend(_, _, _) => ProducerEditKeeps(s, e);
    case ProdClear => ProducerEditKeeps(s, e);
    case ProdWrite =>
      RoomForFlight(s);
      ProdWriteQueues(s);
    case _ =>
  }

  // ----- no full chunk stays behind -----

  /** The producer is between two edits: it holds no chunk and has none to put back. */
  predicate NoneInHand(s: State) { s.prod.PIdle? || s.prod.PAskEmpty? || s.prod.PAskFront? }

  /** The chunk to hand over has left the cache queue. */
  predicate HandingOver(s: State) { (s.prod.PTake? && s.cache.r.RGot?) || s.prod.PGive? }

  predicate HasRoom(c: Chunk) { |c.bytes| < c.cap }

  predicate RoomInFront(s: State) {
    && (forall id :: 0 <= id < |s.chunks| ==> 0 < s.chunks[id].cap)
    && (HandingOver(s) ==> AllEmpty(s.chunks, s.cache.fifo))
    && (NoneInHand(s) && s.cache.fifo != [] && s.cache.fifo[0] < |s.chunks| ==> HasRoom(s.chunks[s.cache.fifo[0]]))
  }

  lemma ConsumerKeepsRoom(s: State, s': State)
    requires FreeSideKept(s, s') && RoomInFront(s)
    ensures RoomInFront(s')
  {
    if s.cache.fifo != [] {
      assert s'.cache.fifo[0] == s.cache.fifo[0] && s.cache.fifo[0] in s.cache.fifo;
    }
    if HandingOver(s) {
      forall j | 0 <= j < |s'.cache.fifo|
        ensures BytesOf(s'.chunks, s'.cache.fifo[j]) == []
      {
        if j < |s.cache.fifo| {
          assert s'.cache.fifo[..|s.cache.fifo|][j] == s'.cache.fifo[j];
          assert s.cache.fifo[j] in s.cache.fifo;
        }
      }
    }
  }

  /** The producer's read of the cache queue takes the front chunk at its last step. */
  lemma ReadTakesFront(s: State)
    requires Enabled(s, ProdRead) && QueuesOk(s)
    ensures var s' := Step(s, ProdRead);
      && s' == s.(cache := s'.cache)
      && if s.cache.r.RErased? then
           && s.prod.PTake? && s.cache.fifo != [] && s'.cache.fifo == s.cache.fifo[1..]
           && s'.cache.r == RGot(s.cache.fifo[0])
         else s'.cache.fifo == s.cache.fifo && !s'.cache.r.RGot?
  {
  }

  lemma ReadKeepsRoom(s: State)
    requires Enabled(s, ProdRead) && QueuesOk(s) && TailEmpty(s.chunks, s.cache.fifo) && RoomInFront(s)
    ensures RoomInFront(Step(s, ProdRead))
  {
    ReadTakesFront(s);
  }

  lemma EditKeepsRoom(s: State, e: Event)
    requires Enabled(s, e) && (e.ProdAppend? || e.ProdClear?) && RoomInFront(s)
    ensures RoomInFront(Step(s, e))
  {
  }

  lemma ReturnKeepsRoom(s: State, e: Event)
    requires Enabled(s, e) && (e.ProdTaken? || e.ProdGiven?) && RoomInFront(s) && PoolOk(s)
    ensures RoomInFront(Step(s, e))
  {
  }

  lemma AccountKeepsRoom(s: State)
    requires Enabled(s, ProdAccount) && RoomInFront(s) && ProdAt(s) && Fits(s.chunks)
    ensures RoomInFront(Step(s, ProdAccount))
  {
  }

  lemma OtherKeepsRoom(s: State, e: Event)
    requires Enabled(s, e) && RoomInFront(s)
    requires e.ProdGet? || e.ProdEmpty? || e.ProdFront? || e.ProdPut? || e.ProdPutFront? || e.ProdWrite?
    ensures RoomInFront(Step(s, e))
  {
  }

  lemma ProducerKeepsRoom(s: State, e: Event)
    requires Enabled(s, e) && ByProducer(e) && RoomInFront(s)
    requires QueuesOk(s) && PoolOk(s) && ShapeOk(s)
    ensures RoomInFront(Step(s, e))
  {
    match e
    case ProdRead => ReadKeepsRoom(s);
    case ProdAppend(_, _, _) => EditKeepsRoom(s, e);
    case ProdClear => EditKeepsRoom(s, e);
    case ProdAccount => AccountKeepsRoom(s);
    case ProdTaken => ReturnKeepsRoom(s, e);
    case ProdGiven => ReturnKeepsRoom(s, e);
    case _ => OtherKeepsRoom(s, e);
  }

  lemma NextKeepsRoom(s: State, s': State)
    requires Inv(s) && RoomInFront(s) && Next(s, s')
    ensures RoomInFront(s')
  {
    var e :| Enabled(s, e) && s' == Step(s, e);
    if ByProducer(e) {
      ProducerKeepsRoom(s, e);
    } else {
      ConsumerKeepsFreeSide(s, e);
      ConsumerKeepsRoom(s, s');
    }
  }

  lemma {:induction false} RunRoom(trace: seq<State>, n: nat, elemSize: nat, k: nat)
    requires Run(trace, n, elemSize) && k < |trace| && 0 < elemSize
    ensures RoomInFront(trace[k])
  {
    if k == 0 {
    } else {
      var m := k - 1;
      RunRoom(trace, n, elemSize, m);
      RunInv(trace, n, elemSize, m);
      assert Next(trace[m], trace[m + 1]);
      NextKeepsRoom(trace[m], trace[m + 1]);
    }
  }

  /** With no chunk in the producer's hands there is room in the front free chunk, in every
      reachable state: a put never leaves a full chunk in front of the cache queue, where the
      next get would find no room. */
  lemma NoFullChunkStays(trace: seq<State>, n: nat, elemSize: nat, k: nat)
    requires Run(trace, n, elemSize) && k < |trace| && 0 < elemSize
    requires trace[k].prod.PIdle? && trace[k].cache.fifo != []
    ensures var s := trace[k];
      s.cache.fifo[0] < |s.chunks| && |s.chunks[s.cache.fifo[0]].bytes| < s.chunks[s.cache.fifo[0]].cap
  {
    RunInv(trace, n, elemSize, k);
    RunRoom(trace, n, elemSize, k);
    HandsInPool(trace[k]);
  }

  // ----- a whole put_cache_ptr -----

  predicate Does(s: State, e: Event, s': State) {
    Enabled(s, e) && s' == Step(s, e)
  }

  /** What a put of chunk `id` with contents `c` comes to. */
  predicate PutResult(s: State, id: Id, c: Chunk, rotate: bool, dropped: nat) {
    if |c.bytes| == c.cap || rotate then
      && AllEmpty(s.chunks, s.cache.fifo)
      && s.dropped == dropped + (if c.bytes == [] then 1 else 0)
    else
      && s.cache.fifo != [] && s.cache.fifo[0] == id && id < |s.chunks| && s.chunks[id] == c
      && s.dropped == dropped
  }

  /** A put under way, and what is decided about it at each point. */
  predicate Putting(s: State, id: Id, c: Chunk, rotate: bool, dropped: nat) {
    var due := |c.bytes| == c.cap || rotate;
    match s.prod
    case PPut(x, r) => x == id && r == rotate && InPlace(s, id, c) && s.dropped == dropped
    case PAccount(x, r) => x == id && r == rotate && InPlace(s, id, c) && s.dropped == dropped
    case PTake =>
      && due && s.dropped == dropped
      && (if s.cache.r.RGot? then s.cache.r.val == id && id < |s.chunks| && s.chunks[id] == c else InPlace(s, id, c))
    case PGive(x) => due && c.bytes != [] && s.dropped == dropped
    case PIdle => PutResult(s, id, c, rotate, dropped)
    case _ => false
  }

  predicate InPlace(s: State, id: Id, c: Chunk) {
    s.cache.fifo != [] && s.cache.fifo[0] == id && id < |s.chunks| && s.chunks[id] == c
  }

  lemma ConsumerKeepsPutting(s: State, s': State, id: Id, c: Chunk, rotate: bool, dropped: nat)
    requires FreeSideKept(s, s') && Putting(s, id, c, rotate, dropped) && !s.prod.PIdle?
    ensures Putting(s', id, c, rotate, dropped)
  {
    if s.cache.fifo != [] {
      assert s'.cache.fifo[0] == s.cache.fifo[0] && s.cache.fifo[0] in s.cache.fifo;
    }
    if s.prod.PTake? && s.cache.r.RGot? {
      assert s.cache.r.val in ProdFlight(s);
    }
  }

  lemma ReadKeepsPutting(s: State, id: Id, c: Chunk, rotate: bool, dropped: nat)
    requires Enabled(s, ProdRead) && QueuesOk(s)
    requires Putting(s, id, c, rotate, dropped) && !s.prod.PIdle?
    ensures Putting(Step(s, ProdRead), id, c, rotate, dropped)
  {
    ReadTakesFront(s);
  }

  lemma ReturnKeepsPutting(s: State, e: Event, id: Id, c: Chunk, rotate: bool, dropped: nat)
    requires Enabled(s, e) && (e.ProdTaken? || e.ProdGiven?) && RoomInFront(s)
    requires Putting(s, id, c, rotate, dropped)
    ensures Putting(Step(s, e), id, c, rotate, dropped)
  {
  }

  lemma ProducerKeepsPutting(s: State, e: Event, id: Id, c: Chunk, rotate: bool, dropped: nat)
    requires Enabled(s, e) && QueuesOk(s) && ByProducer(e) && RoomInFront(s)
    requires Putting(s, id, c, rotate, dropped) && !s.prod.PIdle?
    ensures Putting(Step(s, e), id, c, rotate, dropped)
  {
    match e
    case ProdRead => ReadKeepsPutting(s, id, c, rotate, dropped);
    case ProdTaken => ReturnKeepsPutting(s, e, id, c, rotate, dropped);
    case ProdGiven => ReturnKeepsPutting(s, e, id, c, rotate, dropped);
    case ProdPutFront => FrontIsOldest(s.cache);
    case ProdAccount =>
    case ProdWrite =>
    case _ =>
  }

  lemma NextKeepsPutting(s: State, s': State, id: Id, c: Chunk, rotate: bool, dropped: nat)
    requires Inv(s) && RoomInFront(s) && Next(s, s')
    requires Putting(s, id, c, rotate, dropped) && !s.prod.PIdle?
    ensures Putting(s', id, c, rotate, dropped)
  {
    var e :| Enabled(s, e) && s' == Step(s, e);
    if ByProducer(e) {
      ProducerKeepsPutting(s, e, id, c, rotate, dropped);
    } else {
      ConsumerKeepsFreeSide(s, e);
      ConsumerKeepsPutting(s, s', id, c, rotate, dropped);
    }
  }

  lemma RunKeepsPutting(trace: seq<State>, n: nat, elemSize: nat, m: nat, id: Id, c: Chunk, rotate: bool, dropped: nat)
    requires Run(trace, n, elemSize) && 0 < elemSize && m < |trace| - 1
    requires Putting(trace[m], id, c, rotate, dropped) && !trace[m].prod.PIdle?
    ensures Putting(trace[m + 1], id, c, rotate, dropped)
  {
    RunInv(trace, n, elemSize, m);
    RunRoom(trace, n, elemSize, m);
    assert Next(trace[m], trace[m + 1]);
    NextKeepsPutting(trace[m], trace[m + 1], id, c, rotate, dropped);
  }

  lemma PutBegins(s: State, rotate: bool)
    requires Inv(s) && Enabled(s, ProdPut(rotate))
    ensures s.prod.PHold? && s.prod.id < |s.chunks|
    ensures Putting(Step(s, ProdPut(rotate)), s.prod.id, s.chunks[s.prod.id], rotate, s.dropped)
  {
    HandsInPool(s);
  }

  /** Strictly between i and j the producer is never idle. */
  ghost predicate StillPutting(trace: seq<State>, i: nat, j: nat)
    requires j <= |trace|
  {
    forall m :: i < m < j ==> !trace[m].prod.PIdle?
  }

  lemma {:induction false} PutGoesOn(trace: seq<State>, n: nat, elemSize: nat, i: nat, id: Id, c: Chunk,
                                      rotate: bool, dropped: nat, j: nat)
    requires Run(trace, n, elemSize) && 0 < elemSize && i < j < |trace|
    requires Putting(trace[i + 1], id, c, rotate, dropped)
    requires StillPutting(trace, i, j)
    ensures Putting(trace[j], id, c, rotate, dropped)
    decreases j
  {
    if j != i + 1 {
      var m := j - 1;
      PutGoesOn(trace, n, elemSize, i, id, c, rotate, dropped, m);
      RunKeepsPutting(trace, n, elemSize, m, id, c, rotate, dropped);
    }
  }

  /** A whole put_cache_ptr, from the call at i to the return at j, whatever the consumer does in
      between. A chunk that is full, or put back with `rotate`, is handed over: no free chunk holds
      a byte any more, and the pool loses a chunk exactly if that one was empty. Any other chunk is
      still in front of the cache queue with its contents. */
  lemma PutHandsOver(trace: seq<State>, n: nat, elemSize: nat, i: nat, rotate: bool, j: nat)
    requires Run(trace, n, elemSize) && 0 < elemSize && i < j < |trace|
    requires Does(trace[i], ProdPut(rotate), trace[i + 1])
    requires trace[j].prod.PIdle? && StillPutting(trace, i, j)
    ensures trace[i].prod.PHold? && trace[i].prod.id < n && |trace[i].chunks| == n
    ensures var id, c, s := trace[i].prod.id, trace[i].chunks[trace[i].prod.id], trace[j];
      if |c.bytes| == c.cap || rotate then
        && (forall x :: 0 <= x < |s.cache.fifo| ==> BytesOf(s.chunks, s.cache.fifo[x]) == [])
        && s.dropped == trace[i].dropped + (if c.bytes == [] then 1 else 0)
      else
        && s.cache.fifo != [] && s.cache.fifo[0] == id && |s.chunks| == n && s.chunks[id] == c
        && s.dropped == trace[i].dropped
  {
    RunInv(trace, n, elemSize, i);
    PutBegins(trace[i], rotate);
    PutGoesOn(trace, n, elemSize, i, trace[i].prod.id, trace[i].chunks[trace[i].prod.id], rotate, trace[i].dropped, j);
    RunInv(trace, n, elemSize, j);
  }

  // ----- a whole get -----

  /** `front` is the chunk that was in front when the get began, if there was one. */
  predicate ProdGetting(s: State, before: seq<Id>) {
    && (before != [] ==> s.cache.fifo != [] && s.cache.fifo[0] == before[0])
    && match s.prod
       case PAskEmpty => s.cache.r == REmpty(true) ==> before == []
       case PAskFront => true
       case PHold(id) =>
         s.cache.fifo != [] && s.cache.fifo[0] == id && id < |s.chunks| && s.cacheLast == |s.chunks[id].bytes|
       case PIdle => before == []
       case _ => false
  }

  predicate ProdInGet(s: State) { s.prod.PAskEmpty? || s.prod.PAskFront? }

  lemma ConsumerKeepsProdGetting(s: State, s': State, before: seq<Id>)
    requires FreeSideKept(s, s') && ProdGetting(s, before) && ProdInGet(s)
    ensures ProdGetting(s', before)
  {
    if s.cache.fifo != [] {
      assert s'.cache.fifo[0] == s'.cache.fifo[..|s.cache.fifo|][0];
    }
  }

  lemma ProducerKeepsProdGetting(s: State, e: Event, before: seq<Id>)
    requires Enabled(s, e) && Inv(s) && ByProducer(e) && ProdGetting(s, before) && ProdInGet(s)
    ensures ProdGetting(Step(s, e), before)
  {
    if e.ProdRead? {
      ReaderStepRefines(s.cache.ring, s.cache.w, s.cache.r, s.cache.fifo);
    } else if e.ProdFront? {
      FrontIsOldest(s.cache);
    }
  }

  lemma NextKeepsProdGetting(s: State, s': State, before: seq<Id>)
    requires Inv(s) && Next(s, s') && ProdGetting(s, before) && ProdInGet(s)
    ensures ProdGetting(s', before)
  {
    var e :| Enabled(s, e) && s' == Step(s, e);
    if ByProducer(e) {
      ProducerKeepsProdGetting(s, e, before);
    } else {
      ConsumerKeepsFreeSide(s, e);
      ConsumerKeepsProdGetting(s, s', before);
    }
  }

  lemma RunKeepsProdGetting(trace: seq<State>, n: nat, elemSize: nat, m: nat, before: seq<Id>)
    requires Run(trace, n, elemSize) && m < |trace| - 1 && ProdGetting(trace[m], before) && ProdInGet(trace[m])
    ensures ProdGetting(trace[m + 1], before)
  {
    RunInv(trace, n, elemSize, m);
    assert Next(trace[m], trace[m + 1]);
    NextKeepsProdGetting(trace[m], trace[m + 1], before);
  }

  lemma {:induction false} ProdGetGoesOn(trace: seq<State>, n: nat, elemSize: nat, i: nat, before: seq<Id>, j: nat)
    requires Run(trace, n, elemSize) && i < j < |trace| && ProdGetting(trace[i + 1], before)
    requires forall m {:trigger trace[m]} :: i < m < j ==> ProdInGet(trace[m])
    ensures ProdGetting(trace[j], before)
    decreases j
  {
    if j != i + 1 {
      var m := j - 1;
      ProdGetGoesOn(trace, n, elemSize, i, before, m);
      RunKeepsProdGetting(trace, n, elemSize, m, before);
    }
  }

  /** A whole get_cache_ptr, from the call at i to the return at j: it comes back empty-handed only
      if no chunk was free at the call, and otherwise holds the front free chunk with its size
      recorded; a chunk that was in front at the call is the one it holds. */
  lemma GetFindsFreeChunk(trace: seq<State>, n: nat, elemSize: nat, i: nat, j: nat)
    requires Run(trace, n, elemSize) && i < j < |trace| && Does(trace[i], ProdGet, trace[i + 1])
    requires !ProdInGet(trace[j]) && forall m {:trigger trace[m]} :: i < m < j ==> ProdInGet(trace[m])
    ensures var s := trace[j];
      && (s.prod.PIdle? || s.prod.PHold?)
      && (trace[i].cache.fifo != [] ==> s.prod == PHold(trace[i].cache.fifo[0]))
      && (s.prod.PHold? ==> s.cache.fifo != [] && s.cache.fifo[0] == s.prod.id
                            && s.cacheLast == |BytesOf(s.chunks, s.prod.id)|)
  {
    assert ProdGetting(trace[i + 1], trace[i].cache.fifo);
    ProdGetGoesOn(trace, n, elemSize, i, trace[i].cache.fifo, j);
  }

  predicate ConsGetting(s: State, before: seq<Id>) {
    && (before != [] ==> s.data.fifo != [] && s.data.fifo[0] == before[0])
    && match s.cons
       case CAskEmpty => s.data.r == REmpty(true) ==> before == []
       case CAskFront => true
       case CHold(id) =>
         s.data.fifo != [] && s.data.fifo[0] == id && id < |s.chunks| && s.dataLast == |s.chunks[id].bytes|
       case CIdle => before == []
       case _ => false
  }

  predicate ConsInGet(s: State) { s.cons.CAskEmpty? || s.cons.CAskFront? }

  lemma ProducerKeepsConsGetting(s: State, s': State, before: seq<Id>)
    requires DataSideKept(s, s') && ConsGetting(s, before) && ConsInGet(s)
    ensures ConsGetting(s', before)
  {
    if s.data.fifo != [] {
      assert s'.data.fifo[0] == s'.data.fifo[..|s.data.fifo|][0];
    }
  }

  lemma ConsumerKeepsConsGetting(s: State, e: Event, before: seq<Id>)
    requires Enabled(s, e) && Inv(s) && !ByProducer(e) && ConsGetting(s, before) && ConsInGet(s)
    ensures ConsGetting(Step(s, e), before)
  {
    if e.ConsRead? {
      ReaderStepRefines(s.data.ring, s.data.w, s.data.r, s.data.fifo);
    } else if e.ConsFront? {
      FrontIsOldest(s.data);
    }
  }

  lemma NextKeepsConsGetting(s: State, s': State, before: seq<Id>)
    requires Inv(s) && Next(s, s') && ConsGetting(s, before) && ConsInGet(s)
    ensures ConsGetting(s', before)
  {
    var e :| Enabled(s, e) && s' == Step(s, e);
    if ByProducer(e) {
      ProducerKeepsDataSide(s, e);
      ProducerKeepsConsGetting(s, s', before);
    } else {
      ConsumerKeepsConsGetting(s, e, before);
    }
  }

  lemma RunKeepsConsGetting(trace: seq<State>, n: nat, elemSize: nat, m: nat, before: seq<Id>)
    requires Run(trace, n, elemSize) && m < |trace| - 1 && ConsGetting(trace[m], before) && ConsInGet(trace[m])
    ensures ConsGetting(trace[m + 1], before)
  {
    RunInv(trace, n, elemSize, m);
    assert Next(trace[m], trace[m + 1]);
    NextKeepsConsGetting(trace[m], trace[m + 1], before);
  }

  lemma {:induction false} ConsGetGoesOn(trace: seq<State>, n: nat, elemSize: nat, i: nat, before: seq<Id>, j: nat)
    requires Run(trace, n, elemSize) && i < j < |trace| && ConsGetting(trace[i + 1], before)
    requires forall m {:trigger trace[m]} :: i < m < j ==> ConsInGet(trace[m])
    ensures ConsGetting(trace[j], before)
    decreases j
  {
    if j != i + 1 {
      var m := j - 1;
      ConsGetGoesOn(trace, n, elemSize, i, before, m);
      RunKeepsConsGetting(trace, n, elemSize, m, before);
    }
  }

  /** A whole get_data_ptr: empty-handed only if no chunk was filled at the call; otherwise the
      front filled chunk with its size recorded. */
  lemma GetFindsFilledChunk(trace: seq<State>, n: nat, elemSize: nat, i: nat, j: nat)
    requires Run(trace, n, elemSize) && i < j < |trace| && Does(trace[i], ConsGet, trace[i + 1])
    requires !ConsInGet(trace[j]) && forall m {:trigger trace[m]} :: i < m < j ==> ConsInGet(trace[m])
    ensures var s := trace[j];
      && (s.cons.CIdle? || s.cons.CHold?)
      && (trace[i].data.fifo != [] ==> s.cons == CHold(trace[i].data.fifo[0]))
      && (s.cons.CHold? ==> s.data.fifo != [] && s.data.fifo[0] == s.cons.id
                            && s.dataLast == |BytesOf(s.chunks, s.cons.id)|)
  {
    assert ConsGetting(trace[i + 1], trace[i].data.fifo);
    ConsGetGoesOn(trace, n, elemSize, i, trace[i].data.fifo, j);
  }

  // ----- every call ends -----

  /** How many steps of its own a queue call still takes. */
  function ReaderLeft(r: Reader<Id>): nat {
    match r
    case RCall(_) => 5
    case ROwn(_, _) => 4
    case RSeen(_) => 3
    case RMoved(_, _) => 2
    case RErased(_, _) => 1
    case _ => 0
  }

  function WriterLeft(w: Writer<Id>): nat {
    match w
    case WWrite(_) => 4
    case WOwn(_, _) => 3
    case WFree(_, _, _) => 2
    case WBuilt(_, _, _) => 1
    case _ => 0
  }

  /** How many steps of its own the producer still takes before its call ends. */
  function ProdLeft(s: State): nat {
    match s.prod
    case PAskEmpty => 7 + ReaderLeft(s.cache.r)
    case PAskFront => 1 + ReaderLeft(s.cache.r)
    case PPut(_, _) => 13 + ReaderLeft(s.cache.r)
    case PAccount(_, _) => 12
    case PTake => 6 + ReaderLeft(s.cache.r)
    case PGive(_) => 1 + WriterLeft(s.data.w)
    case _ => 0
  }

  function ConsLeft(s: State): nat {
    match s.cons
    case CAskEmpty => 7 + ReaderLeft(s.data.r)
    case CAskFront => 1 + ReaderLeft(s.data.r)
    case CPut(_, _) => 14 + ReaderLeft(s.data.r)
    case CAccount(_, _) => 13
    case CTake => 7 + ReaderLeft(s.data.r)
    case CClear(_) => 6
    case CGive(_) => 1 + WriterLeft(s.cache.w)
    case _ => 0
  }

  /** A next step of the producer inside a call. */
  function ProdNext(s: State): Event {
    match s.prod
    case PAskEmpty => if s.cache.r.REmpty? then ProdEmpty else ProdRead
    case PAskFront => if s.cache.r.RFront? then ProdFront else ProdRead
    case PPut(_, _) => if s.cache.r.RFront? then ProdPutFront else ProdRead
    case PAccount(_, _) => ProdAccount
    case PTake => if s.cache.r.RGot? then ProdTaken else ProdRead
    case PGive(_) => if s.data.w.WDone? then ProdGiven else ProdWrite
    case PHold(_) => ProdPut(true)
    case PIdle => ProdGet
  }

  function ConsNext(s: State): Event {
    match s.cons
    case CAskEmpty => if s.data.r.REmpty? then ConsEmpty else ConsRead
    case CAskFront => if s.data.r.RFront? then ConsFront else ConsRead
    case CPut(_, _) => if s.data.r.RFront? then ConsPutFront else ConsRead
    case CAccount(_, _) => ConsAccount
    case CTake => if s.data.r.RGot? then ConsTaken else ConsRead
    case CClear(_) => ConsCleared
    case CGive(_) => if s.cache.w.WDone? then ConsGiven else ConsWrite
    case CHold(_) => ConsPut(false)
    case CIdle => ConsGet
  }

  /** The longest call: a put that hands a chunk over. */
  lemma ProdLeftBound(s: State)
    ensures ProdLeft(s) <= 18 && ConsLeft(s) <= 19
    ensures ProdLeft(s) == 0 <==> s.prod.PIdle? || s.prod.PHold?
    ensures ConsLeft(s) == 0 <==> s.cons.CIdle? || s.cons.CHold?
  {
  }

  /** In which registers a running queue call can be. */
  lemma ReaderIn(s: State)
    requires ProdAt(s) && ConsAt(s)
    ensures s.prod.PAskEmpty? ==> s.cache.r.REmpty? || ReaderRunning(s.cache.r)
    ensures s.prod.PAskFront? || s.prod.PPut? ==> s.cache.r.RFront? || ReaderRunning(s.cache.r)
    ensures s.prod.PTake? ==> s.cache.r.RGot? || ReaderRunning(s.cache.r)
    ensures s.prod.PGive? ==> s.data.w == WDone(true) || WriterRunning(s.data.w)
    ensures s.cons.CAskEmpty? ==> s.data.r.REmpty? || ReaderRunning(s.data.r)
    ensures s.cons.CAskFront? || s.cons.CPut? ==> s.data.r.RFront? || ReaderRunning(s.data.r)
    ensures s.cons.CTake? ==> s.data.r.RGot? || ReaderRunning(s.data.r)
    ensures s.cons.CGive? ==> s.cache.w == WDone(true) || WriterRunning(s.cache.w)
  {
  }

  lemma ProdNextEnabled(s: State)
    requires QueuesOk(s) && PoolOk(s)
    ensures Enabled(s, ProdNext(s)) && ByProducer(ProdNext(s))
  {
    StepsAreDefined(s.cache.ring, s.cache.w, s.cache.r, s.cache.fifo);
    StepsAreDefined(s.data.ring, s.data.w, s.data.r, s.data.fifo);
    ReaderIn(s);
    HandsInPool(s);
    if s.cache.r.RFront? { FrontIsOldest(s.cache); }
  }

  lemma ConsNextEnabled(s: State)
    requires QueuesOk(s) && PoolOk(s)
    ensures Enabled(s, ConsNext(s)) && !ByProducer(ConsNext(s))
  {
    StepsAreDefined(s.cache.ring, s.cache.w, s.cache.r, s.cache.fifo);
    StepsAreDefined(s.data.ring, s.data.w, s.data.r, s.data.fifo);
    ReaderIn(s);
    HandsInPool(s);
    if s.data.r.RFront? { FrontIsOldest(s.data); }
  }

  lemma ProdStepsCount(s: State, e: Event)
    requires QueuesOk(s) && Enabled(s, e)
    ensures ByProducer(e) && ProdLeft(s) != 0 ==> ProdLeft(Step(s, e)) < ProdLeft(s)
    ensures !ByProducer(e) ==> ProdLeft(Step(s, e)) == ProdLeft(s)
  {
    ReaderIn(s);
  }

  lemma ConsStepsCount(s: State, e: Event)
    requires QueuesOk(s) && Enabled(s, e)
    ensures !ByProducer(e) && ConsLeft(s) != 0 ==> ConsLeft(Step(s, e)) < ConsLeft(s)
    ensures ByProducer(e) ==> ConsLeft(Step(s, e)) == ConsLeft(s)
  {
    ReaderIn(s);
  }

  /** Both threads are wait-free: in every reachable state each can take a step, and inside a call
      each of its own steps lowers a count of at most 19 that no step of the other thread changes. */
  lemma EveryCallEnds(trace: seq<State>, n: nat, elemSize: nat, k: nat)
    requires Run(trace, n, elemSize) && k < |trace|
    ensures exists e, s' :: Does(trace[k], e, s') && ByProducer(e)
    ensures exists e, s' :: Does(trace[k], e, s') && !ByProducer(e)
    ensures ProdLeft(trace[k]) <= 18 && ConsLeft(trace[k]) <= 19
    ensures forall e, s' :: Does(trace[k], e, s') && ByProducer(e) ==>
      (ProdLeft(trace[k]) != 0 ==> ProdLeft(s') < ProdLeft(trace[k])) && ConsLeft(s') == ConsLeft(trace[k])
    ensures forall e, s' :: Does(trace[k], e, s') && !ByProducer(e) ==>
      (ConsLeft(trace[k]) != 0 ==> ConsLeft(s') < ConsLeft(trace[k])) && ProdLeft(s') == ProdLeft(trace[k])
  {
    var s := trace[k];
    RunInv(trace, n, elemSize, k);
    ProdNextEnabled(s);
    ConsNextEnabled(s);
    assert Does(s, ProdNext(s), Step(s, ProdNext(s))) && Does(s, ConsNext(s), Step(s, ConsNext(s)));
    ProdLeftBound(s);
    forall e, s' | Does(s, e, s')
      ensures ByProducer(e) && ProdLeft(s) != 0 ==> ProdLeft(s') < ProdLeft(s)
      ensures !ByProducer(e) && ConsLeft(s) != 0 ==> ConsLeft(s') < ConsLeft(s)
      ensures if ByProducer(e) then ConsLeft(s') == ConsLeft(s) else ProdLeft(s') == ProdLeft(s)
    {
      ProdStepsCount(s, e);
      ConsStepsCount(s, e);
    }
  }
}
