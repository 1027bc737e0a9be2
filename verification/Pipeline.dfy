/** cache_buffer.h as a step system. A producer thread takes free chunks from the cache queue
    and hands filled ones to the data queue; a consumer thread drains them and gives them back.
    Both queues are the rings of `RingSteps`, stepped at each index load, slot access and index
    store; the edit of a held chunk, the update of the shared byte counter and each decision
    in between are steps of their own. */
module Pipeline {
  import opened Bytes
  import opened RingSteps

  type Id = nat

  /** A chunk. `first` is the position tag; `intact` is history: the consumer has not edited
      the chunk since the producer last tagged it. */
  datatype Chunk = Chunk(first: int, bytes: seq<byte>, cap: nat, intact: bool)

  /** A ring with its two threads' program counters and, as history, its FIFO. */
  datatype Channel = Channel(ring: Ring<Id>, w: Writer<Id>, r: Reader<Id>, fifo: seq<Id>)

  datatype Prod =
    | PIdle
    | PAskEmpty | PAskFront              // get_cache_ptr: isEmpty, frontPtr
    | PHold(id: Id)                      // pointer held, size recorded
    | PPut(id: Id, rotate: bool)         // put_cache_ptr: frontPtr
    | PAccount(id: Id, rotate: bool)     // about to update the counter
    | PTake                              // rotate_cache: read
    | PGive(id: Id)                      // rotate_cache: write

  datatype Cons =
    | CIdle
    | CAskEmpty | CAskFront
    | CHold(id: Id)
    | CPut(id: Id, rotate: bool)
    | CAccount(id: Id, rotate: bool)
    | CTake                              // rotate_data: read
    | CClear(id: Id)                     // rotate_data: clear
    | CGive(id: Id)                      // rotate_data: write

  /** `pipe` is history: the bytes in transit, changed only by the edits of the two clients.
      `dropped` counts the chunks that rotate_cache found empty. */
  datatype State = State(
    cache: Channel, data: Channel, chunks: seq<Chunk>,
    total: int, cacheLast: nat, dataLast: nat,
    prod: Prod, cons: Cons,
    pipe: seq<byte>, dropped: nat)

  // ----- queue steps -----

  ghost predicate Good(c: Channel) {
    Refines(c.ring, c.w, c.r, c.fifo)
  }

  predicate CanWrite(c: Channel) { WriterRunning(c.w) && WriterStepDefined(c.ring, c.w) }

  predicate CanRead(c: Channel) { ReaderRunning(c.r) && ReaderStepDefined(c.ring, c.r) }

  function WriteStep(c: Channel): Channel
    requires CanWrite(c)
  {
    var (g, w) := WriterStep(c.ring, c.w);
    Channel(g, w, c.r, WriterFifo(c.w, c.fifo))
  }

  function ReadStep(c: Channel): Channel
    requires CanRead(c)
  {
    var (g, r) := ReaderStep(c.ring, c.r);
    Channel(g, c.w, r, ReaderFifo(c.r, c.fifo))
  }

  /** The chunk a front pointer points to. */
  predicate HasFront(c: Channel) {
    c.r.RFront? && c.r.cur < |c.ring.slots| && c.ring.slots[c.r.cur].Live?
  }

  function FrontId(c: Channel): Id
    requires HasFront(c)
  {
    c.ring.slots[c.r.cur].value
  }

  // ----- the events of the two threads -----

  datatype Event =
    | ProdGet | ProdRead | ProdWrite | ProdEmpty | ProdFront
    | ProdAppend(bs: seq<byte>, cap: nat, tag: int) | ProdClear | ProdPut(rotate: bool)
    | ProdPutFront | ProdAccount | ProdTaken | ProdGiven
    | ConsGet | ConsRead | ConsWrite | ConsEmpty | ConsFront
    | ConsDrop(k: nat) | ConsPrepend(bs: seq<byte>, cap: nat, tag: int) | ConsPut(rotate: bool)
    | ConsPutFront | ConsAccount | ConsTaken | ConsCleared | ConsGiven

  /** When an event can happen. The client rules are: an edit stays within the capacity it
      asks for, a capacity never shrinks, and put_data_ptr(true) is called on an emptied chunk
      only. */
  predicate Enabled(s: State, e: Event) {
    match e
    case ProdGet => s.prod.PIdle?
    case ProdRead => (s.prod.PAskEmpty? || s.prod.PAskFront? || s.prod.PPut? || s.prod.PTake?) && CanRead(s.cache)
    case ProdWrite => s.prod.PGive? && CanWrite(s.data)
    case ProdEmpty => s.prod.PAskEmpty? && s.cache.r.REmpty?
    case ProdFront => s.prod.PAskFront? && HasFront(s.cache) && FrontId(s.cache) < |s.chunks|
    case ProdAppend(bs, cap, tag) =>
      s.prod.PHold? && s.prod.id < |s.chunks|
      && var c := s.chunks[s.prod.id]; c.cap <= cap && |c.bytes| + |bs| <= cap
    case ProdClear => s.prod.PHold? && s.prod.id < |s.chunks| && |s.chunks[s.prod.id].bytes| <= |s.pipe|
    case ProdPut(rotate) => s.prod.PHold?
    case ProdPutFront => s.prod.PPut? && HasFront(s.cache)
    case ProdAccount => s.prod.PAccount? && s.prod.id < |s.chunks|
    case ProdTaken => s.prod.PTake? && s.cache.r.RGot? && s.cache.r.val < |s.chunks|
    case ProdGiven => s.prod.PGive? && s.data.w.WDone?
    case ConsGet => s.cons.CIdle?
    case ConsRead => (s.cons.CAskEmpty? || s.cons.CAskFront? || s.cons.CPut? || s.cons.CTake?) && CanRead(s.data)
    case ConsWrite => s.cons.CGive? && CanWrite(s.cache)
    case ConsEmpty => s.cons.CAskEmpty? && s.data.r.REmpty?
    case ConsFront => s.cons.CAskFront? && HasFront(s.data) && FrontId(s.data) < |s.chunks|
    case ConsDrop(k) =>
      s.cons.CHold? && s.cons.id < |s.chunks| && k <= |s.chunks[s.cons.id].bytes| && k <= |s.pipe|
    case ConsPrepend(bs, cap, tag) =>
      s.cons.CHold? && s.cons.id < |s.chunks|
      && var c := s.chunks[s.cons.id]; c.cap <= cap && |bs| + |c.bytes| <= cap
    case ConsPut(rotate) =>
      s.cons.CHold? && s.cons.id < |s.chunks| && (rotate ==> s.chunks[s.cons.id].bytes == [])
    case ConsPutFront => s.cons.CPut? && HasFront(s.data)
    case ConsAccount => s.cons.CAccount? && s.cons.id < |s.chunks|
    case ConsTaken => s.cons.CTake? && s.data.r.RGot?
    case ConsCleared => s.cons.CClear? && s.cons.id < |s.chunks|
    case ConsGiven => s.cons.CGive? && s.cache.w.WDone?
  }

  function Appended(c: Chunk, bs: seq<byte>, cap: nat, tag: int): Chunk {
    if c.bytes == [] then Chunk(tag, bs, cap, true)
    else Chunk(c.first, c.bytes + bs, cap, c.intact)
  }

  function Dropped(c: Chunk, k: nat): Chunk
    requires k <= |c.bytes|
  {
    Chunk(c.first - k, c.bytes[k..], c.cap, k == 0 && c.intact)
  }

  function Prepended(c: Chunk, bs: seq<byte>, cap: nat, tag: int): Chunk {
    Chunk(tag, bs + c.bytes, cap, false)
  }

  function Step(s: State, e: Event): State
    requires Enabled(s, e)
  {
    match e
    case ProdGet => s.(prod := PAskEmpty, cache := s.cache.(r := RCall(IsEmpty)))
    case ProdRead => s.(cache := ReadStep(s.cache))
    case ProdWrite => s.(data := WriteStep(s.data))
    case ProdEmpty =>
      if s.cache.r.empty then s.(prod := PIdle)
      else s.(prod := PAskFront, cache := s.cache.(r := RCall(Front)))
    case ProdFront =>
      s.(prod := PHold(FrontId(s.cache)), cacheLast := |s.chunks[FrontId(s.cache)].bytes|)
    case ProdAppend(bs, cap, tag) =>
      s.(chunks := s.chunks[s.prod.id := Appended(s.chunks[s.prod.id], bs, cap, tag)], pipe := s.pipe + bs)
    case ProdClear =>
      var c := s.chunks[s.prod.id];
      s.(chunks := s.chunks[s.prod.id := c.(bytes := [])], pipe := s.pipe[..|s.pipe| - |c.bytes|])
    case ProdPut(rotate) => s.(prod := PPut(s.prod.id, rotate), cache := s.cache.(r := RCall(Front)))
    case ProdPutFront => s.(prod := PAccount(FrontId(s.cache), s.prod.rotate))
    case ProdAccount =>
      var c := s.chunks[s.prod.id];
      var t := s.total + |c.bytes| - s.cacheLast;
      if |c.bytes| == c.cap || s.prod.rotate
      then s.(total := t, prod := PTake, cache := s.cache.(r := RCall(Read)))
      else s.(total := t, prod := PIdle)
    case ProdTaken =>
      var id := s.cache.r.val;
      if s.chunks[id].bytes == [] then s.(prod := PIdle, cache := s.cache.(r := RIdle), dropped := s.dropped + 1)
      else s.(prod := PGive(id), cache := s.cache.(r := RIdle), data := s.data.(w := WWrite(id)))
    case ProdGiven => s.(prod := PIdle)
    case ConsGet => s.(cons := CAskEmpty, data := s.data.(r := RCall(IsEmpty)))
    case ConsRead => s.(data := ReadStep(s.data))
    case ConsWrite => s.(cache := WriteStep(s.cache))
    case ConsEmpty =>
      if s.data.r.empty then s.(cons := CIdle)
      else s.(cons := CAskFront, data := s.data.(r := RCall(Front)))
    case ConsFront =>
      s.(cons := CHold(FrontId(s.data)), dataLast := |s.chunks[FrontId(s.data)].bytes|)
    case ConsDrop(k) =>
      s.(chunks := s.chunks[s.cons.id := Dropped(s.chunks[s.cons.id], k)], pipe := s.pipe[k..])
    case ConsPrepend(bs, cap, tag) =>
      s.(chunks := s.chunks[s.cons.id := Prepended(s.chunks[s.cons.id], bs, cap, tag)], pipe := bs + s.pipe)
    case ConsPut(rotate) => s.(cons := CPut(s.cons.id, rotate), data := s.data.(r := RCall(Front)))
    case ConsPutFront => s.(cons := CAccount(FrontId(s.data), s.cons.rotate))
    case ConsAccount =>
      var c := s.chunks[s.cons.id];
      var t := s.total + |c.bytes| - s.dataLast;
      if c.bytes == [] || s.cons.rotate
      then s.(total := t, cons := CTake, data := s.data.(r := RCall(Read)))
      else s.(total := t, cons := CIdle)
    case ConsTaken => s.(cons := CClear(s.data.r.val), data := s.data.(r := RIdle))
    case ConsCleared =>
      s.(chunks := s.chunks[s.cons.id := s.chunks[s.cons.id].(bytes := [])],
         cons := CGive(s.cons.id), cache := s.cache.(w := WWrite(s.cons.id)))
    case ConsGiven => s.(cons := CIdle)
  }

  // ----- the invariant -----

  /** The chunk that the producer has read from the cache queue and not yet written on. */
  function ProdFlight(s: State): seq<Id> {
    if s.prod.PTake? && s.cache.r.RGot? then [s.cache.r.val]
    else if s.prod.PGive? && s.data.w != WDone(true) then [s.prod.id]
    else []
  }

  function ConsFlight(s: State): seq<Id> {
    if s.cons.CTake? && s.data.r.RGot? then [s.data.r.val]
    else if s.cons.CClear? then [s.cons.id]
    else if s.cons.CGive? && s.cache.w != WDone(true) then [s.cons.id]
    else []
  }

  /** Chunks in byte-stream order: the data queue, then the producer's chunk in flight, then
      the cache queue, of which only the front can hold bytes. */
  function StreamOrder(s: State): seq<Id> {
    s.data.fifo + ProdFlight(s) + s.cache.fifo
  }

  function Held(s: State): seq<Id> {
    StreamOrder(s) + ConsFlight(s)
  }

  function BytesOf(chunks: seq<Chunk>, id: Id): seq<byte> {
    if id < |chunks| then chunks[id].bytes else []
  }

  function Contents(chunks: seq<Chunk>, ids: seq<Id>): seq<byte> {
    if ids == [] then [] else BytesOf(chunks, ids[0]) + Contents(chunks, ids[1..])
  }

  /** Where the producer thread is, and what that says about the queue calls it makes. */
  predicate ProdAt(s: State) {
    && (WriterRunning(s.data.w) ==> s.prod.PGive?)
    && match s.prod
       case PIdle => !ReaderRunning(s.cache.r)
       case PAskEmpty => s.cache.r == RCall(IsEmpty) || (s.cache.r.ROwn? && s.cache.r.op.IsEmpty?) || s.cache.r.REmpty?
       case PAskFront => s.cache.fifo != [] && InFront(s.cache.r)
       case PHold(id) => s.cache.fifo != [] && s.cache.fifo[0] == id && !ReaderRunning(s.cache.r)
       case PPut(id, _) => s.cache.fifo != [] && s.cache.fifo[0] == id && InFront(s.cache.r)
       case PAccount(id, _) => s.cache.fifo != [] && s.cache.fifo[0] == id && !ReaderRunning(s.cache.r)
       case PTake => InRead(s.cache.r) && (s.cache.r.RGot? || s.cache.fifo != [])
       case PGive(id) =>
         !ReaderRunning(s.cache.r) && InWrite(s.data.w, id)
  }

  predicate ConsAt(s: State) {
    && (WriterRunning(s.cache.w) ==> s.cons.CGive?)
    && match s.cons
       case CIdle => !ReaderRunning(s.data.r)
       case CAskEmpty => s.data.r == RCall(IsEmpty) || (s.data.r.ROwn? && s.data.r.op.IsEmpty?) || s.data.r.REmpty?
       case CAskFront => s.data.fifo != [] && InFront(s.data.r)
       case CHold(id) => s.data.fifo != [] && s.data.fifo[0] == id && !ReaderRunning(s.data.r)
       case CPut(id, _) => s.data.fifo != [] && s.data.fifo[0] == id && InFront(s.data.r)
       case CAccount(id, _) => s.data.fifo != [] && s.data.fifo[0] == id && !ReaderRunning(s.data.r)
       case CTake => InRead(s.data.r) && (s.data.r.RGot? || s.data.fifo != [])
       case CClear(id) => !ReaderRunning(s.data.r)
       case CGive(id) => !ReaderRunning(s.data.r) && InWrite(s.cache.w, id)
  }

  predicate InFront(r: Reader<Id>) {
    r == RCall(Front) || (r.ROwn? && r.op.Front?) || r.RFront?
  }

  predicate InRead(r: Reader<Id>) {
    r == RCall(Read) || (r.ROwn? && r.op.Read?) || r.RSeen? || r.RMoved? || r.RErased? || r.RGot?
  }

  predicate InWrite(w: Writer<Id>, id: Id) {
    match w
    case WWrite(x) => x == id
    case WOwn(x, _) => x == id
    case WFree(x, _, _) => x == id
    case WBuilt(x, _, _) => x == id
    case WDone(ok) => ok
    case _ => false
  }

  /** No chunk is in two places, and none is lost but the empty ones. */
  predicate PoolOk(s: State) {
    && NoDup(Held(s))
    && (forall id :: id in Held(s) ==> id < |s.chunks|)
    && |Held(s)| + s.dropped == |s.chunks|
  }

  /** What is known about the size of the data queue's front chunk. */
  datatype FrontRule = Emptied | AnySize | NonEmpty

  function RuleOf(s: State): FrontRule {
    match s.cons
    case CTake => if s.data.r.RGot? then NonEmpty else Emptied
    case CHold(_) => AnySize
    case CPut(_, rotate) => if rotate then Emptied else AnySize
    case CAccount(_, rotate) => if rotate then Emptied else AnySize
    case _ => NonEmpty
  }

  predicate Obeys(bytes: seq<byte>, rule: FrontRule) {
    match rule
    case Emptied => bytes == []
    case AnySize => true
    case NonEmpty => bytes != []
  }

  predicate Fits(chunks: seq<Chunk>) {
    forall id :: 0 <= id < |chunks| ==> |chunks[id].bytes| <= chunks[id].cap
  }

  predicate TailEmpty(chunks: seq<Chunk>, cacheFifo: seq<Id>) {
    forall j :: 1 <= j < |cacheFifo| ==> BytesOf(chunks, cacheFifo[j]) == []
  }

  predicate AllEmpty(chunks: seq<Chunk>, ids: seq<Id>) {
    forall j :: 0 <= j < |ids| ==> BytesOf(chunks, ids[j]) == []
  }

  predicate GivesBytes(chunks: seq<Chunk>, prod: Prod) {
    prod.PGive? ==> BytesOf(chunks, prod.id) != []
  }

  predicate DataFilled(chunks: seq<Chunk>, dataFifo: seq<Id>, rule: FrontRule) {
    && (dataFifo != [] ==> Obeys(BytesOf(chunks, dataFifo[0]), rule))
    && (forall j :: 1 <= j < |dataFifo| ==> BytesOf(chunks, dataFifo[j]) != [])
  }

  /** Which chunks are empty and which are not. */
  predicate ShapeOk(s: State) {
    && Fits(s.chunks)
    && TailEmpty(s.chunks, s.cache.fifo)
    && AllEmpty(s.chunks, ConsFlight(s))
    && (ProdFlight(s) != [] ==> GivesBytes(s.chunks, s.prod))
    && DataFilled(s.chunks, s.data.fifo, RuleOf(s))
  }

  /** The size of a chunk as far as the shared counter knows it. */
  function Counts(s: State): seq<nat> {
    seq(|s.chunks|, i requires 0 <= i < |s.chunks| =>
      if (s.prod.PHold? || s.prod.PPut? || s.prod.PAccount?) && s.prod.id == i then s.cacheLast
      else if (s.cons.CHold? || s.cons.CPut? || s.cons.CAccount?) && s.cons.id == i then s.dataLast
      else |s.chunks[i].bytes|)
  }

  /** A chunk that is in no place any more holds nothing. */
  predicate LostEmpty(s: State) {
    forall id :: 0 <= id < |s.chunks| && id !in Held(s) ==> BytesOf(s.chunks, id) == []
  }

  ghost predicate QueuesOk(s: State) {
    && Good(s.cache) && Good(s.data)
    && |s.cache.ring.slots| == |s.chunks| + 1
    && |s.data.ring.slots| == |s.chunks| + 1
    && ProdAt(s) && ConsAt(s)
  }

  ghost predicate Inv(s: State) {
    && QueuesOk(s)
    && PoolOk(s)
    && ShapeOk(s)
    && LostEmpty(s)
    && Contents(s.chunks, StreamOrder(s)) == s.pipe
    && s.total == Sum(Counts(s))
  }

  // ----- facts about contents -----

  lemma {:induction false} ContentsAppend(chunks: seq<Chunk>, a: seq<Id>, b: seq<Id>)
    ensures Contents(chunks, a + b) == Contents(chunks, a) + Contents(chunks, b)
  {
    if a == [] {
      assert a + b == b;
    } else {
      ContentsAppend(chunks, a[1..], b);
      assert (a + b)[1..] == a[1..] + b && (a + b)[0] == a[0];
      Assoc(BytesOf(chunks, a[0]), Contents(chunks, a[1..]), Contents(chunks, b));
    }
  }

  /** Two pools that agree on the listed chunks have the same contents there. */
  lemma {:induction false} ContentsAgree(chunks: seq<Chunk>, chunks': seq<Chunk>, ids: seq<Id>)
    requires forall id :: id in ids ==> BytesOf(chunks', id) == BytesOf(chunks, id)
    ensures Contents(chunks', ids) == Contents(chunks, ids)
  {
    if ids == [] {
    } else {
      assert ids[0] in ids;
      assert forall id :: id in ids[1..] ==> id in ids;
      ContentsAgree(chunks, chunks', ids[1..]);
    }
  }

  lemma {:induction false} ContentsEmpty(chunks: seq<Chunk>, ids: seq<Id>)
    requires forall j :: 0 <= j < |ids| ==> BytesOf(chunks, ids[j]) == []
    ensures Contents(chunks, ids) == []
  {
    if ids == [] {
    } else {
      ContentsEmpty(chunks, ids[1..]);
    }
  }

  // ----- every step keeps the invariant -----

  lemma BeginRead(c: Channel, r: Reader<Id>)
    requires Good(c) && !ReaderRunning(c.r) && (r.RCall? || r.RIdle?)
    ensures Good(c.(r := r))
  {
    forall j: nat | j < |c.ring.slots|
      ensures Expected(c.w, r, c.fifo, j) == Expected(c.w, c.r, c.fifo, j)
    {
    }
  }

  lemma BeginWrite(c: Channel, id: Id)
    requires Good(c) && !WriterRunning(c.w)
    ensures Good(c.(w := WWrite(id)))
  {
    forall j: nat | j < |c.ring.slots|
      ensures Expected(WWrite(id), c.r, c.fifo, j) == Expected(c.w, c.r, c.fifo, j)
    {
    }
  }

  /** frontPtr points at the oldest chunk of the queue. */
  lemma FrontIsOldest(c: Channel)
    requires Good(c) && c.r.RFront?
    ensures HasFront(c) && c.fifo != [] && FrontId(c) == c.fifo[0]
  {
    assert c.ring.slots[At(|c.ring.slots|, c.ring.readIndex, 0)] == Expected(c.w, c.r, c.fifo, 0);
  }

  /** s' differs from s in program counters and queue registers only, and in no way that the
      invariants about chunks can see. */
  predicate SamePlaces(s: State, s': State) {
    && s'.chunks == s.chunks && s'.pipe == s.pipe && s'.dropped == s.dropped
    && s'.cache.fifo == s.cache.fifo && s'.data.fifo == s.data.fifo
    && ProdFlight(s') == ProdFlight(s) && ConsFlight(s') == ConsFlight(s)
    && (ProdFlight(s) == [] || s'.prod == s.prod)
    && (RuleOf(s') == RuleOf(s) || (s.data.fifo != [] ==> Obeys(BytesOf(s.chunks, s.data.fifo[0]), RuleOf(s'))))
  }

  predicate SameBytes(s: State, s': State) {
    SamePlaces(s, s') && s'.total == s.total && Counts(s') == Counts(s)
  }

  lemma SamePlacesKeeps(s: State, s': State)
    requires PoolOk(s) && ShapeOk(s) && SamePlaces(s, s')
    ensures PoolOk(s') && ShapeOk(s') && StreamOrder(s') == StreamOrder(s) && Held(s') == Held(s)
  {
    assert Held(s') == Held(s);
  }

  lemma FrontsDiffer(s: State)
    requires PoolOk(s)
    ensures s.cache.fifo != [] && s.data.fifo != [] ==> s.cache.fifo[0] != s.data.fifo[0]
  {
    if s.cache.fifo != [] && s.data.fifo != [] {
      assert Held(s)[0] == s.data.fifo[0];
      assert Held(s)[|s.data.fifo + ProdFlight(s)|] == s.cache.fifo[0];
    }
  }

  lemma ProdGetQuiet(s: State)
    requires Enabled(s, ProdGet)
    ensures QueuesOk(s) ==> QueuesOk(Step(s, ProdGet))
    ensures SameBytes(s, Step(s, ProdGet))
  {
    if QueuesOk(s) { BeginRead(s.cache, RCall(IsEmpty)); }
  }

  lemma ProdEmptyQuiet(s: State)
    requires Enabled(s, ProdEmpty)
    ensures QueuesOk(s) ==> QueuesOk(Step(s, ProdEmpty))
    ensures SameBytes(s, Step(s, ProdEmpty))
  {
    if QueuesOk(s) { BeginRead(s.cache, RCall(Front)); }
  }

  lemma ProdFrontQuiet(s: State)
    requires Enabled(s, ProdFront) && QueuesOk(s) && PoolOk(s)
    ensures QueuesOk(Step(s, ProdFront))
    ensures SameBytes(s, Step(s, ProdFront))
  {
    FrontIsOldest(s.cache);
    FrontsDiffer(s);
  }

  lemma ProdPutQuiet(s: State, rotate: bool)
    requires Enabled(s, ProdPut(rotate))
    ensures QueuesOk(s) ==> QueuesOk(Step(s, ProdPut(rotate)))
    ensures SameBytes(s, Step(s, ProdPut(rotate)))
  {
    if QueuesOk(s) { BeginRead(s.cache, RCall(Front)); }
  }

  lemma ProdPutFrontQuiet(s: State)
    requires Enabled(s, ProdPutFront) && QueuesOk(s)
    ensures QueuesOk(s) ==> QueuesOk(Step(s, ProdPutFront))
    ensures SameBytes(s, Step(s, ProdPutFront))
  {
    if QueuesOk(s) { FrontIsOldest(s.cache); }
  }

  lemma ProdGivenQuiet(s: State)
    requires Enabled(s, ProdGiven) && QueuesOk(s)
    ensures QueuesOk(s) ==> QueuesOk(Step(s, ProdGiven))
    ensures SameBytes(s, Step(s, ProdGiven))
  {
  }

  lemma ConsGetQuiet(s: State)
    requires Enabled(s, ConsGet)
    ensures QueuesOk(s) ==> QueuesOk(Step(s, ConsGet))
    ensures SameBytes(s, Step(s, ConsGet))
  {
    if QueuesOk(s) { BeginRead(s.data, RCall(IsEmpty)); }
  }

  lemma ConsEmptyQuiet(s: State)
    requires Enabled(s, ConsEmpty)
    ensures QueuesOk(s) ==> QueuesOk(Step(s, ConsEmpty))
    ensures SameBytes(s, Step(s, ConsEmpty))
  {
    if QueuesOk(s) { BeginRead(s.data, RCall(Front)); }
  }

  lemma ConsFrontQuiet(s: State)
    requires Enabled(s, ConsFront) && QueuesOk(s) && PoolOk(s)
    ensures QueuesOk(Step(s, ConsFront))
    ensures SameBytes(s, Step(s, ConsFront))
  {
    FrontIsOldest(s.data);
    FrontsDiffer(s);
  }

  lemma ConsPutFrontQuiet(s: State)
    requires Enabled(s, ConsPutFront) && QueuesOk(s)
    ensures QueuesOk(s) ==> QueuesOk(Step(s, ConsPutFront))
    ensures SameBytes(s, Step(s, ConsPutFront))
  {
    if QueuesOk(s) { FrontIsOldest(s.data); }
  }

  lemma ConsTakenQuiet(s: State)
    requires Enabled(s, ConsTaken)
    ensures QueuesOk(s) ==> QueuesOk(Step(s, ConsTaken))
    ensures SameBytes(s, Step(s, ConsTaken))
  {
    if QueuesOk(s) { BeginRead(s.data, RIdle); }
  }

  lemma ConsGivenQuiet(s: State)
    requires Enabled(s, ConsGiven) && QueuesOk(s)
    ensures QueuesOk(s) ==> QueuesOk(Step(s, ConsGiven))
    ensures SameBytes(s, Step(s, ConsGiven))
  {
  }


  lemma ConsPutQuiet(s: State, rotate: bool)
    requires Enabled(s, ConsPut(rotate))
    requires QueuesOk(s)
    ensures QueuesOk(Step(s, ConsPut(rotate)))
    ensures SameBytes(s, Step(s, ConsPut(rotate)))
  {
    BeginRead(s.data, RCall(Front));
  }

  /** The producer's read of the cache queue: the chunk moves from the queue into its hands. */
  lemma ProdReadQueues(s: State)
    requires Enabled(s, ProdRead) && QueuesOk(s)
    ensures QueuesOk(Step(s, ProdRead))
    ensures StreamOrder(Step(s, ProdRead)) == StreamOrder(s)
    ensures ConsFlight(Step(s, ProdRead)) == ConsFlight(s)
    ensures var q := Step(s, ProdRead).cache.fifo;
      q == s.cache.fifo || (s.cache.fifo != [] && q == s.cache.fifo[1..])
  {
    ReaderStepRefines(s.cache.ring, s.cache.w, s.cache.r, s.cache.fifo);
    if s.cache.r.RErased? {
      assert s.cache.fifo == [s.cache.r.val] + s.cache.fifo[1..];
    }
  }

  lemma ProdReadKeeps(s: State)
    requires Enabled(s, ProdRead) && Inv(s)
    ensures Inv(Step(s, ProdRead))
  {
    ProdReadQueues(s);
    var s' := Step(s, ProdRead);
    assert Held(s') == Held(s);
    assert Counts(s') == Counts(s);
  }

  /** A chunk in flight leaves room for itself: both queues were built for the whole pool. */
  lemma RoomForFlight(s: State)
    requires PoolOk(s)
    ensures |s.data.fifo| + |ProdFlight(s)| <= |s.chunks|
    ensures |s.cache.fifo| + |ConsFlight(s)| <= |s.chunks|
  {
    Pigeonhole(Held(s), |s.chunks|);
  }

  /** The producer's write on the data queue never fails, and its store moves the chunk from
      the producer's hands to the end of the queue. */
  lemma ProdWriteQueues(s: State)
    requires Enabled(s, ProdWrite) && QueuesOk(s)
    requires |s.data.fifo| + |ProdFlight(s)| <= |s.chunks|
    ensures QueuesOk(Step(s, ProdWrite))
    ensures StreamOrder(Step(s, ProdWrite)) == StreamOrder(s)
    ensures ConsFlight(Step(s, ProdWrite)) == ConsFlight(s)
    ensures Step(s, ProdWrite).data.fifo == s.data.fifo || Step(s, ProdWrite).data.fifo == s.data.fifo + [s.prod.id]
    ensures ProdFlight(s) != []
  {
    WriterStepRefines(s.data.ring, s.data.w, s.data.r, s.data.fifo);
  }

  lemma ProdWriteKeeps(s: State)
    requires Enabled(s, ProdWrite) && Inv(s)
    ensures Inv(Step(s, ProdWrite))
  {
    RoomForFlight(s);
    ProdWriteQueues(s);
    var s' := Step(s, ProdWrite);
    assert Held(s') == Held(s);
    assert Counts(s') == Counts(s);
    assert RuleOf(s') == RuleOf(s);
  }

  lemma ConsReadQueues(s: State)
    requires Enabled(s, ConsRead) && QueuesOk(s)
    ensures QueuesOk(Step(s, ConsRead))
    ensures ProdFlight(Step(s, ConsRead)) == ProdFlight(s)
    ensures var s' := Step(s, ConsRead);
      if s.data.r.RErased? then
        && s.data.fifo != [] && s'.data.fifo == s.data.fifo[1..]
        && ConsFlight(s) == [] && ConsFlight(s') == [s.data.fifo[0]]
      else s'.data.fifo == s.data.fifo && ConsFlight(s') == ConsFlight(s)
  {
    ReaderStepRefines(s.data.ring, s.data.w, s.data.r, s.data.fifo);
  }

  /** Moving the first element of a duplicate-free list to its end. */
  lemma RotateNoDup(q: seq<Id>, q': seq<Id>)
    requires q != [] && NoDup(q) && q' == q[1..] + [q[0]]
    ensures NoDup(q') && |q'| == |q| && forall id :: id in q' <==> id in q
  {
    assert q == [q[0]] + q[1..];
    forall i, j | 0 <= i < j < |q'| ensures q'[i] != q'[j] {
      assert q'[i] == q[i + 1];
    }
  }

  lemma ConsReadPool(s: State)
    requires Enabled(s, ConsRead) && QueuesOk(s) && PoolOk(s) && s.data.r.RErased?
    ensures PoolOk(Step(s, ConsRead))
    ensures forall id :: id in Held(Step(s, ConsRead)) <==> id in Held(s)
    ensures StreamOrder(s) != [] && StreamOrder(Step(s, ConsRead)) == StreamOrder(s)[1..]
    ensures StreamOrder(s)[0] == s.data.fifo[0]
  {
    ConsReadQueues(s);
    var s' := Step(s, ConsRead);
    assert StreamOrder(s') == StreamOrder(s)[1..];
    assert Held(s') == Held(s)[1..] + [Held(s)[0]];
    RotateNoDup(Held(s), Held(s'));
  }

  lemma ConsReadShape(s: State)
    requires Enabled(s, ConsRead) && QueuesOk(s) && ShapeOk(s)
    ensures ShapeOk(Step(s, ConsRead)) && Counts(Step(s, ConsRead)) == Counts(s)
  {
    ConsReadQueues(s);
  }

  lemma ConsReadKeeps(s: State)
    requires Enabled(s, ConsRead) && Inv(s)
    ensures Inv(Step(s, ConsRead))
  {
    ConsReadQueues(s);
    ConsReadShape(s);
    var s' := Step(s, ConsRead);
    if s.data.r.RErased? {
      ConsReadPool(s);
    } else {
      assert StreamOrder(s') == StreamOrder(s);
      assert Held(s') == Held(s);
    }
  }

  lemma ConsWriteQueues(s: State)
    requires Enabled(s, ConsWrite) && QueuesOk(s)
    requires |s.cache.fifo| + |ConsFlight(s)| <= |s.chunks|
    ensures QueuesOk(Step(s, ConsWrite))
    ensures ProdFlight(Step(s, ConsWrite)) == ProdFlight(s)
    ensures ConsFlight(s) == [s.cons.id]
    ensures var s' := Step(s, ConsWrite);
      if s.cache.w.WBuilt? then s'.cache.fifo == s.cache.fifo + [s.cons.id] && ConsFlight(s') == []
      else s'.cache.fifo == s.cache.fifo && ConsFlight(s') == ConsFlight(s)
  {
    WriterStepRefines(s.cache.ring, s.cache.w, s.cache.r, s.cache.fifo);
  }

  lemma ConsWriteKeeps(s: State)
    requires Enabled(s, ConsWrite) && Inv(s)
    ensures Inv(Step(s, ConsWrite))
  {
    RoomForFlight(s);
    ConsWriteQueues(s);
    var s' := Step(s, ConsWrite);
    assert Held(s') == Held(s);
    assert Counts(s') == Counts(s);
    if s.cache.w.WBuilt? {
      assert StreamOrder(s') == StreamOrder(s) + [s.cons.id];
      assert BytesOf(s.chunks, ConsFlight(s)[0]) == [];
      EmptyBehind(s.chunks, StreamOrder(s), s.cons.id);
    }
  }

  lemma EmptyBehind(chunks: seq<Chunk>, ids: seq<Id>, id: Id)
    requires BytesOf(chunks, id) == []
    ensures Contents(chunks, ids + [id]) == Contents(chunks, ids)
  {
    ContentsAppend(chunks, ids, [id]);
    assert Contents(chunks, [id]) == BytesOf(chunks, id) + Contents(chunks, []);
    assert Contents(chunks, ids) + [] == Contents(chunks, ids);
  }

  // ----- edits of a held chunk -----

  /** Replacing one chunk of a duplicate-free order replaces its bytes in place. */
  lemma ContentsEdit(chunks: seq<Chunk>, pre: seq<Id>, id: Id, post: seq<Id>, c: Chunk)
    requires id < |chunks| && id !in pre && id !in post
    ensures Contents(chunks, pre + [id] + post) == Contents(chunks, pre) + (chunks[id].bytes + Contents(chunks, post))
    ensures Contents(chunks[id := c], pre + [id] + post) == Contents(chunks, pre) + (c.bytes + Contents(chunks, post))
  {
    var chunks' := chunks[id := c];
    ContentsAgree(chunks, chunks', pre);
    ContentsAgree(chunks, chunks', post);
    forall cs: seq<Chunk> | cs == chunks || cs == chunks'
      ensures Contents(cs, pre + [id] + post) == Contents(cs, pre) + (BytesOf(cs, id) + Contents(cs, post))
    {
      ContentsAppend(cs, pre + [id], post);
      ContentsAppend(cs, pre, [id]);
      assert Contents(cs, [id]) == BytesOf(cs, id);
      Assoc(Contents(cs, pre), BytesOf(cs, id), Contents(cs, post));
    }
  }

  /** The bytes in front of the producer's chunk. */
  function StreamBefore(s: State): seq<byte> {
    Contents(s.chunks, s.data.fifo + ProdFlight(s))
  }

  /** The bytes behind the consumer's chunk. */
  function StreamBehind(s: State): seq<byte>
    requires s.data.fifo != []
  {
    Contents(s.chunks, s.data.fifo[1..] + ProdFlight(s) + s.cache.fifo)
  }

  /** The producer edits the chunk at the end of the byte stream. */
  lemma ProdEditStream(s: State, c: Chunk)
    requires PoolOk(s) && ShapeOk(s) && s.prod.PHold? && s.cache.fifo != [] && s.cache.fifo[0] == s.prod.id
    ensures s.prod.id < |s.chunks|
    ensures Contents(s.chunks, StreamOrder(s)) == StreamBefore(s) + s.chunks[s.prod.id].bytes
    ensures Contents(s.chunks[s.prod.id := c], StreamOrder(s)) == StreamBefore(s) + c.bytes
  {
    ProdEditOrder(s);
    LastEdit(s.chunks, s.data.fifo + ProdFlight(s), s.prod.id, s.cache.fifo[1..], c);
  }

  /** Where the producer's chunk stands in the byte stream. */
  lemma ProdEditOrder(s: State)
    requires PoolOk(s) && ShapeOk(s) && s.prod.PHold? && s.cache.fifo != [] && s.cache.fifo[0] == s.prod.id
    ensures var id, pre, post := s.prod.id, s.data.fifo + ProdFlight(s), s.cache.fifo[1..];
      id < |s.chunks| && StreamOrder(s) == pre + [id] + post && id !in pre && id !in post && AllEmpty(s.chunks, post)
  {
    CacheFrontDisjoint(s, s.prod.id);
    FrontAndRest(s.data.fifo + ProdFlight(s), s.cache.fifo, ConsFlight(s));
  }

  lemma FrontAndRest(pre: seq<Id>, queue: seq<Id>, flight: seq<Id>)
    requires queue != []
    ensures pre + queue == pre + [queue[0]] + queue[1..] && queue[0] in pre + queue + flight
  {
    assert (pre + queue + flight)[|pre|] == queue[0];
  }

  /** The chunks behind the edited one are empty. */
  lemma LastEdit(chunks: seq<Chunk>, pre: seq<Id>, id: Id, post: seq<Id>, c: Chunk)
    requires id < |chunks| && id !in pre && id !in post && AllEmpty(chunks, post)
    ensures Contents(chunks, pre + [id] + post) == Contents(chunks, pre) + chunks[id].bytes
    ensures Contents(chunks[id := c], pre + [id] + post) == Contents(chunks, pre) + c.bytes
  {
    ContentsEdit(chunks, pre, id, post, c);
    ContentsEmpty(chunks, post);
    assert c.bytes + [] == c.bytes && chunks[id].bytes + [] == chunks[id].bytes;
  }

  /** The consumer edits the chunk at its beginning. */
  lemma ConsEditStream(s: State, c: Chunk)
    requires PoolOk(s) && s.cons.CHold? && s.data.fifo != [] && s.data.fifo[0] == s.cons.id
    ensures s.cons.id < |s.chunks|
    ensures Contents(s.chunks, StreamOrder(s)) == s.chunks[s.cons.id].bytes + StreamBehind(s)
    ensures Contents(s.chunks[s.cons.id := c], StreamOrder(s)) == c.bytes + StreamBehind(s)
  {
    var id, post := s.cons.id, s.data.fifo[1..] + ProdFlight(s) + s.cache.fifo;
    assert Held(s)[0] == id && id in Held(s);
    assert StreamOrder(s) == [] + [id] + post;
    assert forall i :: 0 <= i < |post| ==> Held(s)[1 + i] == post[i];
    FirstEdit(s.chunks, id, post, c);
  }

  lemma FirstEdit(chunks: seq<Chunk>, id: Id, post: seq<Id>, c: Chunk)
    requires id < |chunks| && id !in post
    ensures Contents(chunks, [] + [id] + post) == chunks[id].bytes + Contents(chunks, post)
    ensures Contents(chunks[id := c], [] + [id] + post) == c.bytes + Contents(chunks, post)
  {
    ContentsEdit(chunks, [], id, post, c);
    assert [] + (c.bytes + Contents(chunks, post)) == c.bytes + Contents(chunks, post);
  }

  /** The chunk a client holds is the front of its queue. */
  predicate EditsFront(s: State, id: Id) {
    (s.prod.PHold? && s.prod.id == id) || (s.cons.CHold? && s.cons.id == id)
  }

  lemma EditFree(s: State, s': State, id: Id, c: Chunk)
    requires ProdAt(s) && ConsAt(s) && PoolOk(s) && ShapeOk(s) && id < |s.chunks| && EditsFront(s, id)
    requires s' == s.(chunks := s.chunks[id := c], pipe := s'.pipe)
    ensures TailEmpty(s'.chunks, s'.cache.fifo) && AllEmpty(s'.chunks, ConsFlight(s'))
    ensures ProdFlight(s') != [] ==> GivesBytes(s'.chunks, s'.prod)
  {
    EditDisjoint(s, id);
  }

  lemma EditFilled(s: State, s': State, id: Id, c: Chunk)
    requires ProdAt(s) && ConsAt(s) && PoolOk(s) && ShapeOk(s) && id < |s.chunks| && EditsFront(s, id)
    requires s' == s.(chunks := s.chunks[id := c], pipe := s'.pipe)
    ensures DataFilled(s'.chunks, s'.data.fifo, RuleOf(s'))
  {
    FrontsDiffer(s);
    EditDisjoint(s, id);
  }

  /** An edit of chunk `id` to `c` within its capacity keeps the shape. */
  lemma EditShape(s: State, s': State, id: Id, c: Chunk)
    requires ProdAt(s) && ConsAt(s) && PoolOk(s) && ShapeOk(s) && id < |s.chunks| && |c.bytes| <= c.cap
    requires s' == s.(chunks := s.chunks[id := c], pipe := s'.pipe) && EditsFront(s, id)
    ensures ShapeOk(s')
  {
    EditFree(s, s', id, c);
    EditFilled(s, s', id, c);
  }

  lemma EditFrame(s: State, s': State, id: Id, c: Chunk)
    requires QueuesOk(s) && PoolOk(s) && id < |s.chunks|
    requires s' == s.(chunks := s.chunks[id := c], pipe := s'.pipe) && EditsFront(s, id)
    ensures QueuesOk(s') && PoolOk(s')
    ensures Counts(s') == Counts(s) && Held(s') == Held(s)
    ensures id in Held(s)
  {
    assert Held(s') == Held(s);
    assert s.prod.PHold? && s.prod.id == id ==> Held(s)[|s.data.fifo + ProdFlight(s)|] == id;
    assert s.cons.CHold? && s.cons.id == id ==> Held(s)[0] == id;
  }

  /** Where each list of chunks lies in the list of all. */
  lemma HeldParts(s: State)
    ensures forall j :: 0 <= j < |s.data.fifo| ==> Held(s)[j] == s.data.fifo[j]
    ensures forall j :: 0 <= j < |ProdFlight(s)| ==> Held(s)[|s.data.fifo| + j] == ProdFlight(s)[j]
    ensures forall j :: 0 <= j < |s.cache.fifo| ==> Held(s)[|s.data.fifo + ProdFlight(s)| + j] == s.cache.fifo[j]
    ensures forall j :: 0 <= j < |ConsFlight(s)| ==> Held(s)[|StreamOrder(s)| + j] == ConsFlight(s)[j]
  {
  }

  lemma CacheFrontDisjoint(s: State, id: Id)
    requires PoolOk(s) && s.cache.fifo != [] && s.cache.fifo[0] == id
    ensures forall j :: 1 <= j < |s.cache.fifo| ==> s.cache.fifo[j] != id
    ensures id !in s.data.fifo && id !in ConsFlight(s) && id !in ProdFlight(s)
  {
    HeldParts(s);
    assert Held(s)[|s.data.fifo + ProdFlight(s)|] == id;
  }

  lemma DataFrontDisjoint(s: State, id: Id)
    requires PoolOk(s) && s.data.fifo != [] && s.data.fifo[0] == id
    ensures forall j :: 1 <= j < |s.data.fifo| ==> s.data.fifo[j] != id
    ensures id !in s.cache.fifo && id !in ConsFlight(s) && id !in ProdFlight(s)
  {
    HeldParts(s);
    assert Held(s)[0] == id;
  }

  /** A chunk at the front of one queue is nowhere else. */
  lemma EditDisjoint(s: State, id: Id)
    requires PoolOk(s)
    requires (s.cache.fifo != [] && s.cache.fifo[0] == id) || (s.data.fifo != [] && s.data.fifo[0] == id)
    ensures forall j :: 1 <= j < |s.cache.fifo| ==> s.cache.fifo[j] != id
    ensures forall j :: 1 <= j < |s.data.fifo| ==> s.data.fifo[j] != id
    ensures s.cache.fifo != [] && s.cache.fifo[0] == id ==> id !in s.data.fifo
    ensures s.data.fifo != [] && s.data.fifo[0] == id ==> id !in s.cache.fifo
    ensures id !in ConsFlight(s) && id !in ProdFlight(s)
  {
    if s.cache.fifo != [] && s.cache.fifo[0] == id {
      CacheFrontDisjoint(s, id);
    } else {
      DataFrontDisjoint(s, id);
    }
  }

  /** An edit that changes the stream as it changes the bytes in transit keeps the invariant. */
  lemma EditKeeps(s: State, s': State, id: Id, c: Chunk)
    requires Inv(s) && id < |s.chunks| && |c.bytes| <= c.cap && EditsFront(s, id)
    requires s' == s.(chunks := s.chunks[id := c], pipe := s'.pipe)
    requires Contents(s'.chunks, StreamOrder(s)) == s'.pipe
    ensures Inv(s')
  {
    EditShape(s, s', id, c);
    EditFrame(s, s', id, c);
    assert StreamOrder(s') == StreamOrder(s);
  }

  lemma AppendStream(s: State, c: Chunk, bs: seq<byte>)
    requires PoolOk(s) && ShapeOk(s) && s.prod.PHold? && s.cache.fifo != [] && s.cache.fifo[0] == s.prod.id
    requires s.prod.id < |s.chunks| && c.bytes == s.chunks[s.prod.id].bytes + bs
    ensures Contents(s.chunks[s.prod.id := c], StreamOrder(s)) == Contents(s.chunks, StreamOrder(s)) + bs
  {
    ProdEditStream(s, c);
    Assoc(StreamBefore(s), s.chunks[s.prod.id].bytes, bs);
  }

  lemma ProdAppendKeeps(s: State, bs: seq<byte>, cap: nat, tag: int)
    requires Enabled(s, ProdAppend(bs, cap, tag)) && Inv(s)
    ensures Inv(Step(s, ProdAppend(bs, cap, tag)))
  {
    var c := Appended(s.chunks[s.prod.id], bs, cap, tag);
    assert c.bytes == s.chunks[s.prod.id].bytes + bs;
    AppendStream(s, c, bs);
    EditKeeps(s, Step(s, ProdAppend(bs, cap, tag)), s.prod.id, c);
  }

  lemma ProdClearKeeps(s: State)
    requires Enabled(s, ProdClear) && Inv(s)
    ensures Inv(Step(s, ProdClear))
  {
    var c := s.chunks[s.prod.id].(bytes := []);
    ProdEditStream(s, c);
    assert StreamBefore(s) + [] == StreamBefore(s);
    EditKeeps(s, Step(s, ProdClear), s.prod.id, c);
  }

  lemma DropStream(s: State, c: Chunk, k: nat)
    requires PoolOk(s) && s.cons.CHold? && s.data.fifo != [] && s.data.fifo[0] == s.cons.id
    requires s.cons.id < |s.chunks| && k <= |s.chunks[s.cons.id].bytes| && c.bytes == s.chunks[s.cons.id].bytes[k..]
    ensures k <= |Contents(s.chunks, StreamOrder(s))|
    ensures Contents(s.chunks[s.cons.id := c], StreamOrder(s)) == Contents(s.chunks, StreamOrder(s))[k..]
  {
    ConsEditStream(s, c);
    DropPrefix(s.chunks[s.cons.id].bytes, StreamBehind(s), k);
  }

  lemma ConsDropKeeps(s: State, k: nat)
    requires Enabled(s, ConsDrop(k)) && Inv(s)
    ensures Inv(Step(s, ConsDrop(k)))
  {
    var c := Dropped(s.chunks[s.cons.id], k);
    DropStream(s, c, k);
    EditKeeps(s, Step(s, ConsDrop(k)), s.cons.id, c);
  }

  lemma PrependStream(s: State, c: Chunk, bs: seq<byte>)
    requires PoolOk(s) && s.cons.CHold? && s.data.fifo != [] && s.data.fifo[0] == s.cons.id
    requires s.cons.id < |s.chunks| && c.bytes == bs + s.chunks[s.cons.id].bytes
    ensures Contents(s.chunks[s.cons.id := c], StreamOrder(s)) == bs + Contents(s.chunks, StreamOrder(s))
  {
    ConsEditStream(s, c);
    Assoc(bs, s.chunks[s.cons.id].bytes, StreamBehind(s));
  }

  lemma ConsPrependKeeps(s: State, bs: seq<byte>, cap: nat, tag: int)
    requires Enabled(s, ConsPrepend(bs, cap, tag)) && Inv(s)
    ensures Inv(Step(s, ConsPrepend(bs, cap, tag)))
  {
    var c := Prepended(s.chunks[s.cons.id], bs, cap, tag);
    PrependStream(s, c, bs);
    EditKeeps(s, Step(s, ConsPrepend(bs, cap, tag)), s.cons.id, c);
  }

  // ----- counter updates and the rest of the rotations -----

  lemma ProdAccountSteps(s: State)
    requires Enabled(s, ProdAccount) && QueuesOk(s)
    requires ShapeOk(s)
    ensures QueuesOk(Step(s, ProdAccount))
    ensures SamePlaces(s, Step(s, ProdAccount))
  {
    BeginRead(s.cache, RCall(Read));
  }

  lemma ProdAccountCounts(s: State)
    requires Enabled(s, ProdAccount) && ProdAt(s) && ConsAt(s) && PoolOk(s)
    ensures s.prod.id < |Counts(s)| && Counts(s)[s.prod.id] == s.cacheLast
    ensures Counts(Step(s, ProdAccount)) == Counts(s)[s.prod.id := |s.chunks[s.prod.id].bytes|]
  {
    FrontsDiffer(s);
  }

  lemma ProdAccountKeeps(s: State)
    requires Enabled(s, ProdAccount) && Inv(s)
    ensures Inv(Step(s, ProdAccount))
  {
    ProdAccountSteps(s);
    ProdAccountCounts(s);
    SamePlacesKeeps(s, Step(s, ProdAccount));
    SumUpdate(Counts(s), s.prod.id, |s.chunks[s.prod.id].bytes|);
  }

  lemma ConsAccountSteps(s: State)
    requires Enabled(s, ConsAccount) && QueuesOk(s)
    requires ShapeOk(s)
    ensures QueuesOk(Step(s, ConsAccount))
    ensures SamePlaces(s, Step(s, ConsAccount))
  {
    BeginRead(s.data, RCall(Read));
  }

  lemma ConsAccountCounts(s: State)
    requires Enabled(s, ConsAccount) && ProdAt(s) && ConsAt(s) && PoolOk(s)
    ensures s.cons.id < |Counts(s)| && Counts(s)[s.cons.id] == s.dataLast
    ensures Counts(Step(s, ConsAccount)) == Counts(s)[s.cons.id := |s.chunks[s.cons.id].bytes|]
  {
    FrontsDiffer(s);
  }

  lemma ConsAccountKeeps(s: State)
    requires Enabled(s, ConsAccount) && Inv(s)
    ensures Inv(Step(s, ConsAccount))
  {
    ConsAccountSteps(s);
    ConsAccountCounts(s);
    SamePlacesKeeps(s, Step(s, ConsAccount));
    SumUpdate(Counts(s), s.cons.id, |s.chunks[s.cons.id].bytes|);
  }

  lemma ProdTakenQueues(s: State)
    requires Enabled(s, ProdTaken) && QueuesOk(s)
    ensures QueuesOk(Step(s, ProdTaken))
  {
    BeginRead(s.cache, RIdle);
    BeginWrite(s.data, s.cache.r.val);
  }

  lemma ContentsSkip(chunks: seq<Chunk>, a: seq<Id>, id: Id, b: seq<Id>)
    requires BytesOf(chunks, id) == []
    ensures Contents(chunks, a + [id] + b) == Contents(chunks, a + b)
  {
    ContentsAppend(chunks, a + [id], b);
    ContentsAppend(chunks, a, [id]);
    ContentsAppend(chunks, a, b);
    assert Contents(chunks, [id]) == [];
  }

  /** rotate_cache drops the chunk in its hands when that chunk is empty. */
  lemma ProdTakenDrops(s: State)
    requires Enabled(s, ProdTaken) && PoolOk(s) && LostEmpty(s) && BytesOf(s.chunks, s.cache.r.val) == []
    ensures PoolOk(Step(s, ProdTaken)) && LostEmpty(Step(s, ProdTaken))
  {
    var s', id := Step(s, ProdTaken), s.cache.r.val;
    RemoveNoDup(Held(s), |s.data.fifo|, Held(s'));
  }

  lemma ProdTakenStream(s: State)
    requires Enabled(s, ProdTaken) && BytesOf(s.chunks, s.cache.r.val) == []
    ensures Contents(s.chunks, StreamOrder(Step(s, ProdTaken))) == Contents(s.chunks, StreamOrder(s))
  {
    ContentsSkip(s.chunks, s.data.fifo, s.cache.r.val, s.cache.fifo);
    assert StreamOrder(Step(s, ProdTaken)) == s.data.fifo + s.cache.fifo;
  }

  lemma ProdTakenGives(s: State)
    requires Enabled(s, ProdTaken) && BytesOf(s.chunks, s.cache.r.val) != []
    ensures Held(Step(s, ProdTaken)) == Held(s) && StreamOrder(Step(s, ProdTaken)) == StreamOrder(s)
  {
  }

  lemma ProdTakenShape(s: State)
    requires Enabled(s, ProdTaken) && ShapeOk(s)
    ensures ShapeOk(Step(s, ProdTaken))
    ensures Counts(Step(s, ProdTaken)) == Counts(s)
  {
  }

  lemma ProdTakenKeeps(s: State)
    requires Enabled(s, ProdTaken) && Inv(s)
    ensures Inv(Step(s, ProdTaken))
  {
    ProdTakenQueues(s);
    ProdTakenShape(s);
    if BytesOf(s.chunks, s.cache.r.val) == [] {
      ProdTakenDrops(s);
      ProdTakenStream(s);
    } else {
      ProdTakenGives(s);
    }
  }

  lemma ConsClearedQueues(s: State)
    requires Enabled(s, ConsCleared) && QueuesOk(s)
    ensures QueuesOk(Step(s, ConsCleared))
  {
    BeginWrite(s.cache, s.cons.id);
  }

  /** The chunk is empty when rotate_data clears it, so nothing changes but the hands. */
  lemma ConsClearedShape(s: State)
    requires Enabled(s, ConsCleared) && ShapeOk(s)
    ensures var s' := Step(s, ConsCleared);
      ShapeOk(s') && s'.chunks == s.chunks && Counts(s') == Counts(s)
      && Held(s') == Held(s) && StreamOrder(s') == StreamOrder(s)
  {
    assert BytesOf(s.chunks, ConsFlight(s)[0]) == [];
    assert Step(s, ConsCleared).chunks == s.chunks;
  }

  lemma ConsClearedKeeps(s: State)
    requires Enabled(s, ConsCleared) && Inv(s)
    ensures Inv(Step(s, ConsCleared))
  {
    ConsClearedQueues(s);
    ConsClearedShape(s);
  }

  predicate Quiet(e: Event) {
    e.ProdGet? || e.ProdEmpty? || e.ProdFront? || e.ProdPut? || e.ProdPutFront? || e.ProdGiven? ||
    e.ConsGet? || e.ConsEmpty? || e.ConsFront? || e.ConsPut? || e.ConsPutFront? || e.ConsTaken? || e.ConsGiven?
  }

  lemma QuietStep(s: State, e: Event)
    requires Enabled(s, e) && QueuesOk(s) && PoolOk(s) && Quiet(e)
    ensures QueuesOk(Step(s, e)) && SameBytes(s, Step(s, e))
  {
    match e
    case ProdGet => ProdGetQuiet(s);
    case ProdEmpty => ProdEmptyQuiet(s);
    case ProdFront => ProdFrontQuiet(s);
    case ProdPut(rotate) => ProdPutQuiet(s, rotate);
    case ProdPutFront => ProdPutFrontQuiet(s);
    case ProdGiven => ProdGivenQuiet(s);
    case ConsGet => ConsGetQuiet(s);
    case ConsEmpty => ConsEmptyQuiet(s);
    case ConsFront => ConsFrontQuiet(s);
    case ConsPut(rotate) => ConsPutQuiet(s, rotate);
    case ConsPutFront => ConsPutFrontQuiet(s);
    case ConsTaken => ConsTakenQuiet(s);
    case ConsGiven => ConsGivenQuiet(s);
  }

  lemma QuietKeeps(s: State, e: Event)
    requires Enabled(s, e) && Inv(s) && Quiet(e)
    ensures Inv(Step(s, e))
  {
    QuietStep(s, e);
    SamePlacesKeeps(s, Step(s, e));
  }

  lemma ProdStepKeeps(s: State, e: Event)
    requires Enabled(s, e) && Inv(s)
    requires e.ProdRead? || e.ProdWrite? || e.ProdAppend? || e.ProdClear? || e.ProdAccount? || e.ProdTaken?
    ensures Inv(Step(s, e))
  {
    match e
    case ProdRead => ProdReadKeeps(s);
    case ProdWrite => ProdWriteKeeps(s);
    case ProdAppend(bs, cap, tag) => ProdAppendKeeps(s, bs, cap, tag);
    case ProdClear => ProdClearKeeps(s);
    case ProdAccount => ProdAccountKeeps(s);
    case ProdTaken => ProdTakenKeeps(s);
  }

  lemma ConsStepKeeps(s: State, e: Event)
    requires Enabled(s, e) && Inv(s)
    requires e.ConsRead? || e.ConsWrite? || e.ConsDrop? || e.ConsPrepend? || e.ConsAccount? || e.ConsCleared?
    ensures Inv(Step(s, e))
  {
    match e
    case ConsRead => ConsReadKeeps(s);
    case ConsWrite => ConsWriteKeeps(s);
    case ConsDrop(k) => ConsDropKeeps(s, k);
    case ConsPrepend(bs, cap, tag) => ConsPrependKeeps(s, bs, cap, tag);
    case ConsAccount => ConsAccountKeeps(s);
    case ConsCleared => ConsClearedKeeps(s);
  }

  lemma StepKeepsInv(s: State, e: Event)
    requires Enabled(s, e) && Inv(s)
    ensures Inv(Step(s, e))
  {
    if Quiet(e) {
      QuietKeeps(s, e);
    } else if e.ProdRead? || e.ProdWrite? || e.ProdAppend? || e.ProdClear? || e.ProdAccount? || e.ProdTaken? {
      ProdStepKeeps(s, e);
    } else {
      ConsStepKeeps(s, e);
    }
  }
}
