/** A run in which the byte counter is below the bytes in the data queue: one chunk of two bytes, of
    which the producer fills one; the consumer puts a byte back in front of it. */
module CounterRun {
  import opened RingSteps
  import opened Pipeline
  import opened PipelineRuns

  /** The rings of the two queues: chunk 0 in the first slot, while it is read out of it, nothing
      after that, nothing from the beginning, and while it is written. */
  const FULL: Ring<Id> := Ring([Live(0), Raw], 0, 1)
  const MOVED: Ring<Id> := Ring([MovedFrom, Raw], 0, 1)
  const ERASED: Ring<Id> := Ring([Raw, Raw], 0, 1)
  const TAKEN: Ring<Id> := Ring([Raw, Raw], 1, 1)
  const NEVER: Ring<Id> := Ring([Raw, Raw], 0, 0)
  const BUILT: Ring<Id> := Ring([Live(0), Raw], 0, 0)

  const EMPTY := Chunk(0, [], 2, true)
  const FILLED := Chunk(0, [7], 2, true)
  const LONGER := Chunk(0, [9, 7], 2, false)

  /** The cache queue's front is asked for, filled and handed over. */
  function Producing(r: Reader<Id>, c: Chunk, total: nat, prod: Prod): State {
    State(Channel(FULL, WIdle, r, [0]), Channel(NEVER, WIdle, RIdle, []), [c], total, 0, 0, prod, CIdle, c.bytes, 0)
  }

  /** rotate_cache. */
  function Rotating(cache: Channel, data: Channel, prod: Prod): State {
    State(cache, data, [FILLED], 1, 0, 0, prod, CIdle, [7], 0)
  }

  function Written(g: Ring<Id>, w: Writer<Id>): State {
    Rotating(Channel(TAKEN, WIdle, RIdle, []), Channel(g, w, RIdle, []), PGive(0))
  }

  /** The data queue's front is asked for. */
  function Consuming(r: Reader<Id>, dataLast: nat, cons: Cons): State {
    State(Channel(TAKEN, WIdle, RIdle, []), Channel(FULL, WDone(true), r, [0]), [FILLED], 1, 0, dataLast,
          PIdle, cons, [7], 0)
  }

  /** Each state follows from the one before. */
  ghost predicate Path(q: seq<State>) {
    q != [] && forall i :: 0 <= i < |q| - 1 ==> Next(q[i], q[i + 1])
  }

  lemma Joined(a: seq<State>, b: seq<State>)
    requires Path(a) && Path(b) && a[|a| - 1] == b[0]
    ensures Path(a + b[1..]) && (a + b[1..])[0] == a[0] && (a + b[1..])[|a + b[1..]| - 1] == b[|b| - 1]
  {
    var q := a + b[1..];
    forall i | 0 <= i < |q| - 1
      ensures Next(q[i], q[i + 1])
    {
      if i < |a| - 1 {
        assert Next(a[i], a[i + 1]);
      } else {
        var j := i - (|a| - 1);
        assert Next(b[j], b[j + 1]) && q[i] == b[j] && q[i + 1] == b[j + 1];
      }
    }
  }

  /** An event leads from s to s'. */
  lemma Leads(s: State, e: Event, s': State)
    requires Enabled(s, e) && Step(s, e) == s'
    ensures Next(s, s')
  {
  }

  const FIRST := Producing(RIdle, EMPTY, 0, PIdle)
  const ASKED := Producing(RCall(Front), EMPTY, 0, PAskFront)
  const HELD := Producing(RFront(0), EMPTY, 0, PHold(0))
  const PUT := Producing(RCall(Front), FILLED, 0, PPut(0, true))
  const ROTATES := Producing(RCall(Read), FILLED, 1, PTake)
  const SEEN := Producing(RSeen(0), FILLED, 1, PTake)
  const OUT := Rotating(Channel(TAKEN, WIdle, RGot(0), []), Channel(NEVER, WIdle, RIdle, []), PTake)
  const GIVES := Written(NEVER, WFree(0, 0, 1))
  const HANDED := Consuming(RIdle, 0, CIdle)
  const TOLD := Consuming(REmpty(false), 0, CAskEmpty)
  const READY := Consuming(RCall(Front), 0, CAskFront)
  const GOT := Consuming(RFront(0), 1, CHold(0))
  const LAST := GOT.(chunks := [LONGER], pipe := [9, 7])

  lemma ProdAsks() returns (q: seq<State>)
    ensures Path(q) && q[0] == FIRST && q[|q| - 1] == ASKED
  {
    var s1 := Producing(RCall(IsEmpty), EMPTY, 0, PAskEmpty);
    var s2 := Producing(ROwn(IsEmpty, 0), EMPTY, 0, PAskEmpty);
    var s3 := Producing(REmpty(false), EMPTY, 0, PAskEmpty);
    Leads(FIRST, ProdGet, s1);
    Leads(s1, ProdRead, s2);
    Leads(s2, ProdRead, s3);
    Leads(s3, ProdEmpty, ASKED);
    q := [FIRST, s1, s2, s3, ASKED];
  }

  lemma ProdGets() returns (q: seq<State>)
    ensures Path(q) && q[0] == ASKED && q[|q| - 1] == HELD
  {
    var s1, s2 := Producing(ROwn(Front, 0), EMPTY, 0, PAskFront), Producing(RFront(0), EMPTY, 0, PAskFront);
    Leads(ASKED, ProdRead, s1);
    Leads(s1, ProdRead, s2);
    Leads(s2, ProdFront, HELD);
    q := [ASKED, s1, s2, HELD];
  }

  lemma ProdFills() returns (q: seq<State>)
    ensures Path(q) && q[0] == HELD && q[|q| - 1] == PUT
  {
    var s1 := Producing(RFront(0), FILLED, 0, PHold(0));
    assert [] + [7] == [7] && [EMPTY][0 := FILLED] == [FILLED];
    Leads(HELD, ProdAppend([7], 2, 0), s1);
    Leads(s1, ProdPut(true), PUT);
    q := [HELD, s1, PUT];
  }

  lemma ProdPuts() returns (q: seq<State>)
    ensures Path(q) && q[0] == PUT && q[|q| - 1] == ROTATES
  {
    var s1, s2 := Producing(ROwn(Front, 0), FILLED, 0, PPut(0, true)), Producing(RFront(0), FILLED, 0, PPut(0, true));
    var s3 := Producing(RFront(0), FILLED, 0, PAccount(0, true));
    Leads(PUT, ProdRead, s1);
    Leads(s1, ProdRead, s2);
    Leads(s2, ProdPutFront, s3);
    Leads(s3, ProdAccount, ROTATES);
    q := [PUT, s1, s2, s3, ROTATES];
  }

  lemma ProdLooks() returns (q: seq<State>)
    ensures Path(q) && q[0] == ROTATES && q[|q| - 1] == SEEN
  {
    var s1 := Producing(ROwn(Read, 0), FILLED, 1, PTake);
    Leads(ROTATES, ProdRead, s1);
    Leads(s1, ProdRead, SEEN);
    q := [ROTATES, s1, SEEN];
  }

  lemma ProdReads() returns (q: seq<State>)
    ensures Path(q) && q[0] == SEEN && q[|q| - 1] == OUT
  {
    var data := Channel(NEVER, WIdle, RIdle, []);
    var s1 := Rotating(Channel(MOVED, WIdle, RMoved(0, 0), [0]), data, PTake);
    var s2 := Rotating(Channel(ERASED, WIdle, RErased(0, 0), [0]), data, PTake);
    assert FULL.slots[0 := MovedFrom] == MOVED.slots && MOVED.slots[0 := Raw] == ERASED.slots;
    assert ReaderFifo<Id>(RErased(0, 0), [0]) == [];
    Leads(SEEN, ProdRead, s1);
    Leads(s1, ProdRead, s2);
    Leads(s2, ProdRead, OUT);
    q := [SEEN, s1, s2, OUT];
  }

  lemma ProdGives() returns (q: seq<State>)
    ensures Path(q) && q[0] == OUT && q[|q| - 1] == GIVES
  {
    var s1, s2 := Written(NEVER, WWrite(0)), Written(NEVER, WOwn(0, 0));
    Leads(OUT, ProdTaken, s1);
    Leads(s1, ProdWrite, s2);
    Leads(s2, ProdWrite, GIVES);
    q := [OUT, s1, s2, GIVES];
  }

  lemma ProdWrites() returns (q: seq<State>)
    ensures Path(q) && q[0] == GIVES && q[|q| - 1] == HANDED
  {
    var s1 := Written(BUILT, WBuilt(0, 0, 1));
    var s2 := Rotating(Channel(TAKEN, WIdle, RIdle, []), Channel(FULL, WDone(true), RIdle, [0]), PGive(0));
    assert NEVER.slots[0 := Live(0)] == BUILT.slots && WriterFifo<Id>(WBuilt(0, 0, 1), []) == [0];
    Leads(GIVES, ProdWrite, s1);
    Leads(s1, ProdWrite, s2);
    Leads(s2, ProdGiven, HANDED);
    q := [GIVES, s1, s2, HANDED];
  }

  lemma ConsAsks() returns (q: seq<State>)
    ensures Path(q) && q[0] == HANDED && q[|q| - 1] == TOLD
  {
    var s1, s2 := Consuming(RCall(IsEmpty), 0, CAskEmpty), Consuming(ROwn(IsEmpty, 0), 0, CAskEmpty);
    Leads(HANDED, ConsGet, s1);
    Leads(s1, ConsRead, s2);
    Leads(s2, ConsRead, TOLD);
    q := [HANDED, s1, s2, TOLD];
  }

  lemma ConsHears() returns (q: seq<State>)
    ensures Path(q) && q[0] == TOLD && q[|q| - 1] == READY
  {
    Leads(TOLD, ConsEmpty, READY);
    q := [TOLD, READY];
  }

  lemma ConsGets() returns (q: seq<State>)
    ensures Path(q) && q[0] == READY && q[|q| - 1] == GOT
  {
    var s1, s2 := Consuming(ROwn(Front, 0), 0, CAskFront), Consuming(RFront(0), 0, CAskFront);
    Leads(READY, ConsRead, s1);
    Leads(s1, ConsRead, s2);
    Leads(s2, ConsFront, GOT);
    q := [READY, s1, s2, GOT];
  }

  lemma ConsPutsBack() returns (q: seq<State>)
    ensures Path(q) && q[0] == GOT && q[|q| - 1] == LAST
  {
    assert [9] + [7] == [9, 7] && [FILLED][0 := LONGER] == [LONGER];
    Leads(GOT, ConsPrepend([9], 2, 0), LAST);
    q := [GOT, LAST];
  }

  lemma Begins()
    ensures Constructed(1, 2) == FIRST
  {
    assert seq(2, i => if i < 1 then Live(i) else Raw) == [Live(0), Raw];
    assert NewRing<Id>(2).slots == [Raw, Raw];
    assert seq(1, i => i) == [0] && seq(1, _ => EMPTY) == [EMPTY];
  }

  lemma Further(a: seq<State>, b: seq<State>) returns (q: seq<State>)
    requires Path(a) && Path(b) && a[|a| - 1] == b[0]
    ensures Path(q) && q[0] == a[0] && q[|q| - 1] == b[|b| - 1]
  {
    Joined(a, b);
    q := a + b[1..];
  }

  /** From the constructor to the chunk in the data queue. */
  lemma HandsOver() returns (q: seq<State>)
    ensures Path(q) && q[0] == FIRST && q[|q| - 1] == HANDED
  {
    q := ProdAsks();
    var next := ProdGets();
    q := Further(q, next);
    next := ProdFills();
    q := Further(q, next);
    next := ProdPuts();
    q := Further(q, next);
    next := ProdLooks();
    q := Further(q, next);
    next := ProdReads();
    q := Further(q, next);
    next := ProdGives();
    q := Further(q, next);
    next := ProdWrites();
    q := Further(q, next);
  }

  /** The consumer puts a byte back in front of the chunk, as a seek back does, and has not reported
      it yet: at the end of this run the data queue holds two bytes and the counter says one. */
  lemma CounterFallsBehind() returns (trace: seq<State>)
    ensures Run(trace, 1, 2)
    ensures var s := trace[|trace| - 1]; s.total == 1 && Contents(s.chunks, s.data.fifo) == [9, 7]
  {
    trace := HandsOver();
    var next := ConsAsks();
    trace := Further(trace, next);
    next := ConsHears();
    trace := Further(trace, next);
    next := ConsGets();
    trace := Further(trace, next);
    next := ConsPutsBack();
    trace := Further(trace, next);
    Begins();
    assert Contents([LONGER], [0]) == [9, 7] + Contents([LONGER], []);
  }
}
