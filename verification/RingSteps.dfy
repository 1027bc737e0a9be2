/** The ring queue of producerconsumerqueue.h as a step system: one writer thread and one
    reader thread, one step per index load, slot access or index store, interleaved in any
    order under sequential consistency. The queue is shown to refine a bounded FIFO. */
module RingSteps {

  /** A slot of the malloc'ed array: raw memory, a live object, or a moved-from object that
      still has to be destroyed. */
  datatype Slot<T> = Raw | Live(value: T) | MovedFrom

  datatype Ring<T> = Ring(slots: seq<Slot<T>>, readIndex: nat, writeIndex: nat)

  function Succ(size: nat, i: nat): nat {
    if i + 1 == size then 0 else i + 1
  }

  /** The j-th slot counted from index `base`, for a base inside the array and j <= size. */
  function At(size: nat, base: nat, j: nat): nat {
    if base + j < size then base + j else base + j - size
  }

  /** Program counter and registers of the writer: `write`, `isFull` and `sizeGuess`. */
  datatype Writer<T> =
    | WIdle
    | WWrite(x: T)
    | WOwn(x: T, cur: nat)              // writeIndex loaded
    | WFree(x: T, cur: nat, next: nat)  // readIndex loaded, a free slot was seen
    | WBuilt(x: T, cur: nat, next: nat) // object constructed in the slot
    | WDone(ok: bool)
    | WAskFull | WFullOwn(next: nat) | WFull(full: bool)
    | WAskSize | WSizeOwn(w: nat) | WSize(n: int)

  datatype ReadOp = Read | Front | IsEmpty

  /** Program counter and registers of the reader: `read`, `frontPtr`, `isEmpty`, `popFront`,
      `sizeGuess`. */
  datatype Reader<T> =
    | RIdle
    | RCall(op: ReadOp)
    | ROwn(op: ReadOp, cur: nat)        // readIndex loaded
    | RSeen(cur: nat)                   // writeIndex loaded, not empty
    | RMoved(cur: nat, val: T)          // object moved out of the slot
    | RErased(cur: nat, val: T)         // moved-from object destroyed
    | RGot(val: T)
    | RNone                             // `read` returned false, `frontPtr` returned nullptr
    | RFront(cur: nat)
    | REmpty(empty: bool)
    | RPop                              // `popFront`, called on a queue that is not empty
    | RPopOwn(cur: nat)                 // readIndex loaded
    | RPopErased(cur: nat)              // object destroyed in the slot
    | RPopped
    | RAskSize | RSizeOwn(w: nat) | RSize(n: int)

  predicate WriterRunning<T>(w: Writer<T>) {
    w.WWrite? || w.WOwn? || w.WFree? || w.WBuilt? || w.WAskFull? || w.WFullOwn? || w.WAskSize? || w.WSizeOwn?
  }

  predicate ReaderRunning<T>(rd: Reader<T>) {
    rd.RCall? || rd.ROwn? || rd.RSeen? || rd.RMoved? || rd.RErased? || rd.RPop? || rd.RPopOwn? || rd.RPopErased? ||
    rd.RAskSize? || rd.RSizeOwn?
  }

  /** Constructing an object is defined only over raw memory inside the array. */
  predicate WriterStepDefined<T>(g: Ring<T>, w: Writer<T>) {
    w.WFree? ==> w.cur < |g.slots| && g.slots[w.cur].Raw?
  }

  /** Moving out needs a live object; destroying needs a moved-from one, or in popFront a live one. */
  predicate ReaderStepDefined<T>(g: Ring<T>, rd: Reader<T>) {
    && (rd.RSeen? ==> rd.cur < |g.slots| && g.slots[rd.cur].Live?)
    && (rd.RMoved? ==> rd.cur < |g.slots| && g.slots[rd.cur].MovedFrom?)
    && (rd.RPopOwn? ==> rd.cur < |g.slots| && g.slots[rd.cur].Live?)
  }

  /** The value `sizeGuess` computes from its two loads. */
  function GuessOf(size: nat, writeIndex: nat, readIndex: nat): int {
    if writeIndex - readIndex < 0 then writeIndex - readIndex + size else writeIndex - readIndex
  }

  function WriterStep<T>(g: Ring<T>, w: Writer<T>): (Ring<T>, Writer<T>)
    requires WriterRunning(w) && WriterStepDefined(g, w)
  {
    match w
    case WWrite(x) => (g, WOwn(x, g.writeIndex))
    case WOwn(x, cur) =>
      var next := Succ(|g.slots|, cur);
      (g, if next != g.readIndex then WFree(x, cur, next) else WDone(false))
    case WFree(x, cur, next) => (g.(slots := g.slots[cur := Live(x)]), WBuilt(x, cur, next))
    case WBuilt(x, cur, next) => (g.(writeIndex := next), WDone(true))
    case WAskFull => (g, WFullOwn(Succ(|g.slots|, g.writeIndex)))
    case WFullOwn(next) => (g, WFull(next == g.readIndex))
    case WAskSize => (g, WSizeOwn(g.writeIndex))
    case WSizeOwn(i) => (g, WSize(GuessOf(|g.slots|, i, g.readIndex)))
  }

  function ReaderStep<T>(g: Ring<T>, rd: Reader<T>): (Ring<T>, Reader<T>)
    requires ReaderRunning(rd) && ReaderStepDefined(g, rd)
  {
    match rd
    case RCall(op) => (g, ROwn(op, g.readIndex))
    case ROwn(op, cur) =>
      (g, if op.IsEmpty? then REmpty(cur == g.writeIndex)
          else if cur == g.writeIndex then RNone
          else if op.Front? then RFront(cur) else RSeen(cur))
    case RSeen(cur) => (g.(slots := g.slots[cur := MovedFrom]), RMoved(cur, g.slots[cur].value))
    case RMoved(cur, val) => (g.(slots := g.slots[cur := Raw]), RErased(cur, val))
    case RErased(cur, val) => (g.(readIndex := Succ(|g.slots|, cur)), RGot(val))
    case RPop => (g, RPopOwn(g.readIndex))
    case RPopOwn(cur) => (g.(slots := g.slots[cur := Raw]), RPopErased(cur))
    case RPopErased(cur) => (g.(readIndex := Succ(|g.slots|, cur)), RPopped)
    case RAskSize => (g, RSizeOwn(g.writeIndex))
    case RSizeOwn(i) => (g, RSize(GuessOf(|g.slots|, i, g.readIndex)))
  }

  /** The FIFO after a step: an element enters when writeIndex is stored and leaves when
      readIndex is stored; every other step leaves the FIFO as it is. */
  function WriterFifo<T>(w: Writer<T>, fifo: seq<T>): seq<T> {
    if w.WBuilt? then fifo + [w.x] else fifo
  }

  function ReaderFifo<T>(rd: Reader<T>, fifo: seq<T>): seq<T> {
    if (rd.RErased? || rd.RPopErased?) && fifo != [] then fifo[1..] else fifo
  }

  /** What slot j, counted from readIndex, holds while the FIFO contains `fifo`. */
  function Expected<T>(w: Writer<T>, rd: Reader<T>, fifo: seq<T>, j: nat): Slot<T> {
    if j < |fifo| then
      if j == 0 && rd.RMoved? then MovedFrom
      else if j == 0 && (rd.RErased? || rd.RPopErased?) then Raw
      else Live(fifo[j])
    else if j == |fifo| && w.WBuilt? then Live(w.x)
    else Raw
  }

  ghost predicate SlotsMatch<T>(g: Ring<T>, w: Writer<T>, rd: Reader<T>, fifo: seq<T>)
    requires g.readIndex < |g.slots|
  {
    forall j: nat {:trigger Expected(w, rd, fifo, j)} :: j < |g.slots| ==>
      g.slots[At(|g.slots|, g.readIndex, j)] == Expected(w, rd, fifo, j)
  }

  /** What the writer knows, however old its copy of the other side's index is. */
  ghost predicate WriterKnows<T>(g: Ring<T>, w: Writer<T>, fifo: seq<T>) {
    match w
    case WOwn(x, cur) => cur == g.writeIndex
    case WFree(x, cur, next) => cur == g.writeIndex && next == Succ(|g.slots|, cur) && |fifo| + 1 < |g.slots|
    case WBuilt(x, cur, next) => cur == g.writeIndex && next == Succ(|g.slots|, cur) && |fifo| + 1 < |g.slots|
    case WFullOwn(next) => next == Succ(|g.slots|, g.writeIndex)
    case WFull(full) => !full ==> |fifo| + 1 < |g.slots|
    case WSizeOwn(i) => i == g.writeIndex
    case WSize(n) => |fifo| <= n < |g.slots|
    case _ => true
  }

  /** What the reader knows, however old its copy of the other side's index is. */
  ghost predicate ReaderKnows<T>(g: Ring<T>, rd: Reader<T>, fifo: seq<T>) {
    match rd
    case ROwn(op, cur) => cur == g.readIndex
    case RSeen(cur) => cur == g.readIndex && fifo != []
    case RMoved(cur, val) => cur == g.readIndex && fifo != [] && fifo[0] == val
    case RErased(cur, val) => cur == g.readIndex && fifo != [] && fifo[0] == val
    case RFront(cur) => cur == g.readIndex && fifo != []
    case REmpty(empty) => !empty ==> fifo != []
    case RPop => fifo != []
    case RPopOwn(cur) => cur == g.readIndex && fifo != []
    case RPopErased(cur) => cur == g.readIndex && fifo != []
    case RSizeOwn(i) => i < |g.slots| && 0 <= GuessOf(|g.slots|, i, g.readIndex) <= |fifo|
    case RSize(n) => 0 <= n <= |fifo|
    case _ => true
  }

  /** The gluing relation between the ring with its two threads and the bounded FIFO. */
  ghost predicate Refines<T>(g: Ring<T>, w: Writer<T>, rd: Reader<T>, fifo: seq<T>) {
    && 2 <= |g.slots|
    && g.readIndex < |g.slots|
    && |fifo| < |g.slots|
    && g.writeIndex == At(|g.slots|, g.readIndex, |fifo|)
    && SlotsMatch(g, w, rd, fifo)
    && WriterKnows(g, w, fifo)
    && ReaderKnows(g, rd, fifo)
  }

  function NewRing<T>(size: nat): Ring<T> {
    Ring(seq(size, _ => Raw), 0, 0)
  }

  lemma NewRingIsEmpty<T>(size: nat)
    requires 2 <= size
    ensures Refines<T>(NewRing(size), WIdle, RIdle, [])
  {
  }

  /** At most one side ever touches a slot: whenever a thread is about to construct, move out
      or destroy, the slot is in the one state in which that is defined, and when both threads
      are inside the array they are on different slots. */
  lemma StepsAreDefined<T>(g: Ring<T>, w: Writer<T>, rd: Reader<T>, fifo: seq<T>)
    requires Refines(g, w, rd, fifo)
    ensures WriterStepDefined(g, w)
    ensures ReaderStepDefined(g, rd)
    ensures (w.WFree? || w.WBuilt?) && (rd.RSeen? || rd.RMoved? || rd.RErased? || rd.RPopOwn? || rd.RPopErased?) ==>
      w.cur != rd.cur
  {
    assert g.slots[At(|g.slots|, g.readIndex, 0)] == Expected(w, rd, fifo, 0);
    assert g.slots[At(|g.slots|, g.readIndex, |fifo|)] == Expected(w, rd, fifo, |fifo|);
  }

  /** Changing slot j only, counted from readIndex, changes no other position. */
  lemma UpdateAt<T>(g: Ring<T>, j: nat, v: Slot<T>)
    requires g.readIndex < |g.slots| && j < |g.slots|
    ensures forall k: nat :: k < |g.slots| ==>
      g.slots[At(|g.slots|, g.readIndex, j) := v][At(|g.slots|, g.readIndex, k)]
      == if k == j then v else g.slots[At(|g.slots|, g.readIndex, k)]
  {
  }

  lemma WriterStepRefines<T>(g: Ring<T>, w: Writer<T>, rd: Reader<T>, fifo: seq<T>)
    requires Refines(g, w, rd, fifo) && WriterRunning(w)
    ensures WriterStepDefined(g, w)
    ensures var (g', w') := WriterStep(g, w); Refines(g', w', rd, WriterFifo(w, fifo))
  {
    StepsAreDefined(g, w, rd, fifo);
    var (g', w') := WriterStep(g, w);
    if w.WFree? {
      UpdateAt(g, |fifo|, Live(w.x));
      assert forall j: nat ::
        Expected(w', rd, fifo, j) == (if j == |fifo| then Live(w.x) else Expected(w, rd, fifo, j));
    } else if w.WBuilt? {
      assert At(|g.slots|, g.readIndex, |fifo| + 1) == w.next;
      forall j: nat | j < |g.slots|
        ensures g'.slots[At(|g.slots|, g.readIndex, j)] == Expected(w', rd, fifo + [w.x], j)
      {
        assert g.slots[At(|g.slots|, g.readIndex, j)] == Expected(w, rd, fifo, j);
      }
    } else {
      assert forall j: nat :: Expected(w', rd, fifo, j) == Expected(w, rd, fifo, j);
    }
  }

  /** Moving out or destroying the oldest object changes its slot only. */
  lemma TouchOldest<T>(g: Ring<T>, w: Writer<T>, rd: Reader<T>, fifo: seq<T>)
    requires Refines(g, w, rd, fifo) && (rd.RSeen? || rd.RMoved? || rd.RPopOwn?) && ReaderStepDefined(g, rd)
    ensures var (g', rd') := ReaderStep(g, rd); Refines(g', w, rd', fifo)
  {
    var (g', rd') := ReaderStep(g, rd);
    var slot := if rd.RSeen? then MovedFrom else Raw;
    assert g.slots[At(|g.slots|, g.readIndex, 0)] == Expected(w, rd, fifo, 0);
    UpdateAt(g, 0, slot);
    assert forall j: nat :: Expected(w, rd', fifo, j) == if j == 0 then slot else Expected(w, rd, fifo, j);
  }

  /** A load changes no slot. */
  lemma ReaderLoads<T>(g: Ring<T>, w: Writer<T>, rd: Reader<T>, fifo: seq<T>)
    requires Refines(g, w, rd, fifo) && ReaderStepDefined(g, rd)
    requires rd.RCall? || rd.ROwn? || rd.RPop? || rd.RAskSize? || rd.RSizeOwn?
    ensures var (g', rd') := ReaderStep(g, rd); Refines(g', w, rd', fifo)
  {
    var (g', rd') := ReaderStep(g, rd);
    assert forall j: nat :: Expected(w, rd', fifo, j) == Expected(w, rd, fifo, j);
  }

  lemma ReaderStepRefines<T>(g: Ring<T>, w: Writer<T>, rd: Reader<T>, fifo: seq<T>)
    requires Refines(g, w, rd, fifo) && ReaderRunning(rd)
    ensures ReaderStepDefined(g, rd)
    ensures var (g', rd') := ReaderStep(g, rd); Refines(g', w, rd', ReaderFifo(rd, fifo))
  {
    StepsAreDefined(g, w, rd, fifo);
    if rd.RSeen? || rd.RMoved? || rd.RPopOwn? {
      TouchOldest(g, w, rd, fifo);
    } else if rd.RErased? || rd.RPopErased? {
      ReleaseSlot(g, w, rd, fifo);
    } else {
      ReaderLoads(g, w, rd, fifo);
    }
  }

  /** Storing readIndex hands the emptied slot back: it becomes the last free slot. */
  lemma ReleaseSlot<T>(g: Ring<T>, w: Writer<T>, rd: Reader<T>, fifo: seq<T>)
    requires Refines(g, w, rd, fifo) && (rd.RErased? || rd.RPopErased?)
    ensures var (g', rd') := ReaderStep(g, rd); Refines(g', w, rd', fifo[1..])
  {
    var (g', rd') := ReaderStep(g, rd);
    forall j: nat | j < |g.slots|
      ensures g'.slots[At(|g.slots|, g'.readIndex, j)] == Expected(w, rd', fifo[1..], j)
    {
      var k := if j + 1 < |g.slots| then j + 1 else 0;
      assert At(|g.slots|, g'.readIndex, j) == At(|g.slots|, g.readIndex, k);
      assert g.slots[At(|g.slots|, g.readIndex, k)] == Expected(w, rd, fifo, k);
    }
  }

  // ----- whole runs -----

  /** The system with history: `written` lists the elements of successful writes and `taken`
      those that a read returned or popFront dropped, each in the order of its index store. */
  datatype System<T> = System(
    ring: Ring<T>, writer: Writer<T>, reader: Reader<T>,
    fifo: seq<T>, written: seq<T>, taken: seq<T>)

  ghost predicate SystemInit<T>(s: System<T>) {
    && 2 <= |s.ring.slots|
    && s == System(NewRing(|s.ring.slots|), WIdle, RIdle, [], [], [])
  }

  ghost predicate WriterBegins<T(!new)>(s: System<T>, s': System<T>) {
    && !WriterRunning(s.writer)
    && s' == s.(writer := s'.writer)
    && ((exists x :: s'.writer == WWrite(x)) || s'.writer.WAskFull? || s'.writer.WAskSize?)
  }

  ghost predicate ReaderBegins<T>(s: System<T>, s': System<T>) {
    && !ReaderRunning(s.reader)
    && s' == s.(reader := s'.reader)
    && (s'.reader.RCall? || s'.reader.RAskSize? || (s'.reader.RPop? && s.fifo != []))
  }

  ghost predicate WriterMoves<T>(s: System<T>, s': System<T>) {
    && WriterRunning(s.writer) && WriterStepDefined(s.ring, s.writer)
    && var (g', w') := WriterStep(s.ring, s.writer);
       s' == s.(ring := g', writer := w', fifo := WriterFifo(s.writer, s.fifo),
                written := if s.writer.WBuilt? then s.written + [s.writer.x] else s.written)
  }

  ghost predicate ReaderMoves<T>(s: System<T>, s': System<T>) {
    && ReaderRunning(s.reader) && ReaderStepDefined(s.ring, s.reader)
    && var (g', rd') := ReaderStep(s.ring, s.reader);
       s' == s.(ring := g', reader := rd', fifo := ReaderFifo(s.reader, s.fifo),
                taken := if s.reader.RErased? then s.taken + [s.reader.val]
                         else if s.reader.RPopErased? && s.fifo != [] then s.taken + [s.fifo[0]]
                         else s.taken)
  }

  ghost predicate SystemNext<T(!new)>(s: System<T>, s': System<T>) {
    WriterBegins(s, s') || ReaderBegins(s, s') || WriterMoves(s, s') || ReaderMoves(s, s')
  }

  ghost predicate SystemRun<T(!new)>(trace: seq<System<T>>) {
    && trace != [] && SystemInit(trace[0])
    && forall i :: 0 <= i < |trace| - 1 ==> SystemNext(trace[i], trace[i + 1])
  }

  ghost predicate SystemInv<T>(s: System<T>) {
    && Refines(s.ring, s.writer, s.reader, s.fifo)
    && s.written == s.taken + s.fifo
  }

  lemma NextKeepsInv<T(!new)>(s: System<T>, s': System<T>)
    requires SystemInv(s) && SystemNext(s, s')
    ensures SystemInv(s') && |s'.ring.slots| == |s.ring.slots|
  {
    if WriterMoves(s, s') {
      WriterStepRefines(s.ring, s.writer, s.reader, s.fifo);
    } else if ReaderMoves(s, s') {
      ReaderStepRefines(s.ring, s.writer, s.reader, s.fifo);
      if s.reader.RErased? || s.reader.RPopErased? {
        assert s.fifo == [s.fifo[0]] + s.fifo[1..];
      }
    } else {
      forall j: nat | j < |s.ring.slots|
        ensures Expected(s'.writer, s'.reader, s.fifo, j) == Expected(s.writer, s.reader, s.fifo, j)
      {
      }
    }
  }

  /** In every run the elements that have left are a prefix of the elements written, in order, at most
      size - 1 elements are in between, and no step ever touches a slot in the wrong state. */
  lemma {:induction false} RunIsBoundedFifo<T(!new)>(trace: seq<System<T>>, n: nat)
    requires SystemRun(trace) && n < |trace|
    ensures var s := trace[n];
      && s.taken <= s.written
      && |s.written| - |s.taken| <= |trace[0].ring.slots| - 1
      && WriterStepDefined(s.ring, s.writer) && ReaderStepDefined(s.ring, s.reader)
      && SystemInv(s) && |s.ring.slots| == |trace[0].ring.slots|
  {
    if n == 0 {
      NewRingIsEmpty<T>(|trace[0].ring.slots|);
    } else {
      RunIsBoundedFifo(trace, n - 1);
      assert SystemNext(trace[n - 1], trace[n - 1 + 1]);
      NextKeepsInv(trace[n - 1], trace[n]);
    }
    StepsAreDefined(trace[n].ring, trace[n].writer, trace[n].reader, trace[n].fifo);
  }

  /** The answers are exact at the step that loads the other side's index: `write` fails and
      `isFull` says true precisely when the FIFO then holds size - 1 elements, and `read`,
      `frontPtr` and `isEmpty` report emptiness precisely when it then is empty. */
  lemma AnswersAreExact<T(!new)>(trace: seq<System<T>>, n: nat)
    requires SystemRun(trace) && n < |trace|
    ensures var s := trace[n];
      && (s.writer.WOwn? ==>
            (WriterStep(s.ring, s.writer).1 == WDone(false) <==> |s.fifo| == |s.ring.slots| - 1))
      && (s.writer.WFullOwn? ==> WriterStep(s.ring, s.writer).1 == WFull(|s.fifo| == |s.ring.slots| - 1))
      && (s.writer.WSizeOwn? ==> WriterStep(s.ring, s.writer).1 == WSize(|s.fifo|))
      && (s.reader.RAskSize? ==>
            ReaderStep(s.ring, ReaderStep(s.ring, s.reader).1).1 == RSize(|s.fifo|))
      && (s.reader.ROwn? && s.reader.op.IsEmpty? ==>
            ReaderStep(s.ring, s.reader).1 == REmpty(s.fifo == []))
      && (s.reader.ROwn? && !s.reader.op.IsEmpty? ==>
            (ReaderStep(s.ring, s.reader).1 == RNone <==> s.fifo == []))
  {
    RunIsBoundedFifo(trace, n);
  }

  /** A size guess or a negative answer may be out of date when it is used, but only on the
      safe side: the writer never underestimates and the reader never overestimates. */
  lemma StaleAnswersAreSafe<T(!new)>(trace: seq<System<T>>, n: nat)
    requires SystemRun(trace) && n < |trace|
    ensures var s := trace[n];
      && (s.writer.WSize? ==> |s.fifo| <= s.writer.n <= |s.ring.slots| - 1)
      && (s.writer.WFull? && !s.writer.full ==> |s.fifo| < |s.ring.slots| - 1)
      && (s.reader.RSize? ==> 0 <= s.reader.n <= |s.fifo|)
      && (s.reader.REmpty? && !s.reader.empty ==> s.fifo != [])
      && (s.reader.RFront? ==>
            s.fifo != [] && s.reader.cur < |s.ring.slots| && s.ring.slots[s.reader.cur] == Live(s.fifo[0]))
  {
    RunIsBoundedFifo(trace, n);
    var s := trace[n];
    assert s.ring.slots[At(|s.ring.slots|, s.ring.readIndex, 0)] == Expected(s.writer, s.reader, s.fifo, 0);
  }
}
