/** threadsafe_queue.h, the linked queue with a lock at each end, stepped thread by thread: any
    number of threads, one step per lock, unlock, load or store. Its specification is the
    one-lock queue of threadsafe_queue_stdqueue.h, where every call takes effect at once. */
module TwoLockQueue {
  import opened Bytes

  type Addr = nat
  type Tid = nat

  /** `early` tells try_pop(T&) and wait_and_pop(T&), which copy the value before unlinking. */
  datatype Op<T> = Push(v: T) | TryPop(early: bool) | WaitPop(early: bool) | IsEmpty

  datatype Result<T> = Pushed | Took(v: T) | Nothing | Answer(empty: bool)

  datatype Node<T> = Node(data: Option<T>, next: Option<Addr>)

  /** What a thread does next. */
  datatype Pc<T> =
    | Idle
    | PushNew(v: T)                    // new node
    | PushLock(v: T, p: Addr)          // lock tail_mutex
    | PushData(v: T, p: Addr)          // tail->data = new_data
    | PushNext(v: T, p: Addr)          // tail->next = std::move(p)
    | PushTail(v: T, p: Addr)          // tail = new_tail
    | PushUnlock(v: T)                 // unlock tail_mutex
    | PopLock(op: Op<T>)               // lock head_mutex
    | PopTailLock(op: Op<T>)           // get_tail: lock tail_mutex
    | PopTailRead(op: Op<T>)           //           load tail
    | PopTailUnlock(op: Op<T>, x: Addr) //          unlock tail_mutex
    | PopCompare(op: Op<T>, x: Addr)   // head.get() == x
    | PopSleep(op: Op<T>)              // data_cond.wait: unlock head_mutex, sleep, try again
    | PopAnswer(op: Op<T>, res: Result<T>)              // unlock head_mutex
    | PopCopy(op: Op<T>)                                // value = std::move(*head->data)
    | PopMove(op: Op<T>, got: Option<T>)                // old_head = std::move(head)
    | PopNext(op: Op<T>, got: Option<T>, n: Addr)       // head = std::move(old_head->next)
    | PopUnlock(op: Op<T>, got: Option<T>, n: Addr)     // unlock head_mutex
    | PopResult(op: Op<T>, got: Option<T>, n: Addr)     // old_head->data, delete old_head
    | Return(op: Op<T>, res: Result<T>)

  datatype State<T> = State(
    heap: map<Addr, Node<T>>, head: Option<Addr>, tail: Addr,
    headLock: Option<Tid>, tailLock: Option<Tid>, pcs: seq<Pc<T>>)

  /** A thread begins a call, receives an address from the allocator, or goes on. */
  datatype Action<T> = Begin(op: Op<T>) | Alloc(p: Addr) | Go

  predicate Enabled<T>(s: State<T>, t: Tid, a: Action<T>) {
    && t < |s.pcs|
    && match s.pcs[t] {
         case Idle => a.Begin?
         case PushNew(_) => a.Alloc? && a.p !in s.heap
         case PushLock(_, _) => a.Go? && s.tailLock.None?
         case PopLock(_) => a.Go? && s.headLock.None?
         case PopTailLock(_) => a.Go? && s.tailLock.None?
         case _ => a.Go?
       }
  }

  /** Every pointer the step follows is an allocated node, and every value it reads is there. */
  predicate Defined<T>(s: State<T>, t: Tid)
    requires t < |s.pcs|
  {
    match s.pcs[t]
    case PushData(_, _) => s.tail in s.heap
    case PushNext(_, _) => s.tail in s.heap
    case PopCompare(_, _) => s.head.Some?
    case PopCopy(_) => s.head.Some? && s.head.value in s.heap && s.heap[s.head.value].data.Some?
    case PopMove(_, _) => s.head.Some?
    case PopNext(_, _, n) => n in s.heap
    case PopResult(_, got, n) => n in s.heap && (got.None? ==> s.heap[n].data.Some?)
    case _ => true
  }

  function Goto<T>(s: State<T>, t: Tid, pc: Pc<T>): State<T>
    requires t < |s.pcs|
  {
    s.(pcs := s.pcs[t := pc])
  }

  /** Where a comparison with the tail leads. */
  function Compared<T>(op: Op<T>, same: bool): Pc<T> {
    if op.IsEmpty? then PopAnswer(op, Answer(same))
    else if !same then
      if (op.TryPop? || op.WaitPop?) && op.early then PopCopy(op) else PopMove(op, None)
    else if op.WaitPop? then PopSleep(op)
    else PopAnswer(op, Nothing)
  }

  predicate Pushing<T>(pc: Pc<T>) {
    pc.PushNew? || pc.PushLock? || pc.PushData? || pc.PushNext? || pc.PushTail? || pc.PushUnlock?
  }

  /** From the lock of head_mutex to the comparison with the tail, and the calls that end there. */
  predicate Looking<T>(pc: Pc<T>) {
    pc.PopLock? || pc.PopTailLock? || pc.PopTailRead? || pc.PopTailUnlock? || pc.PopCompare? || pc.PopSleep? ||
    pc.PopAnswer?
  }

  /** Taking the first node off the list. */
  predicate Taking<T>(pc: Pc<T>) {
    pc.PopCopy? || pc.PopMove? || pc.PopNext? || pc.PopUnlock? || pc.PopResult?
  }

  function PushStep<T>(s: State<T>, t: Tid, a: Action<T>): State<T>
    requires Enabled(s, t, a) && Defined(s, t) && Pushing(s.pcs[t])
  {
    match s.pcs[t]
    case PushNew(v) => Goto(s.(heap := s.heap[a.p := Node(None, None)]), t, PushLock(v, a.p))
    case PushLock(v, p) => Goto(s.(tailLock := Some(t)), t, PushData(v, p))
    case PushData(v, p) =>
      Goto(s.(heap := s.heap[s.tail := Node(Some(v), s.heap[s.tail].next)]), t, PushNext(v, p))
    case PushNext(v, p) =>
      Goto(s.(heap := s.heap[s.tail := Node(s.heap[s.tail].data, Some(p))]), t, PushTail(v, p))
    case PushTail(v, p) => Goto(s.(tail := p), t, PushUnlock(v))
    case PushUnlock(v) => Goto(s.(tailLock := None), t, Return(Push(v), Pushed))
  }

  function LookStep<T>(s: State<T>, t: Tid): State<T>
    requires t < |s.pcs| && Defined(s, t) && Looking(s.pcs[t])
  {
    match s.pcs[t]
    case PopLock(op) => Goto(s.(headLock := Some(t)), t, PopTailLock(op))
    case PopTailLock(op) => Goto(s.(tailLock := Some(t)), t, PopTailRead(op))
    case PopTailRead(op) => Goto(s, t, PopTailUnlock(op, s.tail))
    case PopTailUnlock(op, x) => Goto(s.(tailLock := None), t, PopCompare(op, x))
    case PopCompare(op, x) => Goto(s, t, Compared(op, s.head.value == x))
    case PopSleep(op) => Goto(s.(headLock := None), t, PopLock(op))
    case PopAnswer(op, res) => Goto(s.(headLock := None), t, Return(op, res))
  }

  function TakeStep<T>(s: State<T>, t: Tid): State<T>
    requires t < |s.pcs| && Defined(s, t) && Taking(s.pcs[t])
  {
    match s.pcs[t]
    case PopCopy(op) => Goto(s, t, PopMove(op, s.heap[s.head.value].data))
    case PopMove(op, got) => Goto(s.(head := None), t, PopNext(op, got, s.head.value))
    case PopNext(op, got, n) => Goto(s.(head := s.heap[n].next), t, PopUnlock(op, got, n))
    case PopUnlock(op, got, n) => Goto(s.(headLock := None), t, PopResult(op, got, n))
    case PopResult(op, got, n) =>
      Goto(s.(heap := s.heap - {n}), t, Return(op, Took(if got.Some? then got.value else s.heap[n].data.value)))
  }

  function Step<T>(s: State<T>, t: Tid, a: Action<T>): State<T>
    requires Enabled(s, t, a) && Defined(s, t)
  {
    var pc := s.pcs[t];
    if Pushing(pc) then PushStep(s, t, a)
    else if Looking(pc) then LookStep(s, t)
    else if Taking(pc) then TakeStep(s, t)
    else Goto(s, t, if pc.Return? then Idle else if a.op.Push? then PushNew(a.op.v) else PopLock(a.op))
  }

  /** The constructor: one node, which is both head and tail. */
  ghost predicate Init<T>(s: State<T>) {
    && s.head == Some(s.tail) && s.heap == map[s.tail := Node(None, None)]
    && s.headLock.None? && s.tailLock.None?
    && forall t :: 0 <= t < |s.pcs| ==> s.pcs[t].Idle?
  }

  // ----- the specification: one lock -----

  /** Where a thread stands in a call that takes effect at one moment. */
  datatype Status<T> = Free | Called(op: Op<T>) | Finished(op: Op<T>, res: Result<T>)

  datatype OneLock<T> = OneLock(q: seq<T>, calls: seq<Status<T>>)

  /** wait_and_pop waits for an element; every other call can always take effect. */
  predicate CanEffect<T>(op: Op<T>, q: seq<T>) {
    op.WaitPop? ==> q != []
  }

  function Effect<T>(op: Op<T>, q: seq<T>): (seq<T>, Result<T>)
    requires CanEffect(op, q)
  {
    match op
    case Push(v) => (q + [v], Pushed)
    case TryPop(_) => if q == [] then (q, Nothing) else (q[1..], Took(q[0]))
    case WaitPop(_) => (q[1..], Took(q[0]))
    case IsEmpty => (q, Answer(q == []))
  }

  /** Thread t calls, its call takes effect, or it returns. */
  ghost predicate SpecStep<T>(a: OneLock<T>, b: OneLock<T>, t: Tid) {
    && t < |a.calls| == |b.calls|
    && (forall u :: 0 <= u < |a.calls| && u != t ==> b.calls[u] == a.calls[u])
    && match a.calls[t] {
         case Free => b.calls[t].Called? && b.q == a.q
         case Called(op) =>
           && CanEffect(op, a.q) && b.q == Effect(op, a.q).0
           && b.calls[t] == Finished(op, Effect(op, a.q).1)
         case Finished(_, _) => b.calls[t].Free? && b.q == a.q
       }
  }
}
