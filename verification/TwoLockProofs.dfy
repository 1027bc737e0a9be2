/** What every interleaving of the two-lock queue keeps, and that it is linearizable to the
    one-lock queue. */
module TwoLockProofs {
  import opened Bytes
  import opened TwoLockQueue

  predicate HoldsHead<T>(pc: Pc<T>) {
    pc.PopTailLock? || pc.PopTailRead? || pc.PopTailUnlock? || pc.PopCompare? || pc.PopSleep? ||
    pc.PopAnswer? || pc.PopCopy? || pc.PopMove? || pc.PopNext? || pc.PopUnlock?
  }

  predicate HoldsTail<T>(pc: Pc<T>) {
    pc.PushData? || pc.PushNext? || pc.PushTail? || pc.PushUnlock? || pc.PopTailRead? || pc.PopTailUnlock?
  }

  /** A node that only this thread can reach. */
  function Own<T>(pc: Pc<T>): Option<Addr> {
    match pc
    case PushLock(_, p) => Some(p)
    case PushData(_, p) => Some(p)
    case PushNext(_, p) => Some(p)
    case PushTail(_, p) => Some(p)
    case PopUnlock(_, _, n) => Some(n)
    case PopResult(_, _, n) => Some(n)
    case _ => None
  }

  predicate LockOk<T>(s: State<T>, t: Tid)
    requires t < |s.pcs|
  {
    && (HoldsHead(s.pcs[t]) <==> s.headLock == Some(t))
    && (HoldsTail(s.pcs[t]) <==> s.tailLock == Some(t))
  }

  ghost predicate LocksOk<T>(s: State<T>) {
    && (forall t: Tid {:trigger LockOk(s, t)} :: t < |s.pcs| ==> LockOk(s, t))
    && (s.headLock.Some? ==> s.headLock.value < |s.pcs|)
    && (s.tailLock.Some? ==> s.tailLock.value < |s.pcs|)
  }

  ghost predicate Private<T>(s: State<T>, t: Tid, u: Tid)
    requires t < |s.pcs| && u < |s.pcs|
  {
    t != u && Own(s.pcs[t]).Some? ==> Own(s.pcs[t]) != Own(s.pcs[u])
  }

  ghost predicate AllPrivate<T>(s: State<T>) {
    forall t: Tid, u: Tid {:trigger Private(s, t, u)} :: t < |s.pcs| && u < |s.pcs| ==> Private(s, t, u)
  }

  /** Node i of the chain holds an element and is linked to the next one. */
  ghost predicate Linked<T>(s: State<T>, chain: seq<Addr>, i: nat)
    requires i + 1 < |chain|
  {
    chain[i] in s.heap && s.heap[chain[i]].data.Some? && s.heap[chain[i]].next == Some(chain[i + 1])
  }

  /** The last node: a dummy, except while a push is filling it in. */
  function TailNode<T>(s: State<T>): Node<T> {
    if s.tailLock.Some? && s.tailLock.value < |s.pcs| then
      match s.pcs[s.tailLock.value]
      case PushNext(v, _) => Node(Some(v), None)
      case PushTail(v, p) => Node(Some(v), Some(p))
      case _ => Node(None, None)
    else Node(None, None)
  }

  /** `chain` is the list from head to tail: acyclic, elements first, the dummy last. */
  ghost predicate ChainOk<T>(s: State<T>, chain: seq<Addr>) {
    && chain != [] && NoDup(chain) && chain[|chain| - 1] == s.tail
    && (forall i: nat {:trigger Linked(s, chain, i)} :: i + 1 < |chain| ==> Linked(s, chain, i))
    && s.tail in s.heap && s.heap[s.tail] == TailNode(s)
  }

  predicate HeadOk<T>(s: State<T>, chain: seq<Addr>)
    requires chain != []
  {
    if s.headLock.Some? && s.headLock.value < |s.pcs| && s.pcs[s.headLock.value].PopNext?
    then s.head.None? && s.pcs[s.headLock.value].n == chain[0]
    else s.head == Some(chain[0])
  }

  /** A copy taken early is a copy of this node's element. */
  ghost predicate GotIs<T>(s: State<T>, op: Op<T>, got: Option<T>, n: Addr) {
    n in s.heap && s.heap[n].data.Some? && (got.Some? ==> got == s.heap[n].data) && !op.IsEmpty? && !op.Push?
  }

  ghost predicate ThreadOk<T>(s: State<T>, chain: seq<Addr>, t: Tid)
    requires t < |s.pcs| && chain != []
  {
    match s.pcs[t]
    case PushLock(_, p) => p in s.heap && p !in chain && s.heap[p] == Node(None, None)
    case PushData(_, p) => p in s.heap && p !in chain && s.heap[p] == Node(None, None)
    case PushNext(_, p) => p in s.heap && p !in chain && s.heap[p] == Node(None, None)
    case PushTail(_, p) => p in s.heap && p !in chain && s.heap[p] == Node(None, None)
    case PopLock(op) => !op.Push?
    case PopTailLock(op) => !op.Push?
    case PopTailRead(op) => !op.Push?
    case PopTailUnlock(op, x) => !op.Push? && x in chain
    case PopCompare(op, x) => !op.Push? && x in chain
    case PopSleep(op) => op.WaitPop?
    case PopCopy(op) => |chain| >= 2 && !op.Push? && !op.IsEmpty?
    case PopMove(op, got) => |chain| >= 2 && GotIs(s, op, got, chain[0])
    case PopNext(op, got, n) => |chain| >= 2 && n == chain[0] && GotIs(s, op, got, n)
    case PopUnlock(op, got, n) => n !in chain && GotIs(s, op, got, n)
    case PopResult(op, got, n) => n !in chain && GotIs(s, op, got, n)
    case _ => true
  }

  ghost predicate ThreadsOk<T>(s: State<T>, chain: seq<Addr>)
    requires chain != []
  {
    forall t: Tid {:trigger ThreadOk(s, chain, t)} :: t < |s.pcs| ==> ThreadOk(s, chain, t)
  }

  ghost predicate Inv<T>(s: State<T>, chain: seq<Addr>) {
    LocksOk(s) && AllPrivate(s) && ChainOk(s, chain) && HeadOk(s, chain) && ThreadsOk(s, chain)
  }

  /** The list after a step of thread t. */
  function ChainAfter<T>(s: State<T>, chain: seq<Addr>, t: Tid): seq<Addr>
    requires t < |s.pcs| && chain != []
  {
    match s.pcs[t]
    case PushTail(_, p) => chain + [p]
    case PopNext(_, _, _) => if |chain| >= 2 then chain[1..] else chain
    case _ => chain
  }

  /** No step follows a null, dangling or dummy pointer. */
  lemma StepsAreDefined<T>(s: State<T>, chain: seq<Addr>, t: Tid)
    requires Inv(s, chain) && t < |s.pcs|
    ensures Defined(s, t)
  {
    assert ThreadOk(s, chain, t) && LockOk(s, t);
    if s.pcs[t].PopCopy? {
      assert Linked(s, chain, 0);
    }
  }

  /** A lock is taken when it is free and released by its holder only. */
  predicate LockMove(l: Option<Tid>, l': Option<Tid>, t: Tid) {
    l' == l || (l.None? && l' == Some(t)) || (l == Some(t) && l'.None?)
  }

  /** What a step of t does to program counters and locks. */
  ghost predicate LocksMove<T>(s: State<T>, s': State<T>, t: Tid)
    requires t < |s.pcs|
  {
    && |s'.pcs| == |s.pcs| && s'.pcs == s.pcs[t := s'.pcs[t]] && LockOk(s', t)
    && LockMove(s.headLock, s'.headLock, t) && LockMove(s.tailLock, s'.tailLock, t)
  }

  lemma PushLocks<T>(s: State<T>, t: Tid, a: Action<T>)
    requires Enabled(s, t, a) && Defined(s, t) && LockOk(s, t) && Pushing(s.pcs[t])
    ensures LocksMove(s, PushStep(s, t, a), t)
  {
  }

  lemma LookLocks<T>(s: State<T>, t: Tid, a: Action<T>)
    requires Enabled(s, t, a) && Defined(s, t) && LockOk(s, t) && Looking(s.pcs[t])
    ensures LocksMove(s, LookStep(s, t), t)
  {
  }

  lemma TakeLocks<T>(s: State<T>, t: Tid, a: Action<T>)
    requires Enabled(s, t, a) && Defined(s, t) && LockOk(s, t) && Taking(s.pcs[t])
    ensures LocksMove(s, TakeStep(s, t), t)
  {
  }

  lemma StepLocks<T>(s: State<T>, t: Tid, a: Action<T>)
    requires Enabled(s, t, a) && Defined(s, t) && LockOk(s, t)
    ensures LocksMove(s, Step(s, t, a), t)
  {
    if Pushing(s.pcs[t]) { PushLocks(s, t, a); }
    else if Looking(s.pcs[t]) { LookLocks(s, t, a); }
    else if Taking(s.pcs[t]) { TakeLocks(s, t, a); }
  }

  lemma MovedLocksOk<T>(s: State<T>, s': State<T>, t: Tid)
    requires LocksOk(s) && t < |s.pcs| && LocksMove(s, s', t)
    ensures LocksOk(s')
  {
    forall u: Tid | u < |s'.pcs|
      ensures LockOk(s', u)
    {
      assert LockOk(s, u);
    }
  }

  lemma LocksKept<T>(s: State<T>, t: Tid, a: Action<T>)
    requires LocksOk(s) && Enabled(s, t, a) && Defined(s, t)
    ensures LocksOk(Step(s, t, a))
  {
    assert LockOk(s, t);
    StepLocks(s, t, a);
    MovedLocksOk(s, Step(s, t, a), t);
  }

  /** A thread's private node changes only when it is new, handed over or unlinked. */
  lemma OwnMoves<T>(s: State<T>, chain: seq<Addr>, t: Tid, a: Action<T>)
    requires Enabled(s, t, a) && Defined(s, t) && chain != [] && ThreadOk(s, chain, t)
    ensures var s' := Step(s, t, a);
      && |s'.pcs| == |s.pcs| && s'.pcs == s.pcs[t := s'.pcs[t]]
      && match Own(s'.pcs[t]) {
           case None => true
           case Some(p) => Own(s.pcs[t]) == Some(p) || p !in s.heap || p == chain[0]
         }
  {
  }

  lemma PrivateKept<T>(s: State<T>, chain: seq<Addr>, t: Tid, a: Action<T>)
    requires Inv(s, chain) && Enabled(s, t, a) && Defined(s, t)
    ensures AllPrivate(Step(s, t, a))
  {
    var s' := Step(s, t, a);
    assert ThreadOk(s, chain, t);
    OwnMoves(s, chain, t, a);
    forall u: Tid, w: Tid | u < |s'.pcs| && w < |s'.pcs|
      ensures Private(s', u, w)
    {
      assert Private(s, u, w);
      OwnIsOff(s, chain, u);
      OwnIsOff(s, chain, w);
    }
  }

  /** A private node is allocated and not on the list. */
  lemma OwnIsOff<T>(s: State<T>, chain: seq<Addr>, u: Tid)
    requires u < |s.pcs| && chain != [] && ThreadsOk(s, chain)
    ensures Own(s.pcs[u]).Some? ==> Own(s.pcs[u]).value in s.heap && Own(s.pcs[u]).value !in chain
  {
    assert ThreadOk(s, chain, u);
  }

  lemma ChainKept<T>(s: State<T>, chain: seq<Addr>, t: Tid, a: Action<T>)
    requires Inv(s, chain) && Enabled(s, t, a) && Defined(s, t)
    ensures ChainOk(Step(s, t, a), ChainAfter(s, chain, t)) && HeadOk(Step(s, t, a), ChainAfter(s, chain, t))
  {
    if Pushing(s.pcs[t]) { PushChain(s, chain, t, a); }
    else if Looking(s.pcs[t]) { LookChain(s, chain, t, a); }
    else if Taking(s.pcs[t]) { TakeChain(s, chain, t, a); TakeHead(s, chain, t, a); }
    else { CallChain(s, chain, t, a); }
  }

  lemma PushChain<T>(s: State<T>, chain: seq<Addr>, t: Tid, a: Action<T>)
    requires Inv(s, chain) && Enabled(s, t, a) && Defined(s, t) && Pushing(s.pcs[t])
    ensures ChainOk(PushStep(s, t, a), ChainAfter(s, chain, t)) && HeadOk(PushStep(s, t, a), ChainAfter(s, chain, t))
  {
    var s', chain' := PushStep(s, t, a), ChainAfter(s, chain, t);
    assert ThreadOk(s, chain, t) && LockOk(s, t);
    forall i: nat | i + 1 < |chain'|
      ensures Linked(s', chain', i)
    {
      if i + 1 < |chain| { assert Linked(s, chain, i); }
    }
    LocksAt(s, t);
  }

  /** Each lock is free or held by a thread that is at a place where it holds it. */
  lemma LocksAt<T>(s: State<T>, t: Tid)
    requires LocksOk(s) && t < |s.pcs|
    ensures LockOk(s, t)
    ensures s.headLock.Some? ==> s.headLock.value < |s.pcs|
    ensures s.tailLock.Some? ==> s.tailLock.value < |s.pcs|
  {
  }

  lemma LookChain<T>(s: State<T>, chain: seq<Addr>, t: Tid, a: Action<T>)
    requires Inv(s, chain) && Enabled(s, t, a) && Defined(s, t) && Looking(s.pcs[t])
    ensures ChainOk(LookStep(s, t), chain) && HeadOk(LookStep(s, t), chain)
  {
    LocksAt(s, t);
    forall i: nat | i + 1 < |chain|
      ensures Linked(LookStep(s, t), chain, i)
    {
      assert Linked(s, chain, i);
    }
  }

  lemma CallChain<T>(s: State<T>, chain: seq<Addr>, t: Tid, a: Action<T>)
    requires Inv(s, chain) && Enabled(s, t, a) && (s.pcs[t].Idle? || s.pcs[t].Return?)
    ensures ChainOk(Step(s, t, a), chain) && HeadOk(Step(s, t, a), chain)
  {
    LocksAt(s, t);
    forall i: nat | i + 1 < |chain|
      ensures Linked(Step(s, t, a), chain, i)
    {
      assert Linked(s, chain, i);
    }
  }

  lemma TakeChain<T>(s: State<T>, chain: seq<Addr>, t: Tid, a: Action<T>)
    requires Inv(s, chain) && Enabled(s, t, a) && Defined(s, t) && Taking(s.pcs[t])
    ensures ChainOk(TakeStep(s, t), ChainAfter(s, chain, t))
  {
    var s', chain' := TakeStep(s, t), ChainAfter(s, chain, t);
    assert ThreadOk(s, chain, t);
    LocksAt(s, t);
    forall i: nat | i + 1 < |chain'|
      ensures Linked(s', chain', i)
    {
      if s.pcs[t].PopNext? { assert Linked(s, chain, i + 1); } else { assert Linked(s, chain, i); }
    }
  }

  lemma TakeHead<T>(s: State<T>, chain: seq<Addr>, t: Tid, a: Action<T>)
    requires Inv(s, chain) && Enabled(s, t, a) && Defined(s, t) && Taking(s.pcs[t])
    ensures HeadOk(TakeStep(s, t), ChainAfter(s, chain, t))
  {
    assert ThreadOk(s, chain, t);
    LocksAt(s, t);
    if s.pcs[t].PopNext? {
      assert Linked(s, chain, 0);
    }
  }

  lemma PushOthers<T>(s: State<T>, chain: seq<Addr>, t: Tid, a: Action<T>, u: Tid)
    requires Inv(s, chain) && Enabled(s, t, a) && Defined(s, t) && u < |s.pcs| && u != t && Pushing(s.pcs[t])
    ensures ThreadOk(PushStep(s, t, a), ChainAfter(s, chain, t), u)
  {
    assert ThreadOk(s, chain, t) && ThreadOk(s, chain, u);
    assert Private(s, t, u) && s.tail in chain;
    if |chain| >= 2 { assert chain[0] != chain[|chain| - 1]; }
  }

  lemma LookOthers<T>(s: State<T>, chain: seq<Addr>, t: Tid, u: Tid)
    requires Inv(s, chain) && t < |s.pcs| && Defined(s, t) && u < |s.pcs| && u != t && Looking(s.pcs[t])
    ensures ThreadOk(LookStep(s, t), chain, u)
  {
    assert ThreadOk(s, chain, u);
  }

  lemma TakeOthers<T>(s: State<T>, chain: seq<Addr>, t: Tid, u: Tid)
    requires Inv(s, chain) && t < |s.pcs| && Defined(s, t) && u < |s.pcs| && u != t && Taking(s.pcs[t])
    ensures ThreadOk(TakeStep(s, t), ChainAfter(s, chain, t), u)
  {
    assert ThreadOk(s, chain, t) && ThreadOk(s, chain, u) && LockOk(s, t) && LockOk(s, u);
    assert Private(s, t, u);
  }

  /** What another thread relies on survives a step of t. */
  lemma OthersKept<T>(s: State<T>, chain: seq<Addr>, t: Tid, a: Action<T>, u: Tid)
    requires Inv(s, chain) && Enabled(s, t, a) && Defined(s, t) && u < |s.pcs| && u != t
    ensures ThreadOk(Step(s, t, a), ChainAfter(s, chain, t), u)
  {
    if Pushing(s.pcs[t]) { PushOthers(s, chain, t, a, u); }
    else if Looking(s.pcs[t]) { LookOthers(s, chain, t, u); }
    else if Taking(s.pcs[t]) { TakeOthers(s, chain, t, u); }
    else { assert ThreadOk(s, chain, u); }
  }

  lemma PushOwn<T>(s: State<T>, chain: seq<Addr>, t: Tid, a: Action<T>)
    requires Inv(s, chain) && Enabled(s, t, a) && Defined(s, t) && Pushing(s.pcs[t])
    ensures ThreadOk(PushStep(s, t, a), ChainAfter(s, chain, t), t)
  {
    assert ThreadOk(s, chain, t);
    AllAllocated(s, chain);
  }

  lemma LookOwn<T>(s: State<T>, chain: seq<Addr>, t: Tid)
    requires Inv(s, chain) && t < |s.pcs| && Defined(s, t) && Looking(s.pcs[t])
    ensures ThreadOk(LookStep(s, t), chain, t)
  {
    assert ThreadOk(s, chain, t) && LockOk(s, t);
    if |chain| >= 2 { assert Linked(s, chain, 0); }
  }

  lemma TakeOwn<T>(s: State<T>, chain: seq<Addr>, t: Tid)
    requires Inv(s, chain) && t < |s.pcs| && Defined(s, t) && Taking(s.pcs[t])
    ensures ThreadOk(TakeStep(s, t), ChainAfter(s, chain, t), t)
  {
    assert ThreadOk(s, chain, t) && LockOk(s, t);
    if |chain| >= 2 { assert Linked(s, chain, 0); }
  }

  lemma OwnKept<T>(s: State<T>, chain: seq<Addr>, t: Tid, a: Action<T>)
    requires Inv(s, chain) && Enabled(s, t, a) && Defined(s, t)
    ensures ThreadOk(Step(s, t, a), ChainAfter(s, chain, t), t)
  {
    if Pushing(s.pcs[t]) { PushOwn(s, chain, t, a); }
    else if Looking(s.pcs[t]) { LookOwn(s, chain, t); }
    else if Taking(s.pcs[t]) { TakeOwn(s, chain, t); }
  }

  lemma AllAllocated<T>(s: State<T>, chain: seq<Addr>)
    requires ChainOk(s, chain)
    ensures forall x :: x in chain ==> x in s.heap
  {
    forall i | 0 <= i < |chain|
      ensures chain[i] in s.heap
    {
      if i + 1 < |chain| { assert Linked(s, chain, i); }
    }
  }

  lemma StepKeepsInv<T>(s: State<T>, chain: seq<Addr>, t: Tid, a: Action<T>)
    requires Inv(s, chain) && Enabled(s, t, a) && Defined(s, t)
    ensures Inv(Step(s, t, a), ChainAfter(s, chain, t))
  {
    LocksKept(s, t, a);
    PrivateKept(s, chain, t, a);
    ChainKept(s, chain, t, a);
    var s', chain' := Step(s, t, a), ChainAfter(s, chain, t);
    forall u: Tid | u < |s'.pcs|
      ensures ThreadOk(s', chain', u)
    {
      if u == t { OwnKept(s, chain, t, a); } else { OthersKept(s, chain, t, a, u); }
    }
  }

  // ----- what the one-lock queue sees -----

  /** The queued elements: the data of every node before the tail. */
  function Contents<T>(s: State<T>, chain: seq<Addr>): (q: seq<T>)
    requires chain != []
  {
    Elements(s.heap, chain[..|chain| - 1])
  }

  function ElementOf<T>(heap: map<Addr, Node<T>>, x: Addr): seq<T> {
    if x in heap && heap[x].data.Some? then [heap[x].data.value] else []
  }

  function Elements<T>(heap: map<Addr, Node<T>>, nodes: seq<Addr>): (q: seq<T>) {
    if nodes == [] then []
    else ElementOf(heap, nodes[0]) + Elements(heap, nodes[1..])
  }

  /** Where a thread stands in its call. A push takes effect when it stores the tail, a pop when
      it stores the head, and a call that finds the queue empty, or asks, when it loads the tail. */
  function StatusOf<T>(s: State<T>, chain: seq<Addr>, pc: Pc<T>): Status<T>
    requires chain != []
  {
    match pc
    case Idle => Free
    case PushNew(v) => Called(Push(v))
    case PushLock(v, _) => Called(Push(v))
    case PushData(v, _) => Called(Push(v))
    case PushNext(v, _) => Called(Push(v))
    case PushTail(v, _) => Called(Push(v))
    case PushUnlock(v) => Finished(Push(v), Pushed)
    case PopLock(op) => Called(op)
    case PopTailLock(op) => Called(op)
    case PopTailRead(op) => Called(op)
    case PopTailUnlock(op, x) => Seen(op, x == chain[0])
    case PopCompare(op, x) => Seen(op, x == chain[0])
    case PopSleep(op) => Called(op)
    case PopAnswer(op, res) => Finished(op, res)
    case PopCopy(op) => Called(op)
    case PopMove(op, _) => Called(op)
    case PopNext(op, _, _) => Called(op)
    case PopUnlock(op, _, n) => TookFrom(s, op, n)
    case PopResult(op, _, n) => TookFrom(s, op, n)
    case Return(op, res) => Finished(op, res)
  }

  function Seen<T>(op: Op<T>, empty: bool): Status<T> {
    if op.IsEmpty? then Finished(op, Answer(empty))
    else if empty && !op.WaitPop? then Finished(op, Nothing)
    else Called(op)
  }

  function TookFrom<T>(s: State<T>, op: Op<T>, n: Addr): Status<T> {
    if n in s.heap && s.heap[n].data.Some? then Finished(op, Took(s.heap[n].data.value)) else Free
  }

  function View<T>(s: State<T>, chain: seq<Addr>): OneLock<T>
    requires chain != []
  {
    OneLock(Contents(s, chain), seq(|s.pcs|, t requires 0 <= t < |s.pcs| => StatusOf(s, chain, s.pcs[t])))
  }

  /** Elements depend on their own nodes only. */
  lemma {:induction false} ElementsFrame<T>(h: map<Addr, Node<T>>, h': map<Addr, Node<T>>, nodes: seq<Addr>)
    requires forall i :: 0 <= i < |nodes| ==> nodes[i] in h && nodes[i] in h' && h'[nodes[i]].data == h[nodes[i]].data
    ensures Elements(h', nodes) == Elements(h, nodes)
  {
    if nodes == [] {
    } else {
      ElementsFrame(h, h', nodes[1..]);
    }
  }

  lemma {:induction false} ElementsAppend<T>(h: map<Addr, Node<T>>, nodes: seq<Addr>, x: Addr)
    requires x in h && h[x].data.Some?
    ensures Elements(h, nodes + [x]) == Elements(h, nodes) + [h[x].data.value]
  {
    if nodes == [] {
      assert nodes + [x] == [x] && [x][1..] == [];
      assert Elements(h, [x]) == [h[x].data.value] + Elements(h, []);
    } else {
      ElementsAppend(h, nodes[1..], x);
      assert (nodes + [x])[1..] == nodes[1..] + [x] && (nodes + [x])[0] == nodes[0];
      Assoc(ElementOf(h, nodes[0]), Elements(h, nodes[1..]), [h[x].data.value]);
    }
  }

  lemma TailIsLast<T>(s: State<T>, chain: seq<Addr>)
    requires ChainOk(s, chain)
    ensures chain == chain[..|chain| - 1] + [s.tail] && s.tail !in chain[..|chain| - 1]
  {
    var front := chain[..|chain| - 1];
    forall i | 0 <= i < |front|
      ensures front[i] != s.tail
    {
      assert chain[i] != chain[|chain| - 1];
    }
  }

  /** No step changes the data of a node before the tail. */
  lemma FrontUntouched<T>(s: State<T>, chain: seq<Addr>, t: Tid, a: Action<T>)
    requires Inv(s, chain) && Enabled(s, t, a) && Defined(s, t)
    ensures var front, h' := chain[..|chain| - 1], Step(s, t, a).heap;
      forall i :: 0 <= i < |front| ==>
        front[i] in s.heap && front[i] in h' && h'[front[i]].data == s.heap[front[i]].data
  {
    assert ThreadOk(s, chain, t);
    AllAllocated(s, chain);
    TailIsLast(s, chain);
    var front := chain[..|chain| - 1];
    forall i | 0 <= i < |front|
      ensures front[i] in chain && front[i] != s.tail
    {
      assert front[i] == chain[i] && front[i] in front;
    }
  }

  lemma PushContents<T>(s: State<T>, chain: seq<Addr>, t: Tid, a: Action<T>)
    requires Inv(s, chain) && Enabled(s, t, a) && s.pcs[t].PushTail?
    ensures Contents(Step(s, t, a), ChainAfter(s, chain, t)) == Contents(s, chain) + [s.pcs[t].v]
  {
    assert LockOk(s, t);
    TailIsLast(s, chain);
    var front, chain' := chain[..|chain| - 1], ChainAfter(s, chain, t);
    assert chain'[..|chain'| - 1] == front + [s.tail];
    ElementsAppend(s.heap, front, s.tail);
  }

  lemma PopContents<T>(s: State<T>, chain: seq<Addr>, t: Tid, a: Action<T>)
    requires Inv(s, chain) && Enabled(s, t, a) && Defined(s, t) && s.pcs[t].PopNext?
    ensures var n := s.pcs[t].n;
      n in s.heap && s.heap[n].data.Some?
      && Contents(s, chain) == [s.heap[n].data.value] + Contents(Step(s, t, a), ChainAfter(s, chain, t))
  {
    assert ThreadOk(s, chain, t);
    var front, chain' := chain[..|chain| - 1], ChainAfter(s, chain, t);
    assert front[0] == chain[0] && chain'[..|chain'| - 1] == front[1..];
  }

  lemma SameContents<T>(s: State<T>, chain: seq<Addr>, t: Tid, a: Action<T>)
    requires Inv(s, chain) && Enabled(s, t, a) && Defined(s, t) && !s.pcs[t].PushTail? && !s.pcs[t].PopNext?
    ensures Contents(Step(s, t, a), ChainAfter(s, chain, t)) == Contents(s, chain)
  {
    FrontUntouched(s, chain, t, a);
    ElementsFrame(s.heap, Step(s, t, a).heap, chain[..|chain| - 1]);
  }

  /** What a step does to the queued elements. */
  lemma ContentsAfter<T>(s: State<T>, chain: seq<Addr>, t: Tid, a: Action<T>)
    requires Inv(s, chain) && Enabled(s, t, a) && Defined(s, t)
    ensures var q, q' := Contents(s, chain), Contents(Step(s, t, a), ChainAfter(s, chain, t));
      match s.pcs[t]
      case PushTail(v, _) => q' == q + [v]
      case PopNext(_, _, n) => n in s.heap && s.heap[n].data.Some? && q == [s.heap[n].data.value] + q'
      case _ => q' == q
  {
    if s.pcs[t].PushTail? { PushContents(s, chain, t, a); }
    else if s.pcs[t].PopNext? { PopContents(s, chain, t, a); }
    else { SameContents(s, chain, t, a); }
  }

  lemma EmptyIffShort<T>(s: State<T>, chain: seq<Addr>)
    requires ChainOk(s, chain)
    ensures Contents(s, chain) == [] <==> s.tail == chain[0]
  {
    if |chain| >= 2 {
      assert Linked(s, chain, 0) && chain[0] != chain[|chain| - 1];
      assert chain[..|chain| - 1][0] == chain[0];
    }
  }

  /** The head moves only under head_mutex, and a finished pop keeps its node to itself. */
  lemma PushStatus<T>(s: State<T>, chain: seq<Addr>, t: Tid, a: Action<T>, u: Tid)
    requires Inv(s, chain) && Enabled(s, t, a) && Defined(s, t) && u < |s.pcs| && u != t && Pushing(s.pcs[t])
    ensures StatusOf(PushStep(s, t, a), ChainAfter(s, chain, t), s.pcs[u]) == StatusOf(s, chain, s.pcs[u])
  {
    assert ThreadOk(s, chain, t) && ThreadOk(s, chain, u) && s.tail in chain;
  }

  lemma TakeStatus<T>(s: State<T>, chain: seq<Addr>, t: Tid, u: Tid)
    requires Inv(s, chain) && t < |s.pcs| && Defined(s, t) && u < |s.pcs| && u != t && Taking(s.pcs[t])
    ensures StatusOf(TakeStep(s, t), ChainAfter(s, chain, t), s.pcs[u]) == StatusOf(s, chain, s.pcs[u])
  {
    assert LockOk(s, t) && LockOk(s, u) && Private(s, t, u);
  }

  /** The status of another thread does not change. */
  lemma OthersStatus<T>(s: State<T>, chain: seq<Addr>, t: Tid, a: Action<T>, u: Tid)
    requires Inv(s, chain) && Enabled(s, t, a) && Defined(s, t) && u < |s.pcs| && u != t
    ensures Step(s, t, a).pcs[u] == s.pcs[u]
    ensures StatusOf(Step(s, t, a), ChainAfter(s, chain, t), s.pcs[u]) == StatusOf(s, chain, s.pcs[u])
  {
    if Pushing(s.pcs[t]) { PushStatus(s, chain, t, a, u); }
    else if Taking(s.pcs[t]) { TakeStatus(s, chain, t, u); }
  }

  /** How one thread's call and the queue may change together. */
  ghost predicate CallStep<T>(c: Status<T>, q: seq<T>, c': Status<T>, q': seq<T>) {
    match c
    case Free => c'.Called? && q' == q
    case Called(op) => CanEffect(op, q) && q' == Effect(op, q).0 && c' == Finished(op, Effect(op, q).1)
    case Finished(_, _) => c'.Free? && q' == q
  }

  /** What thread t's call is to the one-lock queue. */
  function Mine<T>(s: State<T>, chain: seq<Addr>, t: Tid): Status<T>
    requires t < |s.pcs| && chain != []
  {
    StatusOf(s, chain, s.pcs[t])
  }

  /** From s with `chain` to s', thread t's call takes effect at its one moment, or not at all. */
  ghost predicate Tells<T>(s: State<T>, chain: seq<Addr>, s': State<T>, chain': seq<Addr>, t: Tid)
    requires t < |s.pcs| == |s'.pcs| && chain != [] && chain' != []
  {
    var c, c', q, q' := Mine(s, chain, t), Mine(s', chain', t), Contents(s, chain), Contents(s', chain');
    (c' == c && q' == q) || CallStep(c, q, c', q')
  }

  lemma PushTells<T>(s: State<T>, chain: seq<Addr>, t: Tid, a: Action<T>)
    requires Inv(s, chain) && Enabled(s, t, a) && Defined(s, t) && Pushing(s.pcs[t])
    ensures Tells(s, chain, PushStep(s, t, a), ChainAfter(s, chain, t), t)
  {
    ContentsAfter(s, chain, t, a);
  }

  lemma LookTells<T>(s: State<T>, chain: seq<Addr>, t: Tid, a: Action<T>)
    requires Inv(s, chain) && Enabled(s, t, a) && Defined(s, t) && Looking(s.pcs[t])
    ensures Tells(s, chain, LookStep(s, t), chain, t)
  {
    assert ThreadOk(s, chain, t);
    LocksAt(s, t);
    ContentsAfter(s, chain, t, a);
    EmptyIffShort(s, chain);
  }

  /** A pop takes effect when it stores the head. */
  lemma PopTells<T>(s: State<T>, chain: seq<Addr>, t: Tid, a: Action<T>)
    requires Inv(s, chain) && Enabled(s, t, a) && Defined(s, t) && s.pcs[t].PopNext?
    ensures Tells(s, chain, TakeStep(s, t), ChainAfter(s, chain, t), t)
  {
    assert ThreadOk(s, chain, t);
    PopContents(s, chain, t, a);
  }

  /** The other steps of taking a node keep the call where it is. */
  lemma TakeMine<T>(s: State<T>, chain: seq<Addr>, t: Tid)
    requires t < |s.pcs| && chain != [] && ThreadOk(s, chain, t)
    requires Defined(s, t) && Taking(s.pcs[t]) && !s.pcs[t].PopNext?
    ensures Mine(TakeStep(s, t), chain, t) == Mine(s, chain, t)
  {
  }

  lemma TakeTells<T>(s: State<T>, chain: seq<Addr>, t: Tid, a: Action<T>)
    requires Inv(s, chain) && Enabled(s, t, a) && Defined(s, t) && Taking(s.pcs[t])
    ensures Tells(s, chain, TakeStep(s, t), ChainAfter(s, chain, t), t)
  {
    if s.pcs[t].PopNext? {
      PopTells(s, chain, t, a);
    } else {
      assert ThreadOk(s, chain, t);
      SameContents(s, chain, t, a);
      TakeMine(s, chain, t);
    }
  }

  /** The stepping thread's call takes effect at its one moment, or does not change. */
  lemma OwnStatus<T>(s: State<T>, chain: seq<Addr>, t: Tid, a: Action<T>)
    requires Inv(s, chain) && Enabled(s, t, a) && Defined(s, t)
    ensures Tells(s, chain, Step(s, t, a), ChainAfter(s, chain, t), t)
  {
    if Pushing(s.pcs[t]) { PushTells(s, chain, t, a); }
    else if Looking(s.pcs[t]) { LookTells(s, chain, t, a); }
    else if Taking(s.pcs[t]) { TakeTells(s, chain, t, a); }
    else { ContentsAfter(s, chain, t, a); }
  }

  /** Every step of the two-lock queue is a step of the one-lock queue or changes nothing that
      it sees. */
  lemma StepRefines<T>(s: State<T>, chain: seq<Addr>, t: Tid, a: Action<T>)
    requires Inv(s, chain) && Enabled(s, t, a) && Defined(s, t)
    ensures var v, v' := View(s, chain), View(Step(s, t, a), ChainAfter(s, chain, t));
      v' == v || SpecStep(v, v', t)
  {
    var s', chain' := Step(s, t, a), ChainAfter(s, chain, t);
    var v, v' := View(s, chain), View(s', chain');
    OwnStatus(s, chain, t, a);
    forall u | 0 <= u < |s.pcs| && u != t
      ensures v'.calls[u] == v.calls[u]
    {
      OthersStatus(s, chain, t, a, u);
    }
    if v'.calls[t] == v.calls[t] { assert v'.calls == v.calls; }
  }

  // ----- runs -----

  /** Thread t takes a step; one that is not defined could do anything. */
  ghost predicate Moves<T(!new)>(s: State<T>, s': State<T>, t: Tid, a: Action<T>) {
    Enabled(s, t, a) && (Defined(s, t) ==> s' == Step(s, t, a))
  }

  ghost predicate Next<T(!new)>(s: State<T>, s': State<T>) {
    exists t: Tid, a: Action<T> :: Moves(s, s', t, a)
  }

  ghost predicate Run<T(!new)>(trace: seq<State<T>>) {
    && trace != [] && Init(trace[0])
    && forall i {:trigger Next(trace[i], trace[i + 1])} :: 0 <= i < |trace| - 1 ==> Next(trace[i], trace[i + 1])
  }

  ghost predicate SpecNext<T>(a: OneLock<T>, b: OneLock<T>) {
    b == a || exists t: Tid :: SpecStep(a, b, t)
  }

  ghost predicate SpecRun<T>(spec: seq<OneLock<T>>) {
    && spec != [] && spec[0].q == [] && (forall t :: 0 <= t < |spec[0].calls| ==> spec[0].calls[t].Free?)
    && forall i {:trigger SpecNext(spec[i], spec[i + 1])} :: 0 <= i < |spec| - 1 ==> SpecNext(spec[i], spec[i + 1])
  }

  function OpOf<T>(pc: Pc<T>): Op<T>
    requires !pc.Idle?
  {
    if Pushing(pc) then Push(pc.v) else pc.op
  }

  /** What callers can tell: which threads are in which call, and what the finished ones return. */
  ghost predicate Agrees<T>(s: State<T>, a: OneLock<T>) {
    && |a.calls| == |s.pcs|
    && forall t {:trigger a.calls[t]} :: 0 <= t < |s.pcs| ==>
      && (s.pcs[t].Idle? <==> a.calls[t].Free?)
      && (!s.pcs[t].Idle? ==> a.calls[t].op == OpOf(s.pcs[t]))
      && (s.pcs[t].Return? ==> a.calls[t] == Finished(s.pcs[t].op, s.pcs[t].res))
  }

  lemma ViewAgrees<T>(s: State<T>, chain: seq<Addr>)
    requires Inv(s, chain)
    ensures Agrees(s, View(s, chain))
  {
    forall t: Tid | t < |s.pcs|
      ensures s.pcs[t].Idle? <==> StatusOf(s, chain, s.pcs[t]).Free?
      ensures !s.pcs[t].Idle? ==> StatusOf(s, chain, s.pcs[t]).op == OpOf(s.pcs[t])
    {
      assert ThreadOk(s, chain, t);
    }
  }

  lemma InitInv<T>(s: State<T>)
    requires Init(s)
    ensures Inv(s, [s.tail]) && View(s, [s.tail]).q == []
  {
    assert forall t: Tid :: t < |s.pcs| ==> s.pcs[t].Idle? && LockOk(s, t);
  }

  ghost predicate StepSeen<T>(s: State<T>, chain: seq<Addr>, s': State<T>, chain': seq<Addr>) {
    chain != [] && chain' != [] && SpecNext(View(s, chain), View(s', chain'))
  }

  lemma MoveSeen<T(!new)>(s: State<T>, chain: seq<Addr>, s': State<T>) returns (chain': seq<Addr>)
    requires Inv(s, chain) && Next(s, s')
    ensures Inv(s', chain') && StepSeen(s, chain, s', chain')
  {
    var t: Tid, a: Action<T> :| Moves(s, s', t, a);
    StepsAreDefined(s, chain, t);
    StepKeepsInv(s, chain, t, a);
    StepRefines(s, chain, t, a);
    chain' := ChainAfter(s, chain, t);
  }

  /** Every reachable state is a list from head to dummy, and the run is a run of the one-lock
      queue as seen through it. */
  lemma {:induction false} RunInv<T(!new)>(trace: seq<State<T>>) returns (chains: seq<seq<Addr>>)
    requires Run(trace)
    ensures |chains| == |trace| && forall i :: 0 <= i < |trace| ==> Inv(trace[i], chains[i])
    ensures chains[0] == [trace[0].tail]
    ensures forall i :: 0 <= i < |trace| - 1 ==> StepSeen(trace[i], chains[i], trace[i + 1], chains[i + 1])
  {
    if |trace| == 1 {
      InitInv(trace[0]);
      chains := [[trace[0].tail]];
    } else {
      var k := |trace| - 2;
      var before := trace[..k + 1];
      forall i | 0 <= i < |before| - 1
        ensures Next(before[i], before[i + 1])
      {
        assert Next(trace[i], trace[i + 1]);
      }
      var prefix := RunInv(before);
      assert Next(trace[k], trace[k + 1]);
      var last := MoveSeen(trace[k], prefix[k], trace[k + 1]);
      chains := prefix + [last];
      forall i | 0 <= i < |trace| - 1
        ensures StepSeen(trace[i], chains[i], trace[i + 1], chains[i + 1])
      {
        if i < k { assert StepSeen(before[i], prefix[i], before[i + 1], prefix[i + 1]); }
      }
    }
  }

  /** The two-lock queue is linearizable: whatever callers can tell of a run of any number of
      threads, a run of the one-lock queue shows too, with each call taking effect at one moment
      between its beginning and its return. */
  lemma Linearizable<T(!new)>(trace: seq<State<T>>)
    requires Run(trace)
    ensures exists spec: seq<OneLock<T>> ::
      |spec| == |trace| && SpecRun(spec) && forall i :: 0 <= i < |trace| ==> Agrees(trace[i], spec[i])
  {
    var chains := RunInv(trace);
    var spec := seq(|trace|, i requires 0 <= i < |trace| => View(trace[i], chains[i]));
    InitInv(trace[0]);
    forall i | 0 <= i < |trace|
      ensures Agrees(trace[i], spec[i])
    {
      ViewAgrees(trace[i], chains[i]);
    }
    forall i | 0 <= i < |spec| - 1
      ensures SpecNext(spec[i], spec[i + 1])
    {
      assert StepSeen(trace[i], chains[i], trace[i + 1], chains[i + 1]);
    }
    assert SpecRun(spec);
  }

  /** No reachable step follows a null or freed pointer or takes the dummy: the node a pop
      unlinks always carries an element, which nothing changes until the pop has read it. */
  lemma NeverTakesTheDummy<T(!new)>(trace: seq<State<T>>, i: nat, t: Tid)
    requires Run(trace) && i < |trace| && t < |trace[i].pcs|
    ensures Defined(trace[i], t)
    ensures trace[i].pcs[t].PopNext? ==> trace[i].pcs[t].n != trace[i].tail
    ensures var pc := trace[i].pcs[t];
      pc.PopNext? || pc.PopUnlock? || pc.PopResult? ==> pc.n in trace[i].heap && trace[i].heap[pc.n].data.Some?
  {
    var chains := RunInv(trace);
    var s, chain := trace[i], chains[i];
    StepsAreDefined(s, chain, t);
    assert ThreadOk(s, chain, t);
    if s.pcs[t].PopNext? { assert chain[0] != chain[|chain| - 1]; }
  }
}
