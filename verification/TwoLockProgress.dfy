/** What moves on in the two-lock queue: no reachable state is a deadlock, and a call sleeps or
    comes back with nothing only if the queue was empty when it looked. */
module TwoLockProgress {
  import opened Bytes
  import opened TwoLockQueue
  import opened TwoLockProofs

  // ----- no deadlock -----

  predicate CanGo<T(!new)>(s: State<T>, t: Tid) {
    t < |s.pcs| && !s.pcs[t].Idle? && !s.pcs[t].PushNew? && Enabled(s, t, Go)
  }

  /** An address that is not in use. */
  lemma FreshAddr<T>(heap: map<Addr, Node<T>>) returns (p: Addr)
    ensures p !in heap
  {
    p := Above(heap.Keys);
  }

  lemma {:induction false} Above(used: set<Addr>) returns (p: Addr)
    ensures forall x :: x in used ==> x < p
    decreases |used|
  {
    if used == {} {
      p := 0;
    } else {
      var x :| x in used;
      var q := Above(used - {x});
      p := if x < q then q else x + 1;
      forall y | y in used
        ensures y < p
      {
        assert y == x || y in used - {x};
      }
    }
  }

  /** The owner of tail_mutex can always go on; the owner of head_mutex waits for nothing but
      tail_mutex; any other thread waits for nothing but these two. */
  lemma SomeGoes<T(!new)>(s: State<T>, t: Tid)
    requires LocksOk(s) && t < |s.pcs| && !s.pcs[t].Idle? && !s.pcs[t].PushNew?
    ensures CanGo(s, t) || (s.tailLock.Some? && CanGo(s, s.tailLock.value))
            || (s.headLock.Some? && CanGo(s, s.headLock.value))
  {
    assert LockOk(s, t);
    if s.tailLock.Some? {
      assert LockOk(s, s.tailLock.value);
    } else if s.headLock.Some? {
      assert LockOk(s, s.headLock.value);
    }
  }

  /** In every reachable state in which some thread is in a call, some thread in a call can take a
      step. */
  lemma NoDeadlock<T(!new)>(trace: seq<State<T>>, i: nat, t: Tid)
    requires Run(trace) && i < |trace| && t < |trace[i].pcs| && !trace[i].pcs[t].Idle?
    ensures exists u: Tid, a: Action<T> :: u < |trace[i].pcs| && !trace[i].pcs[u].Idle? && Enabled(trace[i], u, a)
  {
    var chains := RunInv(trace);
    var s := trace[i];
    assert Inv(s, chains[i]);
    if s.pcs[t].PushNew? {
      var p := FreshAddr(s.heap);
      assert Enabled(s, t, Alloc(p));
    } else {
      SomeGoes(s, t);
    }
  }

  // ----- looking at the queue -----

  /** Thread t has loaded the tail x and not yet compared. */
  ghost predicate Loaded<T>(s: State<T>, t: Tid, op: Op<T>, x: Addr) {
    t < |s.pcs| && (s.pcs[t] == PopTailUnlock(op, x) || s.pcs[t] == PopCompare(op, x))
  }

  /** What the comparison of head and tail means for a call: is_empty answers it, a waiting pop
      sleeps on an empty queue, any other pop returns nothing, and from a queue that is not empty
      every pop goes on to take the first node. */
  ghost predicate Looked<T>(pc: Pc<T>, op: Op<T>, empty: bool) {
    match op
    case IsEmpty => pc == PopAnswer(op, Answer(empty))
    case WaitPop(early) => if empty then pc == PopSleep(op) else Takes(pc, op, early)
    case TryPop(early) => if empty then pc == PopAnswer(op, Nothing) else Takes(pc, op, early)
    case Push(_) => true
  }

  ghost predicate Takes<T>(pc: Pc<T>, op: Op<T>, early: bool) {
    pc == if early then PopCopy(op) else PopMove(op, None)
  }

  /** Only the owner of head_mutex changes the head. */
  lemma HeadKept<T(!new)>(s: State<T>, chain: seq<Addr>, t: Tid, u: Tid, a: Action<T>)
    requires Inv(s, chain) && t < |s.pcs| && HoldsHead(s.pcs[t]) && u != t && Enabled(s, u, a) && Defined(s, u)
    ensures Step(s, u, a).head == s.head && |Step(s, u, a).pcs| == |s.pcs| && Step(s, u, a).pcs[t] == s.pcs[t]
  {
    assert LockOk(s, t) && LockOk(s, u);
  }

  lemma OwnLook<T(!new)>(s: State<T>, t: Tid, a: Action<T>, op: Op<T>, x: Addr)
    requires Loaded(s, t, op, x) && Enabled(s, t, a) && Defined(s, t) && s.head.Some?
    ensures var s' := Step(s, t, a);
      && s'.head == s.head && t < |s'.pcs|
      && (Loaded(s', t, op, x) || Looked(s'.pcs[t], op, s.head.value == x))
  {
  }

  lemma LookMoves<T(!new)>(s: State<T>, chain: seq<Addr>, s': State<T>, t: Tid, op: Op<T>, x: Addr)
    requires Inv(s, chain) && Next(s, s') && Loaded(s, t, op, x)
    ensures s.head.Some? && s'.head == s.head && t < |s'.pcs|
    ensures Loaded(s', t, op, x) || Looked(s'.pcs[t], op, s.head.value == x)
  {
    var u: Tid, a: Action<T> :| Moves(s, s', u, a);
    StepsAreDefined(s, chain, u);
    HeadThere(s, chain, t);
    if u == t {
      OwnLook(s, t, a, op, x);
    } else {
      HeadKept(s, chain, t, u, a);
    }
  }

  lemma HeadThere<T>(s: State<T>, chain: seq<Addr>, t: Tid)
    requires Inv(s, chain) && t < |s.pcs| && HoldsHead(s.pcs[t]) && !s.pcs[t].PopNext?
    ensures s.head.Some?
  {
    assert LockOk(s, t);
  }

  ghost predicate StillLoaded<T>(trace: seq<State<T>>, i: nat, j: nat, t: Tid, op: Op<T>, x: Addr)
    requires j <= |trace|
  {
    forall k :: i < k < j ==> Loaded(trace[k], t, op, x)
  }

  lemma RunHeadThere<T(!new)>(trace: seq<State<T>>, k: nat, t: Tid, op: Op<T>, x: Addr)
    requires Run(trace) && k < |trace| && Loaded(trace[k], t, op, x)
    ensures trace[k].head.Some?
  {
    var chains := RunInv(trace);
    HeadThere(trace[k], chains[k], t);
  }

  lemma RunLook<T(!new)>(trace: seq<State<T>>, k: nat, t: Tid, op: Op<T>, x: Addr)
    requires Run(trace) && k < |trace| - 1 && Loaded(trace[k], t, op, x)
    ensures trace[k].head.Some? && trace[k + 1].head == trace[k].head && t < |trace[k + 1].pcs|
    ensures Loaded(trace[k + 1], t, op, x) || Looked(trace[k + 1].pcs[t], op, trace[k].head.value == x)
  {
    var chains := RunInv(trace);
    assert Next(trace[k], trace[k + 1]);
    LookMoves(trace[k], chains[k], trace[k + 1], t, op, x);
  }

  lemma {:induction false} LookGoesOn<T(!new)>(trace: seq<State<T>>, i: nat, j: nat, t: Tid, op: Op<T>, x: Addr)
    requires Run(trace) && i < j < |trace| && StillLoaded(trace, i, j, t, op, x)
    requires Loaded(trace[i + 1], t, op, x)
    ensures t < |trace[j].pcs| && trace[i + 1].head.Some?
    ensures trace[j].head == trace[i + 1].head
    ensures Loaded(trace[j], t, op, x) || Looked(trace[j].pcs[t], op, trace[i + 1].head.value == x)
    decreases j
  {
    if j == i + 1 {
      RunHeadThere(trace, j, t, op, x);
    } else {
      var m := j - 1;
      LookGoesOn(trace, i, m, t, op, x);
      assert Loaded(trace[m], t, op, x);
      RunLook(trace, m, t, op, x);
    }
  }

  /** A call that looks at the queue, from the load of the tail at i to the comparison before j: what
      it does then depends on whether the queue was empty at the load, whatever the other threads
      have pushed since. A waiting pop sleeps, and any other comes back with nothing, exactly if it was. */
  lemma LooksAreExact<T(!new)>(trace: seq<State<T>>, i: nat, j: nat, t: Tid, op: Op<T>)
    requires Run(trace) && i + 1 < j < |trace| && t < |trace[i].pcs| && trace[i].pcs[t] == PopTailRead(op)
    requires trace[i + 1] == Step(trace[i], t, Go)
    requires StillLoaded(trace, i, j, t, op, trace[i].tail) && !Loaded(trace[j], t, op, trace[i].tail)
    ensures t < |trace[j].pcs|
    ensures exists chain ::
      Inv(trace[i], chain) && (Contents(trace[i], chain) == [] <==> trace[i].head == Some(trace[i].tail))
    ensures var pc, empty := trace[j].pcs[t], trace[i].head == Some(trace[i].tail);
      match op
      case IsEmpty => pc == PopAnswer(op, Answer(empty))
      case WaitPop(early) => pc == if empty then PopSleep(op) else if early then PopCopy(op) else PopMove(op, None)
      case TryPop(early) =>
        pc == if empty then PopAnswer(op, Nothing) else if early then PopCopy(op) else PopMove(op, None)
      case Push(_) => true
  {
    var chains := RunInv(trace);
    HeadThere(trace[i], chains[i], t);
    EmptyIffShort(trace[i], chains[i]);
    LookGoesOn(trace, i, j, t, op, trace[i].tail);
  }
}
