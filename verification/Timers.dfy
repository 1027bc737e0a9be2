/** async_tasker.h: timers taken from a pool of expired ones, and the jobs that use them: the ones
    that reschedule themselves, decode_cont and try_read, and cont_internal, which tries again
    later. Handlers and posted jobs run one at a time on the tasker's thread; other threads post
    jobs at any moment. */
module Timers {
  import opened Bytes

  type Timer = nat

  datatype Job =
    | Loop           // the self-rescheduling job of a tasker: decode_cont or try_read
    | Retry          // cont_internal: runs the loop body, or has itself armed once more
    | Arm(job: Job)  // posted by add_job(f, dur): sets a timer to run the job
    | Other(id: nat)

  /** A timer on which async_wait has been called, and what its handler is to run. */
  datatype Wait = Wait(timer: Timer, job: Job)

  datatype Pool = Pool(active: set<Timer>, expired: seq<Timer>, waits: seq<Wait>)

  /** create_get_timer: the oldest expired timer, or a new one, is armed with the job. */
  function TimerFor(p: Pool, unused: Timer): Timer {
    if p.expired == [] then unused else p.expired[0]
  }

  function Created(p: Pool, job: Job, unused: Timer): Pool {
    var t := TimerFor(p, unused);
    Pool(p.active + {t}, if p.expired == [] then [] else p.expired[1..], p.waits + [Wait(t, job)])
  }

  /** handle_timeout of wait i: the timer goes back to the pool unless that is full. */
  function TimedOut(p: Pool, i: nat, max: nat): Pool
    requires i < |p.waits|
  {
    var t := p.waits[i].timer;
    Pool(p.active - {t}, if |p.expired| < max then p.expired + [t] else p.expired, p.waits[..i] + p.waits[i + 1..])
  }

  /** The timers that wait. */
  function Waiting(waits: seq<Wait>): (r: seq<Timer>)
    ensures |r| == |waits| && forall i :: 0 <= i < |r| ==> r[i] == waits[i].timer
  {
    seq(|waits|, i requires 0 <= i < |waits| => waits[i].timer)
  }

  /** Active timers are exactly the waiting ones, each waits once, none is in the pool, and the
      pool has no duplicates and keeps to its bound. */
  ghost predicate PoolOk(p: Pool, max: nat) {
    && NoDup(Waiting(p.waits)) && (forall t :: t in p.active <==> t in Waiting(p.waits))
    && NoDup(p.expired) && (forall t :: t in p.expired ==> t !in p.active)
    && |p.expired| <= max
  }

  lemma CreatedOk(p: Pool, job: Job, unused: Timer, max: nat)
    requires PoolOk(p, max) && unused !in p.active && unused !in p.expired
    ensures PoolOk(Created(p, job, unused), max)
  {
    var t, p' := TimerFor(p, unused), Created(p, job, unused);
    assert p.expired != [] ==> p.expired[0] in p.expired;
    assert t !in p.active;
    assert Waiting(p'.waits) == Waiting(p.waits) + [t];
    forall x | x in p'.expired
      ensures x !in p'.active
    {
      var k :| 0 <= k < |p'.expired| && p'.expired[k] == x;
      assert p.expired[k + 1] == x && p.expired[k + 1] != p.expired[0];
    }
  }

  lemma TimedOutOk(p: Pool, i: nat, max: nat)
    requires PoolOk(p, max) && i < |p.waits|
    ensures PoolOk(TimedOut(p, i, max), max)
  {
    var t, p' := p.waits[i].timer, TimedOut(p, i, max);
    var w, w' := Waiting(p.waits), Waiting(p'.waits);
    assert w[i] == t && t in w;
    assert w' == w[..i] + w[i + 1..];
    assert t !in p.expired;
    forall x
      ensures x in p'.active <==> x in w'
    {
      if x in w && x != t {
        var k :| 0 <= k < |w| && w[k] == x;
        assert w'[if k < i then k else k - 1] == x;
      }
      assert x in w' ==> x in w && x != t by {
        if x in w' {
          var k :| 0 <= k < |w'| && w'[k] == x;
          assert w[if k < i then k else k + 1] == x;
        }
      }
    }
  }

  // ----- the loop of the tasker -----

  /** `loopTimer` is _decode_timer, or _file_read_timer. */
  datatype Tasks = Tasks(pool: Pool, posted: seq<Job>, loopTimer: Option<Timer>)

  /** What a run of the loop body finds: nothing to do, a reason to wait, or work done. */
  datatype Finding = Stop | Sleep | Again

  /** What a job does with the tasker: run the loop body, post a job, or set a timer. `unused` is
      the address of a timer that may be made. */
  datatype Op = Body(f: Finding, unused: Timer) | Post(job: Job) | Delay(job: Job, unused: Timer)

  predicate Fresh(v: Tasks, t: Timer) {
    t !in v.pool.active && t !in v.pool.expired && v.loopTimer != Some(t)
  }

  predicate LoopTimerActive(v: Tasks) {
    v.loopTimer.Some? && v.loopTimer.value in v.pool.active
  }

  /** One run of the body of decode_cont or try_read. */
  function RunLoop(v: Tasks, f: Finding, unused: Timer): Tasks {
    if f.Stop? || LoopTimerActive(v) then v
    else if f.Again? then v.(posted := v.posted + [Loop])
    else v.(pool := Created(v.pool, Loop, unused), loopTimer := Some(TimerFor(v.pool, unused)))
  }

  function Apply(v: Tasks, op: Op): Tasks {
    match op
    case Body(f, unused) => RunLoop(v, f, unused)
    case Post(job) => v.(posted := v.posted + [job])
    case Delay(job, unused) => v.(pool := Created(v.pool, job, unused))
  }

  function ApplyAll(v: Tasks, ops: seq<Op>): Tasks {
    if ops == [] then v else Apply(ApplyAll(v, ops[..|ops| - 1]), ops[|ops| - 1])
  }

  /** A timer is made at an address that is not in use. */
  ghost predicate Possible(v: Tasks, ops: seq<Op>) {
    forall k :: 0 <= k < |ops| && !ops[k].Post? ==> Fresh(ApplyAll(v, ops[..k]), ops[k].unused)
  }

  /** Jobs that are posted: only the loop body itself sets a timer for the loop job. */
  predicate Postable(job: Job) {
    job.Arm? ==> Armable(job.job)
  }

  predicate Armable(job: Job) {
    job.Retry? || job.Other?
  }

  /** What each job does. Other jobs do anything in any order, and may run the loop body too. */
  predicate Does(job: Job, ops: seq<Op>) {
    match job
    case Loop => |ops| == 1 && ops[0].Body?
    case Retry => |ops| == 1 && (ops[0].Body? || ops[0] == Post(Arm(Retry)))
    case Arm(j) => |ops| == 1 && ops[0].Delay? && ops[0].job == j
    case Other(_) => forall k :: 0 <= k < |ops| ==>
      (ops[k].Post? ==> Postable(ops[k].job)) && (ops[k].Delay? ==> ops[k].job.Other?)
  }

  /** Where the job at hand comes from: the front of the posted jobs, or wait i. */
  datatype Hand = Front | Fired(i: nat)

  predicate AtHand(v: Tasks, h: Hand) {
    if h.Front? then v.posted != [] else h.i < |v.pool.waits|
  }

  function JobAt(v: Tasks, h: Hand): Job
    requires AtHand(v, h)
  {
    if h.Front? then v.posted[0] else v.pool.waits[h.i].job
  }

  /** The state in which the job at hand starts to run. */
  function Taken(v: Tasks, h: Hand, max: nat): Tasks
    requires AtHand(v, h)
  {
    if h.Front? then v.(posted := v.posted[1..]) else v.(pool := TimedOut(v.pool, h.i, max))
  }

  /** The tasker's thread runs the job at hand, or another thread posts a job. */
  datatype Step = Runs(h: Hand, ops: seq<Op>) | Outside(job: Job)

  ghost predicate Next(v: Tasks, s: Step, v': Tasks, max: nat) {
    match s
    case Runs(h, ops) =>
      && AtHand(v, h) && Does(JobAt(v, h), ops) && Possible(Taken(v, h, max), ops)
      && v' == ApplyAll(Taken(v, h, max), ops)
    case Outside(job) => Postable(job) && v' == v.(posted := v.posted + [job])
  }

  const START := Tasks(Pool({}, [], []), [], None)

  ghost predicate Run(trace: seq<Tasks>, steps: seq<Step>, max: nat) {
    && |trace| == |steps| + 1 && trace[0] == START
    && forall i {:trigger Next(trace[i], steps[i], trace[i + 1], max)} :: 0 <= i < |steps| ==>
      Next(trace[i], steps[i], trace[i + 1], max)
  }

  /** A timer that is to run the loop job is the one the loop remembers, and no timer or posted
      job gets round that. */
  ghost predicate LoopOk(v: Tasks) {
    && (forall i :: 0 <= i < |v.pool.waits| && v.pool.waits[i].job.Loop? ==> v.loopTimer == Some(v.pool.waits[i].timer))
    && (forall i :: 0 <= i < |v.pool.waits| ==> !v.pool.waits[i].job.Arm?)
    && (forall i :: 0 <= i < |v.posted| ==> Postable(v.posted[i]))
  }

  ghost predicate Inv(v: Tasks, max: nat) {
    PoolOk(v.pool, max) && LoopOk(v)
  }

  lemma ApplyKeeps(v: Tasks, op: Op, max: nat)
    requires Inv(v, max) && (!op.Post? ==> Fresh(v, op.unused))
    requires op.Post? ==> Postable(op.job)
    requires op.Delay? ==> Armable(op.job)
    ensures Inv(Apply(v, op), max)
  {
    match op
    case Body(f, unused) =>
      CreatedOk(v.pool, Loop, unused, max);
      forall i | 0 <= i < |v.pool.waits| && v.pool.waits[i].job.Loop?
        ensures LoopTimerActive(v)
      {
        assert Waiting(v.pool.waits)[i] == v.pool.waits[i].timer;
      }
    case Post(_) =>
    case Delay(job, unused) =>
      CreatedOk(v.pool, job, unused, max);
  }

  /** What the operations of a job may be, whatever the job. */
  predicate Sound(ops: seq<Op>) {
    forall k :: 0 <= k < |ops| ==>
      (ops[k].Post? ==> Postable(ops[k].job)) && (ops[k].Delay? ==> Armable(ops[k].job))
  }

  lemma {:induction false} ApplyAllKeeps(v: Tasks, ops: seq<Op>, max: nat)
    requires Inv(v, max) && Sound(ops) && Possible(v, ops)
    ensures Inv(ApplyAll(v, ops), max)
  {
    if ops == [] {
    } else {
      var front, last := ops[..|ops| - 1], ops[|ops| - 1];
      assert forall k :: 0 <= k <= |front| ==> ops[..k] == front[..k];
      assert front[..|front|] == front;
      ApplyAllKeeps(v, front, max);
      ApplyKeeps(ApplyAll(v, front), last, max);
    }
  }

  lemma TakenKeeps(v: Tasks, h: Hand, max: nat)
    requires Inv(v, max) && AtHand(v, h)
    ensures Inv(Taken(v, h, max), max)
    ensures Postable(JobAt(v, h))
  {
    if h.Fired? { TimedOutOk(v.pool, h.i, max); }
  }

  lemma NextKeeps(v: Tasks, s: Step, v': Tasks, max: nat)
    requires Inv(v, max) && Next(v, s, v', max)
    ensures Inv(v', max)
  {
    if s.Runs? {
      TakenKeeps(v, s.h, max);
      assert Sound(s.ops);
      ApplyAllKeeps(Taken(v, s.h, max), s.ops, max);
    }
  }

  lemma {:induction false} RunInv(trace: seq<Tasks>, steps: seq<Step>, max: nat, i: nat)
    requires Run(trace, steps, max) && i < |trace|
    ensures Inv(trace[i], max)
  {
    if i == 0 {
    } else {
      var k := i - 1;
      RunInv(trace, steps, max, k);
      assert Next(trace[k], steps[k], trace[k + 1], max);
      NextKeeps(trace[k], steps[k], trace[k + 1], max);
    }
  }

  /** In every run, active and expired timers are apart and without duplicates, the pool keeps to
      its bound, and every active timer has exactly one pending handler. */
  lemma TimersAreConsistent(trace: seq<Tasks>, steps: seq<Step>, max: nat, i: nat)
    requires Run(trace, steps, max) && i < |trace|
    ensures var p := trace[i].pool;
      && NoDup(p.expired) && |p.expired| <= max && (forall t :: t in p.expired ==> t !in p.active)
      && (forall j, k :: 0 <= j < k < |p.waits| ==> p.waits[j].timer != p.waits[k].timer)
      && (forall t :: t in p.active <==> exists k :: 0 <= k < |p.waits| && p.waits[k].timer == t)
  {
    RunInv(trace, steps, max, i);
    var w := Waiting(trace[i].pool.waits);
    forall t
      ensures t in w <==> exists k :: 0 <= k < |w| && trace[i].pool.waits[k].timer == t
    {
    }
    assert forall j, k :: 0 <= j < k < |w| ==> w[j] != w[k];
  }

  /** In every run, at most one timer is set to run the loop job. */
  lemma AtMostOneScheduledLoop(trace: seq<Tasks>, steps: seq<Step>, max: nat, i: nat, j: nat, k: nat)
    requires Run(trace, steps, max) && i < |trace| && j < |trace[i].pool.waits| && k < |trace[i].pool.waits|
    requires trace[i].pool.waits[j].job.Loop? && trace[i].pool.waits[k].job.Loop?
    ensures j == k
  {
    RunInv(trace, steps, max, i);
    var w := Waiting(trace[i].pool.waits);
    assert w[j] == w[k];
  }

  // ----- no job is lost or run twice -----

  function WaitJobs(waits: seq<Wait>): (r: seq<Job>)
    ensures |r| == |waits| && forall i :: 0 <= i < |r| ==> r[i] == waits[i].job
  {
    seq(|waits|, i requires 0 <= i < |waits| => waits[i].job)
  }

  /** The jobs that are posted or have a timer set. */
  function Pending(v: Tasks): multiset<Job> {
    multiset(v.posted) + multiset(WaitJobs(v.pool.waits))
  }

  /** What an operation asks to be run later. */
  function Asked(v: Tasks, op: Op): multiset<Job> {
    match op
    case Post(job) => multiset{job}
    case Delay(job, _) => multiset{job}
    case Body(f, _) => if f.Stop? || LoopTimerActive(v) then multiset{} else multiset{Loop}
  }

  function AllAsked(v: Tasks, ops: seq<Op>): multiset<Job> {
    if ops == [] then multiset{}
    else AllAsked(v, ops[..|ops| - 1]) + Asked(ApplyAll(v, ops[..|ops| - 1]), ops[|ops| - 1])
  }

  lemma OneAsked(v: Tasks, op: Op)
    ensures Pending(Apply(v, op)) == Pending(v) + Asked(v, op)
  {
    var v' := Apply(v, op);
    if v'.pool.waits != v.pool.waits {
      var w := v'.pool.waits[|v.pool.waits|];
      assert v'.pool.waits == v.pool.waits + [w];
      assert WaitJobs(v'.pool.waits) == WaitJobs(v.pool.waits) + [w.job];
    }
  }

  lemma {:induction false} AllAreAsked(v: Tasks, ops: seq<Op>)
    ensures Pending(ApplyAll(v, ops)) == Pending(v) + AllAsked(v, ops)
  {
    if ops == [] {
    } else {
      AllAreAsked(v, ops[..|ops| - 1]);
      OneAsked(ApplyAll(v, ops[..|ops| - 1]), ops[|ops| - 1]);
    }
  }

  lemma WithoutOne(s: seq<Job>, i: nat)
    requires i < |s|
    ensures multiset(s) == multiset(s[..i] + s[i + 1..]) + multiset{s[i]}
  {
    assert s == s[..i] + [s[i]] + s[i + 1..];
  }

  lemma OneIsTaken(v: Tasks, h: Hand, max: nat)
    requires AtHand(v, h)
    ensures Pending(v) == Pending(Taken(v, h, max)) + multiset{JobAt(v, h)}
  {
    if h.Front? {
      assert v.posted == [v.posted[0]] + v.posted[1..];
    } else {
      var jobs := WaitJobs(v.pool.waits);
      WithoutOne(jobs, h.i);
      assert WaitJobs(Taken(v, h, max).pool.waits) == jobs[..h.i] + jobs[h.i + 1..];
    }
  }

  /** Every step of the tasker's thread runs exactly one pending job; afterwards just the other pending
      jobs are pending, and those that it has asked for. */
  lemma EachJobRunsOnce(v: Tasks, h: Hand, ops: seq<Op>, v': Tasks, max: nat)
    requires Next(v, Runs(h, ops), v', max)
    ensures JobAt(v, h) in Pending(v)
    ensures Pending(v') == Pending(v) - multiset{JobAt(v, h)} + AllAsked(Taken(v, h, max), ops)
  {
    OneIsTaken(v, h, max);
    AllAreAsked(Taken(v, h, max), ops);
  }

  // ----- when the loop goes on -----

  /** The loop job is posted, or a timer is set to run it. */
  predicate LoopPending(v: Tasks) {
    Loop in v.posted || exists i :: 0 <= i < |v.pool.waits| && v.pool.waits[i].job.Loop?
  }

  /** The timer the loop remembers waits to run another job. */
  predicate TimerTaken(v: Tasks) {
    exists i :: 0 <= i < |v.pool.waits| && v.loopTimer == Some(v.pool.waits[i].timer) && !v.pool.waits[i].job.Loop?
  }

  lemma LoopBodyGoesOnIff(v: Tasks, f: Finding, unused: Timer, max: nat)
    requires Inv(v, max) && !f.Stop?
    ensures !LoopPending(RunLoop(v, f, unused)) <==> Loop !in v.posted && TimerTaken(v)
  {
    var v', w := RunLoop(v, f, unused), Waiting(v.pool.waits);
    if LoopTimerActive(v) {
      var k :| 0 <= k < |w| && w[k] == v.loopTimer.value;
      forall i | 0 <= i < |w| && v.loopTimer == Some(v.pool.waits[i].timer)
        ensures i == k
      {
        assert w[i] == w[k];
      }
      assert v.pool.waits[k].job.Loop? || TimerTaken(v);
    } else {
      forall i | 0 <= i < |w|
        ensures v.loopTimer != Some(v.pool.waits[i].timer)
      {
        assert w[i] in v.pool.active;
      }
      if f.Again? {
        assert v'.posted[|v.posted|] == Loop;
      } else {
        assert v'.pool.waits[|v.pool.waits|].job.Loop?;
      }
    }
  }

  /** The state in which operation k of a step's job begins. */
  function Midway(v: Tasks, s: Step, k: nat, max: nat): Tasks
    requires s.Runs? && AtHand(v, s.h) && k <= |s.ops|
  {
    ApplyAll(Taken(v, s.h, max), s.ops[..k])
  }

  predicate RunsBodyAt(s: Step, k: nat) {
    s.Runs? && k < |s.ops| && s.ops[k].Body?
  }

  lemma MidwayInv(v: Tasks, s: Step, v': Tasks, k: nat, max: nat)
    requires Inv(v, max) && Next(v, s, v', max) && s.Runs? && k <= |s.ops|
    ensures Inv(Midway(v, s, k, max), max)
  {
    TakenKeeps(v, s.h, max);
    assert forall j :: 0 <= j < k ==> s.ops[..k][..j] == s.ops[..j];
    ApplyAllKeeps(Taken(v, s.h, max), s.ops[..k], max);
  }

  /** In every step of every run that runs the loop body, as the posted job, from a timer or
      inside another job: told to go on, it leaves the loop job pending, except exactly if none
      is posted and the timer it remembers has been given to another job, which waits on it. */
  lemma LoopEndsIff(trace: seq<Tasks>, steps: seq<Step>, max: nat, i: nat, k: nat)
    requires Run(trace, steps, max) && i < |steps| && RunsBodyAt(steps[i], k) && !steps[i].ops[k].f.Stop?
    ensures AtHand(trace[i], steps[i].h)
    ensures var u, u' := Midway(trace[i], steps[i], k, max), Midway(trace[i], steps[i], k + 1, max);
      !LoopPending(u') <==> Loop !in u.posted && TimerTaken(u)
  {
    var s := steps[i];
    RunInv(trace, steps, max, i);
    assert Next(trace[i], s, trace[i + 1], max);
    MidwayInv(trace[i], s, trace[i + 1], k, max);
    assert s.ops[..k + 1][..k] == s.ops[..k];
    LoopBodyGoesOnIff(Midway(trace[i], s, k, max), s.ops[k].f, s.ops[k].unused, max);
  }

  /** The loop job is pending, or a timer is set to run cont_internal, which runs its body. */
  predicate LoopOrRetry(v: Tasks) {
    LoopPending(v) || exists i :: 0 <= i < |v.pool.waits| && v.pool.waits[i].job.Retry?
  }

  /** No timer waits to run any other job. */
  predicate OwnTimersOnly(v: Tasks) {
    forall i :: 0 <= i < |v.pool.waits| ==> !v.pool.waits[i].job.Other?
  }

  /** The operations of a job only add to what is posted and what waits. */
  lemma {:induction false} OpsOnlyAdd(v: Tasks, ops: seq<Op>, k: nat)
    requires k <= |ops|
    ensures ApplyAll(v, ops[..k]).posted <= ApplyAll(v, ops).posted
    ensures ApplyAll(v, ops[..k]).pool.waits <= ApplyAll(v, ops).pool.waits
    decreases |ops|
  {
    if k == |ops| {
      assert ops[..k] == ops;
    } else {
      var front := ops[..|ops| - 1];
      assert front[..k] == ops[..k];
      OpsOnlyAdd(v, front, k);
    }
  }

  lemma StillPending(u: Tasks, v: Tasks)
    requires u.posted <= v.posted && u.pool.waits <= v.pool.waits
    ensures LoopOrRetry(u) ==> LoopOrRetry(v)
    ensures OwnTimersOnly(v) ==> OwnTimersOnly(u)
  {
    if LoopOrRetry(u) {
      if Loop in u.posted {
        var i :| 0 <= i < |u.posted| && u.posted[i] == Loop;
        assert v.posted[i] == Loop;
      } else {
        var i :| 0 <= i < |u.pool.waits| && (u.pool.waits[i].job.Loop? || u.pool.waits[i].job.Retry?);
        assert v.pool.waits[i] == u.pool.waits[i];
      }
    }
  }

  /** On the decoder's tasker only decode_cont and cont_internal set timers. There, in every step
      of every run, a loop body told to go on leaves the loop job posted, or a timer set to run it
      or to run cont_internal. */
  lemma LoopOrRetryGoesOn(trace: seq<Tasks>, steps: seq<Step>, max: nat, i: nat, k: nat)
    requires Run(trace, steps, max) && i < |steps| && RunsBodyAt(steps[i], k) && !steps[i].ops[k].f.Stop?
    requires OwnTimersOnly(trace[i + 1])
    ensures LoopOrRetry(trace[i + 1])
  {
    var s := steps[i];
    LoopEndsIff(trace, steps, max, i, k);
    RunInv(trace, steps, max, i);
    assert Next(trace[i], s, trace[i + 1], max);
    MidwayInv(trace[i], s, trace[i + 1], k, max);
    var u, u' := Midway(trace[i], s, k, max), Midway(trace[i], s, k + 1, max);
    OpsOnlyAdd(Taken(trace[i], s.h, max), s.ops, k + 1);
    OpsOnlyAdd(Taken(trace[i], s.h, max), s.ops, k);
    StillPending(u, trace[i + 1]);
    StillPending(u', trace[i + 1]);
    if TimerTaken(u) && !LoopPending(u') {
      var j :| 0 <= j < |u.pool.waits| && u.loopTimer == Some(u.pool.waits[j].timer) && !u.pool.waits[j].job.Loop?;
      assert u.pool.waits[j].job.Retry?;
      StillPending(u, trace[i + 1]);
    }
  }

  /** The loop job will still run: it or cont_internal is posted, about to be armed, or waits. */
  predicate Alive(v: Tasks) {
    LoopOrRetry(v) || Retry in v.posted || Arm(Retry) in v.posted
  }

  predicate FindsStop(s: Step) {
    s.Runs? && exists k :: 0 <= k < |s.ops| && s.ops[k].Body? && s.ops[k].f.Stop?
  }

  lemma StillAlive(u: Tasks, v: Tasks)
    requires Alive(u) && u.posted <= v.posted && u.pool.waits <= v.pool.waits
    ensures Alive(v)
  {
    StillPending(u, v);
    if Retry in u.posted {
      var i :| 0 <= i < |u.posted| && u.posted[i] == Retry;
      assert v.posted[i] == Retry;
    } else if Arm(Retry) in u.posted {
      var i :| 0 <= i < |u.posted| && u.posted[i] == Arm(Retry);
      assert v.posted[i] == Arm(Retry);
    }
  }

  /** Taking a job that does not lead to the loop body leaves the others. */
  lemma TakenAlive(v: Tasks, h: Hand, max: nat)
    requires Alive(v) && AtHand(v, h) && JobAt(v, h).Other?
    ensures Alive(Taken(v, h, max))
  {
    var u := Taken(v, h, max);
    if h.Front? {
      assert v.posted == [v.posted[0]] + u.posted;
      assert forall j :: j in v.posted && j != v.posted[0] ==> j in u.posted;
      assert u.pool == v.pool;
    } else if LoopOrRetry(v) && Loop !in v.posted {
      var k :| 0 <= k < |v.pool.waits| && (v.pool.waits[k].job.Loop? || v.pool.waits[k].job.Retry?);
      assert u.pool.waits[if k < h.i then k else k - 1] == v.pool.waits[k];
    }
  }

  lemma OtherStaysAlive(v: Tasks, s: Step, v': Tasks, max: nat)
    requires Next(v, s, v', max) && Alive(v) && s.Runs? && JobAt(v, s.h).Other?
    ensures Alive(v')
  {
    var u := Taken(v, s.h, max);
    TakenAlive(v, s.h, max);
    OpsOnlyAdd(u, s.ops, 0);
    assert s.ops[..0] == [];
    StillAlive(u, v');
  }

  /** cont_internal has itself armed, and the arming sets the timer. */
  lemma RetryStaysAlive(v: Tasks, s: Step, v': Tasks, max: nat)
    requires Inv(v, max) && Next(v, s, v', max) && OwnTimersOnly(v')
    requires s.Runs? && !JobAt(v, s.h).Other? && !s.ops[0].Body?
    ensures Alive(v')
  {
    var u, op := Taken(v, s.h, max), s.ops[0];
    TakenKeeps(v, s.h, max);
    assert s.ops[..0] == [] && v' == Apply(ApplyAll(u, s.ops[..0]), op);
    if op.Post? {
      assert v'.posted[|u.posted|] == Arm(Retry);
    } else {
      assert v'.pool.waits[|u.pool.waits|].job == op.job;
    }
  }

  lemma StepStaysAlive(trace: seq<Tasks>, steps: seq<Step>, max: nat, i: nat)
    requires Run(trace, steps, max) && i < |steps| && Alive(trace[i])
    requires OwnTimersOnly(trace[i + 1]) && !FindsStop(steps[i])
    ensures Alive(trace[i + 1])
  {
    var v, s, v' := trace[i], steps[i], trace[i + 1];
    assert Next(v, s, v', max);
    if s.Outside? {
      StillAlive(v, v');
    } else if JobAt(v, s.h).Other? {
      OtherStaysAlive(v, s, v', max);
    } else if s.ops[0].Body? {
      assert RunsBodyAt(s, 0);
      LoopOrRetryGoesOn(trace, steps, max, i, 0);
    } else {
      RunInv(trace, steps, max, i);
      RetryStaysAlive(v, s, v', max);
    }
  }

  /** On a tasker whose timers only decode_cont and cont_internal set, the loop is never lost: once
      there is something to run it, there always is, until a run of its body is told to stop. */
  lemma {:induction false} LoopIsNeverLost(trace: seq<Tasks>, steps: seq<Step>, max: nat, i: nat, j: nat)
    requires Run(trace, steps, max) && i <= j < |trace| && Alive(trace[i])
    requires forall m :: i < m <= j ==> OwnTimersOnly(trace[m])
    requires forall m :: i <= m < j ==> !FindsStop(steps[m])
    ensures Alive(trace[j])
    decreases j - i
  {
    if i == j {
    } else {
      LoopIsNeverLost(trace, steps, max, i, j - 1);
      StepStaysAlive(trace, steps, max, j - 1);
    }
  }

  // ----- runs that show the exceptions -----

  lemma OneOp(v: Tasks, h: Hand, op: Op, v': Tasks, max: nat)
    requires AtHand(v, h) && Does(JobAt(v, h), [op])
    requires !op.Post? ==> Fresh(Taken(v, h, max), op.unused)
    requires v' == Apply(Taken(v, h, max), op)
    ensures Next(v, Runs(h, [op]), v', max)
  {
    assert [op][..0] == [];
    assert ApplyAll(Taken(v, h, max), [op]) == Apply(ApplyAll(Taken(v, h, max), []), op);
  }

  // Timer 0 waits to run a job, or is in the pool.
  function Armed(job: Job, posted: seq<Job>): Tasks { Tasks(Pool({0}, [], [Wait(0, job)]), posted, Some(0)) }
  function Idle(posted: seq<Job>): Tasks { Tasks(Pool({}, [0], []), posted, Some(0)) }

  lemma FallsAsleep(max: nat)
    ensures Next(START, Outside(Loop), START.(posted := [Loop]), max)
    ensures Next(START.(posted := [Loop]), Runs(Front, [Body(Sleep, 0)]), Armed(Loop, []), max)
  {
    assert START.posted + [Loop] == [Loop];
    OneOp(START.(posted := [Loop]), Front, Body(Sleep, 0), Armed(Loop, []), max);
  }

  lemma Wakes(f: Finding, posted: seq<Job>, max: nat)
    requires 0 < max && !f.Sleep?
    ensures Next(Armed(Loop, posted), Runs(Fired(0), [Body(f, 1)]), Idle(posted + if f.Again? then [Loop] else []), max)
  {
    var v := Armed(Loop, posted);
    assert TimedOut(v.pool, 0, max) == Pool({}, [0], []);
    assert posted + [] == posted;
    OneOp(v, Fired(0), Body(f, 1), Idle(posted + if f.Again? then [Loop] else []), max);
  }

  /** The timer 0 that the loop remembers is given to another job. */
  lemma IsGiven(at: Job, job: Job, rest: seq<Job>, max: nat)
    requires at == Arm(job) || (at.Other? && job.Other?)
    ensures Next(Idle([at] + rest), Runs(Front, [Delay(job, 1)]), Armed(job, rest), max)
  {
    assert ([at] + rest)[1..] == rest;
    OneOp(Idle([at] + rest), Front, Delay(job, 1), Armed(job, rest), max);
  }

  /** A loop body that finds it so leaves nothing behind. */
  lemma FindsTaken(at: Job, job: Job, max: nat)
    requires at.Loop? || at.Retry?
    ensures Next(Armed(job, [at]), Runs(Front, [Body(Again, 1)]), Armed(job, []), max)
  {
    assert [at][1..] == [];
    OneOp(Armed(job, [at]), Front, Body(Again, 1), Armed(job, []), max);
  }

  /** The loop sleeps on timer 0; another job is posted; the timer fires and the loop works on;
      the other job sets timer 0; the posted loop job runs. */
  function ReusedTimerRun(): (r: (seq<Tasks>, seq<Step>))
    ensures |r.0| == 7 && |r.1| == 6
  {
    ([START, START.(posted := [Loop]), Armed(Loop, []), Armed(Loop, [Other(0)]), Idle([Other(0), Loop]),
      Armed(Other(0), [Loop]), Armed(Other(0), [])],
     [Outside(Loop), Runs(Front, [Body(Sleep, 0)]), Outside(Other(0)), Runs(Fired(0), [Body(Again, 1)]),
      Runs(Front, [Delay(Other(0), 1)]), Runs(Front, [Body(Again, 1)])])
  }

  lemma ReusedTimerRunRuns(max: nat)
    requires 0 < max
    ensures Run(ReusedTimerRun().0, ReusedTimerRun().1, max)
  {
    var (trace, steps) := ReusedTimerRun();
    assert [Other(0)] + [Loop] == [Other(0), Loop] && [] + [Other(0)] == [Other(0)];
    forall i | 0 <= i < |steps|
      ensures Next(trace[i], steps[i], trace[i + 1], max)
    {
      if i < 2 {
        FallsAsleep(max);
      } else if i < 4 {
        Wakes(Again, [Other(0)], max);
      } else if i == 4 {
        IsGiven(Other(0), Other(0), [Loop], max);
      } else {
        FindsTaken(Loop, Other(0), max);
      }
    }
  }

  /** A run that shows it: in the last step the loop job, though told to go on, finds its timer
      with another job and ends. */
  lemma ReusedTimerEndsLoop(max: nat)
    requires 0 < max
    ensures var (trace, steps) := ReusedTimerRun();
      && Run(trace, steps, max) && RunsBodyAt(steps[5], 0) && steps[5].ops[0].f.Again?
      && LoopPending(trace[5]) && !Alive(trace[6])
  {
    ReusedTimerRunRuns(max);
    assert ReusedTimerRun().0[5].posted[0] == Loop;
  }

  /** The loop sleeps on timer 0; the timer fires while there is nothing to decode; cont() finds
      nothing either and has itself armed, with timer 0; something to decode arrives and cont()
      is called again. */
  function RetryRun(): (r: (seq<Tasks>, seq<Step>))
    ensures |r.0| == 9 && |r.1| == 8
  {
    ([START, START.(posted := [Loop]), Armed(Loop, []), Idle([]), Idle([Retry]), Idle([Arm(Retry)]),
      Armed(Retry, []), Armed(Retry, [Retry]), Armed(Retry, [])],
     [Outside(Loop), Runs(Front, [Body(Sleep, 0)]), Runs(Fired(0), [Body(Stop, 1)]), Outside(Retry),
      Runs(Front, [Post(Arm(Retry))]), Runs(Front, [Delay(Retry, 1)]), Outside(Retry), Runs(Front, [Body(Again, 1)])])
  }

  lemma RetryRunBegins(max: nat)
    requires 0 < max
    ensures Next(Armed(Loop, []), Runs(Fired(0), [Body(Stop, 1)]), Idle([]), max)
    ensures Next(Idle([]), Outside(Retry), Idle([Retry]), max)
    ensures Next(Idle([Retry]), Runs(Front, [Post(Arm(Retry))]), Idle([Arm(Retry)]), max)
  {
    Wakes(Stop, [], max);
    assert [] + [Retry] == [Retry] && [Retry][1..] == [] && [] + [Arm(Retry)] == [Arm(Retry)];
    OneOp(Idle([Retry]), Front, Post(Arm(Retry)), Idle([Arm(Retry)]), max);
  }

  lemma RetryRunEnds(max: nat)
    ensures Next(Idle([Arm(Retry)]), Runs(Front, [Delay(Retry, 1)]), Armed(Retry, []), max)
    ensures Next(Armed(Retry, []), Outside(Retry), Armed(Retry, [Retry]), max)
    ensures Next(Armed(Retry, [Retry]), Runs(Front, [Body(Again, 1)]), Armed(Retry, []), max)
  {
    assert [Arm(Retry)] + [] == [Arm(Retry)] && [] + [Retry] == [Retry];
    IsGiven(Arm(Retry), Retry, [], max);
    FindsTaken(Retry, Retry, max);
  }

  lemma RetryRunRuns(max: nat)
    requires 0 < max
    ensures Run(RetryRun().0, RetryRun().1, max)
  {
    var (trace, steps) := RetryRun();
    forall i | 0 <= i < |steps|
      ensures Next(trace[i], steps[i], trace[i + 1], max)
    {
      if i < 2 { FallsAsleep(max); } else if i < 5 { RetryRunBegins(max); } else { RetryRunEnds(max); }
    }
  }

  /** The same on the decoder's tasker: decode_cont, run by cont() and told to go on, finds its
      timer with cont_internal and leaves itself neither posted nor set; only that timer will run
      it again. */
  lemma RetryDelaysLoop(max: nat)
    requires 0 < max
    ensures var (trace, steps) := RetryRun();
      && Run(trace, steps, max) && RunsBodyAt(steps[7], 0) && steps[7].ops[0].f.Again?
      && (forall i :: 0 <= i < |trace| ==> OwnTimersOnly(trace[i]))
      && !LoopPending(trace[8]) && LoopOrRetry(trace[8])
  {
    RetryRunRuns(max);
    assert RetryRun().0[8].pool.waits[0].job.Retry?;
  }

  /** n timers that wait to run cont_internal. */
  function Piled(n: nat): Tasks {
    Tasks(Pool(Below(n), [], seq(n, i requires 0 <= i < n => Wait(i, Retry))), [], None)
  }

  function Below(n: nat): (r: set<Timer>)
    ensures forall t: Timer :: t in r <==> t < n
  {
    if n == 0 then {} else Below(n - 1) + {n - 1}
  }

  lemma RunOn(trace: seq<Tasks>, steps: seq<Step>, s: Step, v: Tasks, max: nat)
    requires Run(trace, steps, max) && Next(trace[|steps|], s, v, max)
    ensures Run(trace + [v], steps + [s], max)
  {
    var trace', steps' := trace + [v], steps + [s];
    forall i | 0 <= i < |steps'|
      ensures Next(trace'[i], steps'[i], trace'[i + 1], max)
    {
      if i < |steps| { assert Next(trace[i], steps[i], trace[i + 1], max); }
    }
  }

  lemma PilesUp(n: nat, max: nat)
    ensures Next(Piled(n), Outside(Retry), Piled(n).(posted := [Retry]), max)
    ensures Next(Piled(n).(posted := [Retry]), Runs(Front, [Post(Arm(Retry))]), Piled(n).(posted := [Arm(Retry)]), max)
    ensures Next(Piled(n).(posted := [Arm(Retry)]), Runs(Front, [Delay(Retry, n)]), Piled(n + 1), max)
  {
    var v := Piled(n);
    assert v.posted + [Retry] == [Retry] && [Retry][1..] == [] && [] + [Arm(Retry)] == [Arm(Retry)];
    OneOp(v.(posted := [Retry]), Front, Post(Arm(Retry)), v.(posted := [Arm(Retry)]), max);
    assert [Arm(Retry)][1..] == [];
    assert Created(v.pool, Retry, n) == Piled(n + 1).pool;
    OneOp(v.(posted := [Arm(Retry)]), Front, Delay(Retry, n), Piled(n + 1), max);
  }

  /** There is no such bound for cont_internal: every cont() that finds nothing to decode has one
      more timer set, so any number of them can wait at once. */
  lemma {:induction false} RetriesPileUp(n: nat, max: nat) returns (trace: seq<Tasks>, steps: seq<Step>)
    ensures Run(trace, steps, max) && trace[|steps|] == Piled(n)
    ensures |Piled(n).pool.waits| == n && forall k :: 0 <= k < n ==> Piled(n).pool.waits[k].job == Retry
  {
    if n == 0 {
      assert Piled(0) == START;
      trace, steps := [START], [];
    } else {
      trace, steps := RetriesPileUp(n - 1, max);
      var v := Piled(n - 1);
      PilesUp(n - 1, max);
      RunOn(trace, steps, Outside(Retry), v.(posted := [Retry]), max);
      trace, steps := trace + [v.(posted := [Retry])], steps + [Outside(Retry)];
      RunOn(trace, steps, Runs(Front, [Post(Arm(Retry))]), v.(posted := [Arm(Retry)]), max);
      trace, steps := trace + [v.(posted := [Arm(Retry)])], steps + [Runs(Front, [Post(Arm(Retry))])];
      RunOn(trace, steps, Runs(Front, [Delay(Retry, n - 1)]), Piled(n), max);
      trace, steps := trace + [Piled(n)], steps + [Runs(Front, [Delay(Retry, n - 1)])];
    }
  }
}
