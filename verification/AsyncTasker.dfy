/** async_tasker.h as a class, and the timer logic of decode_cont, try_read and cont_internal on top
    of it. The methods are proved to take the steps of `Timers`. */
module AsyncTaskers {
  import opened Bytes
  import opened Timers

  class AsyncTasker {
    const maxTimerCount: nat
    var activeTimers: set<Timer>
    var expiredTimers: seq<Timer>
    var waits: seq<Wait>   // the async_wait calls that have not completed
    var nextTimer: Timer   // make_shared gives an address not in use

    ghost function View(): Pool
      reads this
    {
      Pool(activeTimers, expiredTimers, waits)
    }

    ghost predicate Valid()
      reads this
    {
      && PoolOk(View(), maxTimerCount)
      && (forall t :: t in activeTimers ==> t < nextTimer) && (forall t :: t in expiredTimers ==> t < nextTimer)
    }

    constructor (maxTimerCount: nat)
      ensures Valid() && View() == Pool({}, [], []) && this.maxTimerCount == maxTimerCount
    {
      this.maxTimerCount := maxTimerCount;
      activeTimers, expiredTimers, waits, nextTimer := {}, [], [], 0;
    }

    method CreateGetTimer(job: Job) returns (timer: Timer)
      requires Valid()
      modifies this
      ensures Valid() && nextTimer >= old(nextTimer) && timer < nextTimer
      ensures timer == TimerFor(old(View()), old(nextTimer)) && timer !in old(activeTimers)
      ensures timer == if old(expiredTimers) == [] then old(nextTimer) else old(expiredTimers)[0]
      ensures expiredTimers == if old(expiredTimers) == [] then [] else old(expiredTimers)[1..]
      ensures activeTimers == old(activeTimers) + {timer} && waits == old(waits) + [Wait(timer, job)]
      ensures View() == Created(old(View()), job, old(nextTimer))
    {
      CreatedOk(View(), job, nextTimer, maxTimerCount);
      if expiredTimers == [] {
        timer := nextTimer;
        nextTimer := nextTimer + 1;
      } else {
        timer := expiredTimers[0];
        assert timer in expiredTimers;
        expiredTimers := expiredTimers[1..];
        assert forall t :: t in expiredTimers ==> t in old(expiredTimers);
      }
      waits := waits + [Wait(timer, job)];
      activeTimers := activeTimers + {timer};
    }

    /** Wait i completes: the timer is given back, and the job is returned for running. */
    method HandleTimeout(i: nat) returns (job: Job)
      requires Valid() && i < |waits|
      modifies this
      ensures Valid() && nextTimer == old(nextTimer)
      ensures job == old(waits)[i].job && waits == old(waits)[..i] + old(waits)[i + 1..]
      ensures activeTimers == old(activeTimers) - {old(waits)[i].timer}
      ensures expiredTimers == old(expiredTimers)
                + (if |old(expiredTimers)| < maxTimerCount then [old(waits)[i].timer] else [])
      ensures View() == TimedOut(old(View()), i, maxTimerCount)
    {
      TimedOutOk(View(), i, maxTimerCount);
      var timer := waits[i].timer;
      assert Waiting(waits)[i] == timer && timer in Waiting(waits);
      job := waits[i].job;
      waits := waits[..i] + waits[i + 1..];
      activeTimers := activeTimers - {timer};
      if |expiredTimers| < maxTimerCount {
        expiredTimers := expiredTimers + [timer];
      }
    }

    function IsActiveTimer(timer: Timer): (active: bool)
      requires Valid()
      reads this
      ensures active <==> timer in Waiting(waits)
    {
      timer in activeTimers
    }

    function IsTimerExpired(timer: Timer): (expired: bool)
      requires Valid()
      reads this
      ensures expired <==> timer !in Waiting(waits)
    {
      !IsActiveTimer(timer)
    }
  }

  /** The owner of a loop job: decoder_plugins_manager, or input_plugin_file. */
  class LoopOwner {
    const tasker: AsyncTasker
    var posted: seq<Job>
    var timer: Option<Timer>

    ghost predicate Valid()
      reads this, tasker
    {
      tasker.Valid() && Inv(View(), tasker.maxTimerCount) && (timer.Some? ==> timer.value < tasker.nextTimer)
    }

    ghost function View(): Tasks
      reads this, tasker
    {
      Tasks(tasker.View(), posted, timer)
    }

    constructor (tasker: AsyncTasker)
      requires tasker.Valid() && tasker.waits == []
      ensures Valid() && this.tasker == tasker && posted == [] && timer == None
    {
      this.tasker := tasker;
      posted, timer := [], None;
    }

    /** The timer that the loop remembers is waiting. */
    ghost predicate TimerActive()
      reads this, tasker
    {
      timer.Some? && timer.value in Waiting(tasker.waits)
    }

    /** Takes the loop timer, which is free, and sets it to run the loop. */
    method Schedule()
      requires Valid() && !LoopTimerActive(View())
      modifies this`timer, tasker
      ensures Valid() && View() == RunLoop(old(View()), Sleep, old(tasker.nextTimer))
      ensures timer.Some? && tasker.waits == old(tasker.waits) + [Wait(timer.value, Loop)]
    {
      ApplyKeeps(View(), Body(Sleep, tasker.nextTimer), tasker.maxTimerCount);
      var t := tasker.CreateGetTimer(Loop);
      timer := Some(t);
    }

    /** add_job and add_job with a delay: the job, or the setting of its timer, is posted. */
    method AddJob(job: Job)
      requires Valid() && Postable(job)
      modifies this`posted
      ensures Valid() && View() == Apply(old(View()), Post(job)) && posted == old(posted) + [job]
    {
      ApplyKeeps(View(), Post(job), tasker.maxTimerCount);
      posted := posted + [job];
    }

    /** decode_cont, by what it finds: whether the state is play, the detail list is empty, there
        is no output buffer or one has no free chunk, and whether work is left after decode(). While
        it plays, has something to decode and its timer is not waiting, it posts itself exactly if
        every output has a free chunk and work is left, and has its timer wait exactly if there is no
        output or one has no free chunk; in all other cases nothing changes. */
    method DecodeCont(playing: bool, listEmpty: bool, noOutput: bool, anyCacheEmpty: bool, noJob: bool)
      requires Valid()
      modifies this`timer, this`posted, tasker
      ensures Valid()
      ensures View() == RunLoop(old(View()), DecodeFinding(playing, listEmpty, noOutput, anyCacheEmpty, noJob),
                                old(tasker.nextTimer))
      ensures var runs := playing && !listEmpty && !old(TimerActive());
        && posted == old(posted) + (if runs && !noOutput && !anyCacheEmpty && !noJob then [Loop] else [])
        && if runs && (noOutput || anyCacheEmpty)
           then timer.Some? && tasker.waits == old(tasker.waits) + [Wait(timer.value, Loop)]
           else timer == old(timer) && tasker.View() == old(tasker.View())
    {
      if !playing || listEmpty {
        return;
      }
      if timer.Some? && tasker.IsActiveTimer(timer.value) {
        return;
      }
      if noOutput || anyCacheEmpty {
        if timer.None? || tasker.IsTimerExpired(timer.value) {
          Schedule();
        }
        return;
      }
      if !noJob {
        AddJob(Loop);
      }
    }

    static function DecodeFinding(
      playing: bool, listEmpty: bool, noOutput: bool, anyCacheEmpty: bool, noJob: bool): Finding
    {
      if !playing || listEmpty then Stop
      else if noOutput || anyCacheEmpty then Sleep
      else if noJob then Stop
      else Again
    }

    /** The decoder's cont_internal, which is one run of the job `Retry`: with nothing to decode
        it has itself armed, otherwise it runs decode_cont. */
    method ContInternal(playing: bool, listEmpty: bool, noOutput: bool, anyCacheEmpty: bool, noJob: bool)
        returns (ghost op: Op)
      requires Valid()
      modifies this`timer, this`posted, tasker
      ensures Valid() && View() == Apply(old(View()), op) && Does(Retry, [op])
      ensures op.Post? <==> listEmpty
      ensures listEmpty ==>
        posted == old(posted) + [Arm(Retry)] && timer == old(timer) && tasker.View() == old(tasker.View())
      ensures !listEmpty ==>
        var runs := playing && !old(TimerActive());
        && posted == old(posted) + (if runs && !noOutput && !anyCacheEmpty && !noJob then [Loop] else [])
        && if runs && (noOutput || anyCacheEmpty)
           then timer.Some? && tasker.waits == old(tasker.waits) + [Wait(timer.value, Loop)]
           else timer == old(timer) && tasker.View() == old(tasker.View())
      ensures op.Body? ==> op.f == DecodeFinding(playing, listEmpty, noOutput, anyCacheEmpty, noJob)
    {
      if listEmpty {
        op := Post(Arm(Retry));
        AddJob(Arm(Retry));
        return;
      }
      op := Body(DecodeFinding(playing, listEmpty, noOutput, anyCacheEmpty, noJob), tasker.nextTimer);
      DecodeCont(playing, listEmpty, noOutput, anyCacheEmpty, noJob);
    }

    /** try_read's timer: on every way out, unless no file is left, the next run is scheduled. */
    method TryRead(playing: bool, filesEmpty: bool, noJobAfter: bool)
      requires Valid()
      modifies this`timer, tasker
      ensures Valid()
      ensures var f := if !playing || filesEmpty || noJobAfter then Stop else Sleep;
        View() == RunLoop(old(View()), f, old(tasker.nextTimer))
      ensures posted == old(posted)
      ensures if playing && !filesEmpty && !noJobAfter && !old(TimerActive())
        then timer.Some? && tasker.waits == old(tasker.waits) + [Wait(timer.value, Loop)]
        else timer == old(timer) && tasker.View() == old(tasker.View())
    {
      if !playing || filesEmpty {
        return;
      }
      if timer.Some? && tasker.IsActiveTimer(timer.value) {
        return;
      }
      if !noJobAfter {
        if timer.None? || tasker.IsTimerExpired(timer.value) {
          Schedule();
        }
      }
    }
  }
}
