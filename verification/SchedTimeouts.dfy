/** The clock: whom it wakes, and when a wait may say that it has timed out. */
module SchedTimeouts {
  import opened Basics
  import opened HeapModel
  import opened Epoll
  import opened SchedQueues
  import opened SchedModel
  import opened SchedInvariant
  import opened SchedRuns
  import opened SchedTheorems
  import opened SchedProgress
  import opened SchedJoin

  // ---- one look at the clock ----

  lemma {:induction false} BackwardsAt(p: Image<nat>)
    ensures |Backwards(p)| == |p| && forall i :: 0 <= i < |p| ==> Backwards(p)[i] == p[|p| - 1 - i].who
  {
    if p != [] { BackwardsAt(p[1..]); }
  }

  /** `_st_vp_check_clock` takes exactly the sleepers due by now off the heap, puts them
      before the others on the run queue, the latest due first, and flags as timed out
      those that wait for a condition. */
  lemma ClockWakes(s: State, now: int, r: State)
    requires Inv(s) && r == CheckClock(s, now)
    ensures var p := Popped(s.sleepQ, now);
            && r.runQ == Backwards(p) + s.runQ && |Backwards(p)| == |p|
            && (forall i :: 0 <= i < |p| ==> Backwards(p)[i] == p[|p| - 1 - i].who)
            && (forall i, j :: 0 <= i < j < |p| ==> p[i].due <= p[j].due)
            && multiset(p) + multiset(r.sleepQ) == multiset(s.sleepQ)
            && (forall x :: x in multiset(p) ==> x.due <= now)
            && (forall x :: x in multiset(r.sleepQ) ==> x.due > now)
            && r.threads.Keys == s.threads.Keys
            && forall t :: t in s.threads ==>
                 r.threads[t] == if OnHeap(p, t)
                                 then s.threads[t].(state := RUNNABLE, onSleepQ := false, timedOut := s.threads[t].state == COND_WAIT)
                                 else s.threads[t]
  {
    CheckClockKeeps(s, Some(s.cur), now, r);
    var p := Popped(s.sleepQ, now);
    BackwardsAt(p);
    PoppedContents(s.sleepQ, now);
    PoppedAreDue(s.sleepQ, now);
    PoppedInOrder(s.sleepQ, now);
  }

  // ---- where sleepers come from ----

  /** g is a heap made of entries of h. */
  ghost predicate Shrinks(h: Image<nat>, g: Image<nat>) {
    Ordered(h) ==> Ordered(g) && forall x :: x in multiset(g) ==> x in multiset(h)
  }

  lemma WakeShrinks(s: State, t: nat, h: Thread)
    ensures Shrinks(s.sleepQ, WakeAs(s, t, h).sleepQ)
  {
    if Ordered(s.sleepQ) && OnHeap(s.sleepQ, t) { DeleteCorrect(s.sleepQ, IndexOf(s.sleepQ, t)); }
  }

  lemma {:induction false} WakeAllShrinks(s: State, ts: seq<nat>)
    ensures Shrinks(s.sleepQ, WakeAll(s, ts).sleepQ)
  {
    if ts != [] {
      var n := |ts| - 1;
      var m := WakeAll(s, ts[..n]);
      WakeAllShrinks(s, ts[..n]);
      WakeShrinks(m, ts[n], Get(m, ts[n]));
    }
  }

  lemma {:induction false} DeliverShrinks(s: State, moved: seq<Pollq>)
    ensures Shrinks(s.sleepQ, Deliver(s, moved).sleepQ)
  {
    if moved != [] {
      var before, p := Deliver(s, moved[..|moved| - 1]), moved[|moved| - 1];
      DeliverShrinks(s, moved[..|moved| - 1]);
      WakeShrinks(before, p.thread, Get(before, p.thread).(at := InPoll(Some(p.pds))));
    }
  }

  lemma {:induction false} ExpireShrinks(s: State, now: int)
    ensures Shrinks(s.sleepQ, Expire(s, now).sleepQ)
    decreases |s.sleepQ|
  {
    if s.sleepQ != [] && s.sleepQ[0].due <= now {
      if Ordered(s.sleepQ) { DeleteCorrect(s.sleepQ, 1); }
      ExpireShrinks(ExpireOne(s), now);
    }
  }

  /** The step asks for the sleep x, in the wait `at`. */
  ghost predicate Asks(s: State, step: Step, x: Sleeper<nat>, at: Place) {
    && s.cur == x.who
    && match step
       case DoPoll(pds, timeout, added) => at.InPoll? && timeout == Some(x.due - s.lastClock)
       case DoUsleep(timeout) => at.InSleep? && timeout == Some(x.due - s.lastClock)
       case DoCondWait(c, timeout) => at == InCond(c) && timeout == Some(x.due - s.lastClock)
       case _ => false
  }

  /** r sleeps like s, but for the new sleep of the running thread. */
  ghost predicate SleepsLike(s: State, r: State, timeout: Option<int>) {
    Ordered(s.sleepQ) ==> forall x :: x in multiset(r.sleepQ) ==>
      x in multiset(s.sleepQ) || (x.who == s.cur && timeout == Some(x.due - s.lastClock))
  }

  lemma SuspendSleeps(s: State, w: State, st: TState, at: Place, timeout: Option<int>)
    requires w.sleepQ == s.sleepQ && w.cur == s.cur && w.lastClock == s.lastClock
    ensures SleepsLike(s, Schedule(Suspend(w, st, at, timeout)), timeout)
  {
    hide Insert, Ordered;
    if Ordered(s.sleepQ) && timeout.Some? { InsertCorrect(s.sleepQ, Sleeper(s.cur, s.lastClock + timeout.value)); }
  }

  lemma DispatchShrinks(s: State, fired: Fired)
    ensures Shrinks(s.sleepQ, Dispatch(s, fired).sleepQ)
  {
    if fired != [] { DeliverShrinks(s, Moved(s.ioQ, Revents(s, fired))); }
  }

  lemma IdleSleeps(s: State, fired: Fired, now: int)
    ensures SleepsLike(s, IdleTurn(s, fired, now).s, None)
  {
    var d := Dispatch(s, fired);
    DispatchShrinks(s, fired);
    ExpireShrinks(d.(lastClock := now), now);
  }

  lemma YieldSleeps(s: State, now: int)
    ensures SleepsLike(s, Yield(s, now).s, None)
  {
    ExpireShrinks(s.(lastClock := now), now);
  }

  lemma ExitSleeps(s: State, retval: int)
    ensures SleepsLike(s, Exit(s, retval).s, None)
  {
    ExitIs(s, retval);
    var z := Exiting(s, retval);
    WakeAllShrinks(z, Signalled(z, Term(s.cur), false));
  }

  lemma CondWaitSleeps(s: State, c: CondId, timeout: Option<int>)
    ensures SleepsLike(s, CondWait(s, c, timeout).s, timeout)
  {
    SuspendSleeps(s, s.(conds := s.conds[c := WaitQ(s, c) + [s.cur]]), COND_WAIT, InCond(c), timeout);
  }

  lemma JoinSleeps(s: State, u: nat)
    ensures SleepsLike(s, JoinLoop(s, u).s, None)
  {
    CondWaitSleeps(s, Term(u), None);
  }

  lemma ResumeSleeps(s: State, r: State)
    requires r == Resume(s).s
    ensures SleepsLike(s, r, None)
  {
    hide SleepsLike, PollDone, CondDone, LockDone, ExitDone;
    match Get(s, s.cur).at {
      case InPoll(ready) => PollDoneSleeps(s, ready);
      case InCond(c) => CondDoneSleeps(s, c);
      case InLock(m) => if m in s.mutexes { LockDoneSleeps(s, m); } else { SameSleeps(s, r); }
      case InExit => ExitDoneSleeps(s);
      case _ => SameSleeps(s, r);
    }
  }

  lemma PollDoneSleeps(s: State, ready: Option<seq<PollFd>>)
    ensures SleepsLike(s, PollDone(s, ready).s, None)
  {
  }

  lemma LockDoneSleeps(s: State, m: nat)
    requires m in s.mutexes
    ensures SleepsLike(s, LockDone(s, m).s, None)
  {
  }

  lemma ExitDoneSleeps(s: State)
    ensures SleepsLike(s, ExitDone(s).s, None)
  {
  }

  lemma CondDoneSleeps(s: State, c: CondId)
    ensures SleepsLike(s, CondDone(s, c).s, None)
  {
    if c.Term? {
      var h := Get(s, s.cur);
      JoinSleeps(SetThread(s, s.cur, h.(at := InUser, timedOut := false, interrupt := false)).(
                   conds := s.conds[c := Without(WaitQ(s, c), s.cur)]), c.t);
    }
  }

  function TimeoutOf(step: Step): Option<int> {
    match step
    case DoPoll(pds, timeout, added) => timeout
    case DoUsleep(timeout) => timeout
    case DoCondWait(c, timeout) => timeout
    case _ => None
  }

  lemma LockSleeps(s: State, m: nat)
    requires m in s.mutexes
    ensures SleepsLike(s, Lock(s, m).s, None)
  {
    var x := s.mutexes[m];
    SuspendSleeps(s, s.(mutexes := s.mutexes[m := x.(waitQ := x.waitQ + [s.cur])]), LOCK_WAIT, InLock(m), None);
  }

  lemma UnlockSleeps(s: State, m: nat)
    requires m in s.mutexes
    ensures SleepsLike(s, Unlock(s, m).s, None)
  {
    var w := Waiting(s, s.mutexes[m].waitQ, LOCK_WAIT);
    if w != [] { WakeShrinks(s, w[0], Get(s, w[0])); }
  }

  lemma PollSleeps(s: State, pds: seq<PollFd>, timeout: Option<int>, added: Errno)
    ensures SleepsLike(s, Poll(s, pds, timeout, added).s, timeout)
  {
    SuspendSleeps(s, s.(ioQ := s.ioQ + [Pollq(s.cur, pds)]), IO_WAIT, InPoll(None), timeout);
  }

  lemma UsleepSleeps(s: State, timeout: Option<int>)
    ensures SleepsLike(s, Usleep(s, timeout).s, timeout)
  {
    SuspendSleeps(s, s, if timeout.Some? then SLEEPING else SUSPENDED, InSleep, timeout);
  }

  lemma SignalSleeps(s: State, c: CondId, broadcast: bool)
    ensures SleepsLike(s, Signal(s, c, broadcast), None)
  {
    WakeAllShrinks(s, Signalled(s, c, broadcast));
  }

  lemma InterruptSleeps(s: State, t: nat)
    ensures SleepsLike(s, Interrupt(s, t).s, None)
  {
    WakeShrinks(s, t, Get(s, t).(interrupt := true));
  }

  lemma SameSleeps(s: State, r: State)
    requires r.sleepQ == s.sleepQ
    ensures SleepsLike(s, r, None)
  {
  }

  /** The calls that leave the sleep queue alone. */
  lemma QuietSleeps(s: State, step: Step, r: State)
    requires Follows(s, step, r)
    requires step.DoCondNew? || step.DoMutexNew? || step.DoCondDestroy? || step.DoMutexDestroy? || step.DoTrylock? || step.DoCreate?
    ensures SleepsLike(s, r, None)
  {
    hide SleepsLike, Unmap;
    UnmapIs(s);
    SameSleeps(s, r);
  }

  lemma StepSleeps(s: State, step: Step, r: State)
    requires Follows(s, step, r)
    ensures SleepsLike(s, r, TimeoutOf(step))
  {
    hide Poll, Usleep, CondWait, Yield, IdleTurn, Exit, JoinLoop, Signal, Interrupt, Lock, Unlock, Resume;
    hide SleepsLike;
    match step {
      case DoPoll(pds, timeout, added) => PollSleeps(s, pds, timeout, added);
      case DoUsleep(timeout) => UsleepSleeps(s, timeout);
      case DoCondWait(c, timeout) => CondWaitSleeps(s, c, timeout);
      case DoYield(now) => YieldSleeps(s, now);
      case DoIdle(fired, now) => IdleSleeps(s, fired, now);
      case DoExit(retval) => ExitSleeps(s, retval);
      case DoJoin(u) => JoinSleeps(s, u); SameSleeps(s, s);
      case DoSignal(c, broadcast) => SignalSleeps(s, c, broadcast);
      case DoInterrupt(t) => InterruptSleeps(s, t);
      case DoLock(m) => LockSleeps(s, m);
      case DoUnlock(m) => UnlockSleeps(s, m);
      case DoResume => ResumeSleeps(s, r);
      case _ => QuietSleeps(s, step, r);
    }
  }

  lemma SleeperSleeps(s: State, x: Sleeper<nat>)
    requires Good(s) && x in multiset(s.sleepQ)
    ensures x.who in s.threads && s.threads[x.who].onSleepQ && x.who != s.cur
    ensures s.threads[x.who].state == IO_WAIT || s.threads[x.who].state == COND_WAIT || s.threads[x.who].state == SLEEPING
  {
    AtMostOnce(s.sleepQ, x);
    assert Fits(s.threads[x.who], x.who == s.idle, x.who == s.cur);
  }

  lemma OwnSleep(s: State, step: Step, r: State, x: Sleeper<nat>)
    requires Good(s) && Follows(s, step, r) && Good(r) && x in multiset(r.sleepQ) && x.who == s.cur
    requires TimeoutOf(step) == Some(x.due - s.lastClock)
    ensures Asks(s, step, x, r.threads[s.cur].at)
  {
    hide Do, Good, Enabled, Fits;
    SleeperSleeps(r, x);
    SleepersCall(s, step);
    OwnRunning(r);
    OwnWait(s, step, r);
    SleeperIsOut(r, s.cur);
  }

  lemma OwnRunning(r: State)
    requires Good(r)
    ensures Running(r)
  {
  }

  lemma SleepersCall(s: State, step: Step)
    requires Good(s) && Enabled(s, step) && TimeoutOf(step).Some?
    ensures s.cur in s.threads && s.threads[s.cur].at.InUser?
  {
    hide RunOk, ZombieOk, IoOk, HeapOk, CondOk, MutexOk, JoinOk, StackOk, CountOk, Fits;
  }

  /** Who sleeps is in a wait. */
  lemma SleeperIsOut(s: State, t: nat)
    requires Good(s) && t in s.threads && s.threads[t].onSleepQ
    ensures !s.threads[t].at.InUser?
  {
    hide RunOk, ZombieOk, IoOk, HeapOk, CondOk, MutexOk, JoinOk, StackOk, CountOk;
    assert Fits(s.threads[t], t == s.idle, t == s.cur);
  }

  ghost predicate InWaitOf(step: Step, at: Place)
    requires step.DoPoll? || step.DoUsleep? || step.DoCondWait?
  {
    match step
    case DoPoll(_, _, _) => at.InPoll?
    case DoUsleep(_) => at.InSleep?
    case DoCondWait(c, _) => at == InCond(c)
  }

  lemma PollWait(s: State, pds: seq<PollFd>, timeout: Option<int>, added: Errno, r: State)
    requires s.cur in s.threads && Get(s, s.cur).at.InUser? && r == Poll(s, pds, timeout, added).s && Running(r)
    ensures s.cur in r.threads && (r.threads[s.cur].at.InUser? || r.threads[s.cur].at.InPoll?)
  {
    hide ShapeOk;
    if !Get(s, s.cur).interrupt && added == Ok {
      OwnAt(Suspend(s.(ioQ := s.ioQ + [Pollq(s.cur, pds)]), IO_WAIT, InPoll(None), timeout), s.cur);
    }
  }

  lemma SleepWait(s: State, timeout: Option<int>, r: State)
    requires s.cur in s.threads && Get(s, s.cur).at.InUser? && r == Usleep(s, timeout).s && Running(r)
    ensures s.cur in r.threads && (r.threads[s.cur].at.InUser? || r.threads[s.cur].at.InSleep?)
  {
    hide ShapeOk;
    if !Get(s, s.cur).interrupt {
      OwnAt(Suspend(s, if timeout.Some? then SLEEPING else SUSPENDED, InSleep, timeout), s.cur);
    }
  }

  lemma ConditionWait(s: State, c: CondId, timeout: Option<int>, r: State)
    requires s.cur in s.threads && Get(s, s.cur).at.InUser? && r == CondWait(s, c, timeout).s && Running(r)
    ensures s.cur in r.threads && (r.threads[s.cur].at.InUser? || r.threads[s.cur].at == InCond(c))
  {
    hide ShapeOk;
    if !Get(s, s.cur).interrupt {
      OwnAt(Suspend(s.(conds := s.conds[c := WaitQ(s, c) + [s.cur]]), COND_WAIT, InCond(c), timeout), s.cur);
    }
  }

  /** A call with a timeout goes into its own kind of wait, or returns at once. */
  lemma OwnWait(s: State, step: Step, r: State)
    requires s.cur in s.threads && Follows(s, step, r) && Running(r)
    requires step.DoPoll? || step.DoUsleep? || step.DoCondWait?
    ensures s.cur in r.threads && (r.threads[s.cur].at.InUser? || InWaitOf(step, r.threads[s.cur].at))
  {
    hide Running;
    match step {
      case DoPoll(pds, timeout, added) => PollWait(s, pds, timeout, added, r);
      case DoUsleep(timeout) => SleepWait(s, timeout, r);
      case DoCondWait(c, timeout) => ConditionWait(s, c, timeout, r);
    }
  }

  /** A sleep is an old one whose thread is still in the same wait, or has just been asked for. */
  lemma SleepOrigin(s: State, step: Step, r: State, x: Sleeper<nat>)
    requires Good(s) && Follows(s, step, r) && Good(r) && x in multiset(r.sleepQ)
    ensures x.who in r.threads && x.who != r.cur
    ensures (x in multiset(s.sleepQ) && x.who != s.cur && x.who in s.threads && Progress(s.threads[x.who], r.threads[x.who]))
            || Asks(s, step, x, r.threads[x.who].at)
  {
    hide Do, RunOk, ZombieOk, IoOk, CondOk, MutexOk, JoinOk, StackOk, CountOk, Enabled, SleepsLike;
    hide Progress, Pass, Asks;
    SleeperSleeps(r, x);
    StepSleeps(s, step, r);
    NewOrOld(s, r, TimeoutOf(step), x);
    if x in multiset(s.sleepQ) {
      SleeperSleeps(s, x);
      StillWaits(s, step, r, x.who);
    } else {
      OwnSleep(s, step, r, x);
    }
  }

  lemma NewOrOld(s: State, r: State, timeout: Option<int>, x: Sleeper<nat>)
    requires SleepsLike(s, r, timeout) && Ordered(s.sleepQ) && x in multiset(r.sleepQ)
    ensures x in multiset(s.sleepQ) || (x.who == s.cur && timeout == Some(x.due - s.lastClock))
  {
  }

  /** Whatever a step does to a thread that is not running, it makes progress. */
  lemma StillWaits(s: State, step: Step, r: State, t: nat)
    requires Good(s) && Follows(s, step, r) && t in s.threads && t in r.threads && t != s.cur
    ensures Progress(s.threads[t], r.threads[t])
  {
    hide Do, Good, Enabled, Progress;
    if step.DoCreate? {
      CreatePass(s, step);
      NewNumber(s, t);
      NoProgress(s.threads[t]);
    } else {
      StepPass(s, step);
    }
  }

  lemma NewNumber(s: State, t: nat)
    requires Good(s) && t in s.threads
    ensures t != s.nextId
  {
    NewIsNobody(s);
  }

  lemma NoProgress(h: Thread)
    ensures Progress(h, h)
  {
  }

  lemma AsksStill(s: State, step: Step, x: Sleeper<nat>, h: Thread, g: Thread)
    requires Asks(s, step, x, h.at) && Progress(h, g)
    ensures Asks(s, step, x, g.at)
  {
  }

  /** Every sleep was asked for by its thread in the wait that it is still in, and ends
      when asked: `timeout` after the clock of that time. */
  lemma {:induction false} SleeperOrigin(ss: seq<State>, steps: seq<Step>, i: nat, x: Sleeper<nat>)
    requires IsRun(ss, steps) && i < |ss| && x in multiset(ss[i].sleepQ)
    ensures x.who in ss[i].threads
    ensures exists k :: 0 <= k < i && Asks(ss[k], steps[k], x, ss[i].threads[x.who].at) && forall j :: k < j <= i ==> ss[j].cur != x.who
  {
    hide Do, Good, Follows, Asks, Progress;
    if i == 0 {
      RunStart(ss, steps);
    } else {
      RunStep(ss, steps, i - 1);
      SleepOrigin(ss[i - 1], steps[i - 1], ss[i], x);
      if !Asks(ss[i - 1], steps[i - 1], x, ss[i].threads[x.who].at) {
        SleeperOrigin(ss, steps, i - 1, x);
        var k :| 0 <= k < i - 1 && Asks(ss[k], steps[k], x, ss[i - 1].threads[x.who].at) && forall j :: k < j <= i - 1 ==> ss[j].cur != x.who;
        AsksStill(ss[k], steps[k], x, ss[i - 1].threads[x.who], ss[i].threads[x.who]);
      }
    }
  }

  // ---- timed out waits ----

  function NowOf(step: Step): int
    requires IsClock(step)
  {
    step.now
  }

  /** In this step the clock finds that the wait of t for c has lasted too long, t having
      been neither signalled nor interrupted. */
  ghost predicate TimesOut(s: State, step: Step, t: nat, c: CondId) {
    && IsClock(step) && t in s.threads && s.threads[t].state == COND_WAIT && s.threads[t].at == InCond(c)
    && exists x :: x in multiset(s.sleepQ) && x.who == t && x.due <= NowOf(step)
  }

  /** The clock flags only those whose sleep is over. */
  lemma ClockFlags(s: State, now: int, c: State, t: nat)
    requires Inv(s) && c == CheckClock(s, now) && t in c.threads && c.threads[t].timedOut
    ensures t in s.threads && (s.threads[t].timedOut || exists x :: x in multiset(s.sleepQ) && x.who == t && x.due <= now)
  {
    ClockWakes(s, now, c);
    var p := Popped(s.sleepQ, now);
    if !s.threads[t].timedOut {
      var i :| 0 <= i < |p| && p[i].who == t;
      assert p[i] in multiset(p) && p[i] in multiset(s.sleepQ);
    }
  }

  lemma YieldFlags(s: State, now: int, t: nat)
    requires Good(s) && InCall(s) && Running(Yield(s, now).s)
    requires t in Yield(s, now).s.threads && Yield(s, now).s.threads[t].timedOut
    ensures t in s.threads && (s.threads[t].timedOut || exists x :: x in multiset(s.sleepQ) && x.who == t && x.due <= now)
  {
    NotIdle(s);
    var c := CheckClock(s, now);
    ClockPass(s, now, c);
    if c.runQ != [] {
      var r := Suspend(c, RUNNABLE, InYield, None).(runQ := c.runQ + [c.cur]);
      SuspendPass(c, RUNNABLE, InYield, None);
      PassBlocked(c.threads, r, s.cur, false);
    }
    ClockFlags(s, now, c, t);
  }

  lemma IdleFlags(s: State, fired: Fired, now: int, t: nat)
    requires Good(s) && Get(s, s.cur).at.InIdle? && Running(IdleTurn(s, fired, now).s)
    requires t in IdleTurn(s, fired, now).s.threads && IdleTurn(s, fired, now).s.threads[t].timedOut
    ensures t in s.threads && (s.threads[t].timedOut || exists x :: x in multiset(s.sleepQ) && x.who == t && x.due <= now)
  {
    hide RunOk, ZombieOk, IoOk, CondOk, MutexOk, JoinOk, StackOk, CountOk, Dispatch, CheckClock;
    assert Fits(s.threads[s.cur], s.cur == s.idle, true);
    var d := Dispatch(s, fired);
    var c := CheckClock(d, now);
    DispatchKeeps(s, fired, d);
    DispatchPass(s, fired);
    DispatchShrinks(s, fired);
    IdleUntouched(s, fired);
    ClockPass(d, now, c);
    var r := Suspend(c, RUNNABLE, InIdle, None);
    SuspendPass(c, RUNNABLE, InIdle, None);
    PassBlocked(c.threads, r, s.cur, false);
    ClockFlags(d, now, c, t);
  }

  /** The thread that ends its wait takes the flag down. */
  lemma OwnFlag(s: State, step: Step, r: State)
    requires Good(s) && Follows(s, step, r) && Get(s, s.cur).timedOut && s.cur in r.threads
    ensures !r.threads[s.cur].timedOut
  {
    hide RunOk, ZombieOk, IoOk, HeapOk, CondOk, MutexOk, JoinOk, StackOk, CountOk, CondDone;
    assert Fits(s.threads[s.cur], s.cur == s.idle, true);
    assert step.DoResume?;
    ResumeDone(s, step);
    CondDoneFlag(s, Get(s, s.cur).at.c);
  }

  lemma CondDoneFlag(s: State, c: CondId)
    requires s.cur in s.threads && s.threads[s.cur].timedOut && c.User?
    ensures !Get(CondDone(s, c).s, s.cur).timedOut
  {
    hide Without;
  }

  lemma FlagBefore(s: State, step: Step, r: State, t: nat)
    requires Good(s) && Follows(s, step, r) && t in r.threads && r.threads[t].timedOut && r.threads[t].at.InCond?
    ensures t in s.threads && t != s.cur && s.threads[t].at == r.threads[t].at
    ensures s.threads[t].timedOut || (IsClock(step) && s.threads[t].state == COND_WAIT)
  {
    hide Do, Good;
    if step.DoCreate? { CreatePass(s, step); } else { StepPass(s, step); }
    if t == s.cur { OwnFlag(s, step, r); }
  }

  lemma FlagOrigin(s: State, step: Step, r: State, t: nat)
    requires Good(s) && Follows(s, step, r) && Good(r) && t in r.threads && r.threads[t].timedOut
    ensures t in s.threads && t != s.cur && s.threads[t].at == r.threads[t].at && r.threads[t].at.InCond?
    ensures s.threads[t].timedOut || TimesOut(s, step, t, r.threads[t].at.c)
  {
    hide Do, Good, Enabled;
    FlagFits(r, t);
    FlagBefore(s, step, r, t);
    if IsClock(step) { ClockFlag(s, step, r, t); }
  }

  lemma FlagFits(s: State, t: nat)
    requires Good(s) && t in s.threads && s.threads[t].timedOut
    ensures s.threads[t].at.InCond?
  {
    hide RunOk, ZombieOk, IoOk, HeapOk, CondOk, MutexOk, JoinOk, StackOk, CountOk;
    assert Fits(s.threads[t], t == s.idle, t == s.cur);
  }

  /** The clock flags a thread only when its sleep is over. */
  lemma ClockFlag(s: State, step: Step, r: State, t: nat)
    requires Good(s) && Follows(s, step, r) && Good(r) && IsClock(step) && t in r.threads && r.threads[t].timedOut
    ensures t in s.threads && (s.threads[t].timedOut || exists x :: x in multiset(s.sleepQ) && x.who == t && x.due <= NowOf(step))
  {
    hide Do, Fits, Yield, IdleTurn, RunOk, ZombieOk, IoOk, HeapOk, CondOk, MutexOk, JoinOk, StackOk, CountOk;
    assert Running(r);
    if step.DoYield? {
      DoneYield(s, step);
      YieldFlags(s, step.now, t);
    } else {
      DoneIdle(s, step);
      IdleFlags(s, step.fired, step.now, t);
    }
  }

  lemma DoneYield(s: State, step: Step)
    requires Enabled(s, step) && step.DoYield?
    ensures Do(s, step) == Yield(s, step.now)
  {
  }

  lemma DoneIdle(s: State, step: Step)
    requires Enabled(s, step) && step.DoIdle?
    ensures Do(s, step) == IdleTurn(s, step.fired, step.now)
  {
  }

  lemma {:induction false} FlagHistory(ss: seq<State>, steps: seq<Step>, i: nat, t: nat)
    requires IsRun(ss, steps) && i < |ss| && t in ss[i].threads && ss[i].threads[t].timedOut
    ensures ss[i].threads[t].at.InCond?
    ensures exists j :: 0 <= j < i && TimesOut(ss[j], steps[j], t, ss[i].threads[t].at.c) && forall k :: j <= k < i ==> ss[k].cur != t
  {
    hide Do, Good, Follows, TimesOut;
    if i == 0 {
      RunStart(ss, steps);
    } else {
      var at := ss[i].threads[t].at;
      RunStep(ss, steps, i - 1);
      FlagOrigin(ss[i - 1], steps[i - 1], ss[i], t);
      if TimesOut(ss[i - 1], steps[i - 1], t, at.c) {
        assert forall k :: i - 1 <= k < i ==> ss[k].cur != t;
      } else {
        FlagHistory(ss, steps, i - 1, t);
        var j :| 0 <= j < i - 1 && TimesOut(ss[j], steps[j], t, at.c) && forall k :: j <= k < i - 1 ==> ss[k].cur != t;
        assert forall k :: j <= k < i ==> ss[k].cur != t;
      }
    }
  }

  /** A wait that the clock finds late was asked for by its thread, which has not run since. */
  lemma LateSince(ss: seq<State>, steps: seq<Step>, j: nat, t: nat, c: CondId)
    requires IsRun(ss, steps) && j < |steps| && TimesOut(ss[j], steps[j], t, c)
    ensures exists k, d :: 0 <= k < j && ss[k].cur == t && steps[k] == DoCondWait(c, Some(d))
              && ss[k].lastClock + d <= NowOf(steps[j]) && forall m :: k < m <= j ==> ss[m].cur != t
  {
    hide Do, Good, Follows;
    var x :| x in multiset(ss[j].sleepQ) && x.who == t && x.due <= NowOf(steps[j]);
    SleeperOrigin(ss, steps, j, x);
    var k :| 0 <= k < j && Asks(ss[k], steps[k], x, InCond(c)) && forall m :: k < m <= j ==> ss[m].cur != t;
    assert steps[k] == DoCondWait(c, Some(x.due - ss[k].lastClock));
  }

  /** `st_cond_timedwait` returns ETIME only if its own timeout had passed when the clock
      was looked at while the thread was still waiting: no signal and no interrupt had
      reached it. */
  lemma EtimeMeansLate(ss: seq<State>, steps: seq<Step>, i: nat, t: nat, c: CondId)
    requires IsRun(ss, steps) && i < |steps| && steps[i] == DoResume && Get(ss[i], ss[i].cur).at == InCond(c)
    requires t == ss[i].cur && CondDone(ss[i], c).ret == Some(Fail(ETIME))
    ensures exists k, j, d :: 0 <= k < j < i && ss[k].cur == t && steps[k] == DoCondWait(c, Some(d))
              && TimesOut(ss[j], steps[j], t, c) && ss[k].lastClock + d <= NowOf(steps[j])
              && forall m :: k < m < i ==> ss[m].cur != t
  {
    hide Do, Good, Follows, TimesOut, CondDone;
    RunStep(ss, steps, i);
    EtimeFlag(ss[i], c);
    FlagHistory(ss, steps, i, t);
    var j :| 0 <= j < i && TimesOut(ss[j], steps[j], t, c) && forall k :: j <= k < i ==> ss[k].cur != t;
    LateSince(ss, steps, j, t, c);
  }

  lemma EtimeFlag(s: State, c: CondId)
    requires Good(s) && Get(s, s.cur).at == InCond(c) && CondDone(s, c).ret == Some(Fail(ETIME))
    ensures s.cur in s.threads && s.threads[s.cur].timedOut
  {
    NotIdle(s);
  }
}
