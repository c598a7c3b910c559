/** How the records of the threads that are not running change in a step. */
module SchedProgress {
  import opened Basics
  import opened HeapModel
  import opened Epoll
  import opened SchedQueues
  import opened SchedModel
  import opened SchedInvariant
  import opened SchedRuns
  import opened SchedTheorems

  // ---- what a step does to the threads that are not running ----

  /** A record h may become g while its thread does not run. */
  ghost predicate Progress(h: Thread, g: Thread) {
    && g.retval == h.retval && g.primordial == h.primordial && g.term == h.term
    && (g.at == h.at || (h.at == InPoll(None) && g.at.InPoll?))
    && (g.state == h.state || g.state == RUNNABLE || g.state == RUNNING)
    && (h.interrupt ==> g.interrupt)
  }

  /** Every thread but t makes only such progress, and only the clock marks a wait as timed
      out. */
  ghost predicate Pass(a: map<nat, Thread>, b: map<nat, Thread>, t: nat, clock: bool) {
    && a.Keys == b.Keys && (forall u :: u in a && u != t ==> Progress(a[u], b[u]))
    && forall u :: u in b && b[u].timedOut ==> a[u].timedOut || (clock && u != t && a[u].state == COND_WAIT)
  }

  lemma PassThen(a: map<nat, Thread>, b: map<nat, Thread>, c: map<nat, Thread>, t: nat, clock: bool)
    requires Pass(a, b, t, clock) && Pass(b, c, t, clock)
    ensures Pass(a, c, t, clock)
  {
    forall u | u in a && u != t
      ensures Progress(a[u], c[u])
    {
      assert Progress(a[u], b[u]) && Progress(b[u], c[u]);
    }
  }

  ghost predicate Running(s: State) {
    ShapeOk(s, Some(s.cur))
  }

  /** The context switch, after which some thread has the processor. */
  lemma PassBlocked(a: map<nat, Thread>, m: State, t: nat, clock: bool)
    requires Pass(a, m.threads, t, clock) && Running(Schedule(m))
    ensures Pass(a, Schedule(m).threads, t, clock)
  {
    hide Pass;
    var r := Schedule(m);
    assert Fits(r.threads[r.cur], r.cur == r.idle, true);
    RunPass(m.threads, r.cur, t, clock);
    assert r.threads == m.threads[r.cur := m.threads[r.cur].(state := RUNNING)];
    PassThen(a, m.threads, r.threads, t, clock);
  }

  lemma AnyPass(a: map<nat, Thread>, b: map<nat, Thread>, t: nat)
    requires Pass(a, b, t, false)
    ensures Pass(a, b, t, true)
  {
  }

  lemma RunPass(a: map<nat, Thread>, u: nat, t: nat, clock: bool)
    requires u in a
    ensures Pass(a, a[u := a[u].(state := RUNNING)], t, clock)
  {
  }

  lemma {:induction false} WakeAllPass(s: State, ts: seq<nat>, t: nat)
    requires forall u :: u in ts ==> u in s.threads
    ensures Pass(s.threads, WakeAll(s, ts).threads, t, false)
  {
    if ts != [] {
      var n := |ts| - 1;
      WakeAllPass(s, ts[..n], t);
      var m := WakeAll(s, ts[..n]);
      assert Pass(m.threads, Wake(m, ts[n]).threads, t, false);
      PassThen(s.threads, m.threads, Wake(m, ts[n]).threads, t, false);
    }
  }

  lemma SignalPass(s: State, c: CondId, broadcast: bool, t: nat)
    ensures Pass(s.threads, Signal(s, c, broadcast).threads, t, false)
  {
    WaitingIs(s, WaitQ(s, c), COND_WAIT);
    forall u | u in Signalled(s, c, broadcast)
      ensures u in s.threads
    {
      assert u in Waiting(s, WaitQ(s, c), COND_WAIT);
    }
    WakeAllPass(s, Signalled(s, c, broadcast), t);
  }

  lemma PassExpired(s: State, r: State, p: Image<nat>, t: nat)
    requires Expired(s, r, p) && !OnHeap(p, t)
    ensures Pass(s.threads, r.threads, t, true)
  {
  }

  lemma PassDelivered(s: State, r: State, moved: seq<Pollq>, t: nat)
    requires Delivered(s, r, moved) && forall u :: u in Threads(moved) ==> u in s.threads && s.threads[u].at == InPoll(None)
    ensures Pass(s.threads, r.threads, t, false)
  {
    ThreadsAt(moved);
    forall u | u in s.threads
      ensures Progress(s.threads[u], r.threads[u])
    {
      if u in Threads(moved) {
        var i :| 0 <= i < |moved| && Threads(moved)[i] == u;
        assert moved[i].thread == u;
      }
    }
  }

  lemma DispatchPass(s: State, fired: Fired)
    requires Inv(s) && s.runQ == [] && s.cur == s.idle
    ensures Pass(s.threads, Dispatch(s, fired).threads, s.cur, false)
  {
    hide RunOk, ZombieOk, HeapOk, CondOk, MutexOk, JoinOk, StackOk, CountOk;
    var r := Dispatch(s, fired);
    DispatchKeeps(s, fired, r);
    if fired != [] {
      var moved := Moved(s.ioQ, Revents(s, fired));
      MovedOrKept(s.ioQ, Revents(s, fired));
      PassDelivered(s, r.(ioQ := s.ioQ), moved, s.cur);
    }
  }

  lemma SuspendPass(w: State, st: TState, at: Place, timeout: Option<int>)
    requires w.cur in w.threads
    ensures Pass(w.threads, Suspend(w, st, at, timeout).threads, w.cur, false)
  {
  }

  lemma CondWaitPass(s: State, c: CondId, timeout: Option<int>)
    requires s.cur in s.threads && Running(CondWait(s, c, timeout).s)
    ensures Pass(s.threads, CondWait(s, c, timeout).s.threads, s.cur, false)
  {
    if !Get(s, s.cur).interrupt {
      var w := s.(conds := s.conds[c := WaitQ(s, c) + [s.cur]]);
      SuspendPass(w, COND_WAIT, InCond(c), timeout);
      PassBlocked(s.threads, Suspend(w, COND_WAIT, InCond(c), timeout), s.cur, false);
    }
  }

  lemma JoinLoopPass(s: State, u: nat)
    requires s.cur in s.threads && u in s.threads && Running(JoinLoop(s, u).s)
    ensures Pass(s.threads, JoinLoop(s, u).s.threads, s.cur, false)
  {
    if s.threads[u].state != ZOMBIE { CondWaitPass(s, Term(u), None); }
  }

  lemma UsleepPass(s: State, timeout: Option<int>)
    requires s.cur in s.threads && Running(Usleep(s, timeout).s)
    ensures Pass(s.threads, Usleep(s, timeout).s.threads, s.cur, false)
  {
    if !Get(s, s.cur).interrupt {
      var st := if timeout.Some? then SLEEPING else SUSPENDED;
      SuspendPass(s, st, InSleep, timeout);
      PassBlocked(s.threads, Suspend(s, st, InSleep, timeout), s.cur, false);
    }
  }

  lemma PollPass(s: State, pds: seq<PollFd>, timeout: Option<int>, added: Errno)
    requires s.cur in s.threads && Running(Poll(s, pds, timeout, added).s)
    ensures Pass(s.threads, Poll(s, pds, timeout, added).s.threads, s.cur, false)
  {
    if !Get(s, s.cur).interrupt && added == Ok {
      var w := s.(ioQ := s.ioQ + [Pollq(s.cur, pds)]);
      SuspendPass(w, IO_WAIT, InPoll(None), timeout);
      PassBlocked(s.threads, Suspend(w, IO_WAIT, InPoll(None), timeout), s.cur, false);
    }
  }

  lemma LockPass(s: State, m: nat)
    requires s.cur in s.threads && m in s.mutexes && Running(Lock(s, m).s)
    ensures Pass(s.threads, Lock(s, m).s.threads, s.cur, false)
  {
    var x := s.mutexes[m];
    if !Get(s, s.cur).interrupt && x.owner != None && x.owner != Some(s.cur) {
      var w := s.(mutexes := s.mutexes[m := x.(waitQ := x.waitQ + [s.cur])]);
      SuspendPass(w, LOCK_WAIT, InLock(m), None);
      PassBlocked(s.threads, Suspend(w, LOCK_WAIT, InLock(m), None), s.cur, false);
    }
  }

  lemma ZombiePass(a: map<nat, Thread>, z: State, t: nat, r: State)
    requires Pass(a, z.threads, t, false) && r == Signal(z, Term(t), false) && Running(Schedule(r))
    ensures Pass(a, Schedule(r).threads, t, false)
  {
    SignalPass(z, Term(t), false, t);
    PassThen(a, z.threads, r.threads, t, false);
    PassBlocked(a, r, t, false);
  }

  lemma OnePass(a: map<nat, Thread>, u: nat, h: Thread, t: nat)
    requires u in a && Progress(a[u], h) && (h.timedOut ==> a[u].timedOut)
    ensures Pass(a, a[u := h], t, false)
  {
  }

  lemma InterruptPass(s: State, t: nat)
    requires t in s.threads
    ensures Pass(s.threads, Interrupt(s, t).s.threads, s.cur, false)
  {
    hide Pass;
    var h := s.threads[t].(interrupt := true);
    SamePass(s.threads, s.cur);
    OnePass(s.threads, t, h, s.cur);
    OnePass(s.threads, t, h.(state := RUNNABLE, onSleepQ := false), s.cur);
  }

  /** The last stretch of a thread: it is gone, and its stack too. */
  lemma GonePass(w: State, h: Thread, a: map<nat, Thread>, m: State)
    requires w.cur in w.threads && a == w.threads && (h.timedOut ==> a[w.cur].timedOut)
    requires m == Vanish(w, h) && Running(Schedule(m))
    ensures Pass(a, Schedule(m).threads, w.cur, false)
  {
    hide Pass, Running, Schedule;
    OwnPass(a, w.cur, h.(state := RUNNING, at := Gone));
    PassBlocked(a, m, w.cur, false);
  }

  lemma ExitPass(s: State, retval: int)
    requires s.cur in s.threads && Running(Exit(s, retval).s)
    ensures Pass(s.threads, Exit(s, retval).s.threads, s.cur, false)
  {
    hide Pass, Running, Schedule, Signal, Vanish;
    var t := s.cur;
    var h := s.threads[t].(retval := retval);
    if h.term {
      var z := SetThread(s, t, h.(state := ZOMBIE, at := InExit)).(activeCount := s.activeCount - 1, zombieQ := s.zombieQ + [t]);
      OwnPass(s.threads, t, h.(state := ZOMBIE, at := InExit));
      ZombiePass(s.threads, z, t, Signal(z, Term(t), false));
    } else {
      var w := s.(activeCount := s.activeCount - 1);
      GonePass(w, h, s.threads, Vanish(w, h));
    }
  }

  lemma ExitDonePass(s: State)
    requires s.cur in s.threads && Running(ExitDone(s).s)
    ensures Pass(s.threads, ExitDone(s).s.threads, s.cur, false)
  {
    hide Pass, Running, Schedule, Vanish;
    var c := Term(s.cur);
    var w := s.(conds := if WaitQ(s, c) == [] then s.conds - {c} else s.conds);
    var h := s.threads[s.cur].(term := false);
    GonePass(w, h, s.threads, Vanish(w, h));
  }

  lemma ClockPass(s: State, now: int, c: State)
    requires Core(s, Some(s.cur), None) && !Get(s, s.cur).onSleepQ && s.cur in s.threads && c == CheckClock(s, now)
    ensures Pass(s.threads, c.threads, s.cur, true) && c.cur == s.cur && c.threads[s.cur] == s.threads[s.cur]
  {
    CheckClockKeeps(s, Some(s.cur), now, c);
    RunnerUntouched(s, c, Popped(s.sleepQ, now), now);
    if OnHeap(Popped(s.sleepQ, now), s.cur) { PoppedOnHeap(s.sleepQ, now, s.cur); }
    PassExpired(s.(lastClock := now), c, Popped(s.sleepQ, now), s.cur);
  }

  lemma YieldPass(s: State, now: int)
    requires Good(s) && InCall(s) && Running(Yield(s, now).s)
    ensures Pass(s.threads, Yield(s, now).s.threads, s.cur, true)
  {
    NotIdle(s);
    var c := CheckClock(s, now);
    ClockPass(s, now, c);
    if c.runQ != [] {
      var r := Suspend(c, RUNNABLE, InYield, None).(runQ := c.runQ + [c.cur]);
      SuspendPass(c, RUNNABLE, InYield, None);
      PassThen(s.threads, c.threads, r.threads, s.cur, true);
      PassBlocked(s.threads, r, s.cur, true);
    }
  }

  /** The idle thread polls the kernel and the clock. */
  lemma IdleWorkPass(s: State, fired: Fired, now: int, c: State)
    requires Good(s) && Get(s, s.cur).at.InIdle? && c == CheckClock(Dispatch(s, fired), now)
    ensures Pass(s.threads, c.threads, s.cur, true) && c.cur == s.cur && s.cur in c.threads
  {
    hide Pass, Dispatch, CheckClock;
    assert Fits(s.threads[s.cur], s.cur == s.idle, true);
    var d := Dispatch(s, fired);
    DispatchKeeps(s, fired, d);
    DispatchPass(s, fired);
    AnyPass(s.threads, d.threads, s.cur);
    IdleUntouched(s, fired);
    ClockPass(d, now, c);
    PassThen(s.threads, d.threads, c.threads, s.cur, true);
  }

  lemma IdlePass(s: State, fired: Fired, now: int)
    requires Good(s) && Get(s, s.cur).at.InIdle? && Running(IdleTurn(s, fired, now).s)
    ensures Pass(s.threads, IdleTurn(s, fired, now).s.threads, s.cur, true)
  {
    var c := CheckClock(Dispatch(s, fired), now);
    IdleWorkPass(s, fired, now, c);
    var r := Suspend(c, RUNNABLE, InIdle, None);
    SuspendPass(c, RUNNABLE, InIdle, None);
    PassThen(s.threads, c.threads, r.threads, s.cur, true);
    PassBlocked(s.threads, r, s.cur, true);
  }

  /** A join that goes on after its wait finds the zombie, and no other joiner. */
  lemma JoinerGoesOn(s: State, u: nat)
    requires Good(s) && Get(s, s.cur).at == InCond(Term(u)) && !Get(s, s.cur).interrupt
    ensures u != s.cur && Get(s, u).state == ZOMBIE && u in s.threads && WaitQ(s, Term(u)) == [s.cur]
    ensures !Get(s, s.cur).timedOut && Without(WaitQ(s, Term(u)), s.cur) == []
  {
    NotIdle(s);
    assert JoinerOk(s, s.threads[s.cur], None);
    assert Fits(s.threads[s.cur], false, true);
    assert s.cur in s.conds[Term(u)];
    assert s.conds[Term(u)] == [s.cur];
    assert [s.cur][..0] == [];
    assert Without([s.cur][..0], s.cur) == [];
  }

  lemma OwnPass(a: map<nat, Thread>, t: nat, h: Thread)
    requires t in a && (h.timedOut ==> a[t].timedOut)
    ensures Pass(a, a[t := h], t, false)
  {
  }

  lemma CondDonePass(s: State, c: CondId, h: Thread)
    requires s.cur in s.threads && h == s.threads[s.cur] && Running(CondDone(s, c).s)
    requires c.Term? && !h.interrupt && !h.timedOut ==> c.t in s.threads && s.threads[c.t].state == ZOMBIE && c.t != s.cur
    ensures Pass(s.threads, CondDone(s, c).s.threads, s.cur, false)
  {
    hide Pass, Running;
    var g := h.(at := InUser, timedOut := false, interrupt := false);
    OwnPass(s.threads, s.cur, g);
    if c.Term? && !h.interrupt && !h.timedOut {
      ReleasedPass(s.threads[s.cur := g], c.t, s.cur);
      PassThen(s.threads, s.threads[s.cur := g], CondDone(s, c).s.threads, s.cur, false);
    }
  }

  lemma ReleasedPass(a: map<nat, Thread>, u: nat, t: nat)
    requires u in a
    ensures Pass(a, a[u := a[u].(state := RUNNABLE)], t, false)
  {
  }

  lemma ResumePass(s: State, r: State)
    requires s.cur in s.threads && !s.threads[s.cur].at.InCond? && Running(r) && r == Resume(s).s
    ensures Pass(s.threads, r.threads, s.cur, false)
  {
    hide Pass, Running;
    var h := s.threads[s.cur];
    match h.at {
      case InExit => ExitDonePass(s);
      case InPoll(ready) => PollDonePass(s, ready);
      case InLock(m) => LockDonePass(s, m);
      case _ => ReturnPass(s);
    }
  }

  /** The ends of a call change the record of the running thread only. */
  lemma ReturnPass(s: State)
    requires s.cur in s.threads
    ensures Pass(s.threads, Return(s, Zero).s.threads, s.cur, false) && Pass(s.threads, SleepDone(s).s.threads, s.cur, false)
    ensures Pass(s.threads, Interrupted(s).s.threads, s.cur, false)
  {
    hide Pass;
    var h := s.threads[s.cur];
    OwnPass(s.threads, s.cur, h.(at := InUser));
    OwnPass(s.threads, s.cur, h.(at := InUser, interrupt := false));
  }

  lemma PollDonePass(s: State, ready: Option<seq<PollFd>>)
    requires s.cur in s.threads
    ensures Pass(s.threads, PollDone(s, ready).s.threads, s.cur, false)
  {
    hide Pass, WithoutPoll, CountReady;
    ReturnPass(s);
  }

  lemma LockDonePass(s: State, m: nat)
    requires s.cur in s.threads
    ensures m in s.mutexes ==> Pass(s.threads, LockDone(s, m).s.threads, s.cur, false)
    ensures Pass(s.threads, Return(s, Fail(EINVAL)).s.threads, s.cur, false)
  {
    hide Pass, Without;
    ReturnPass(s);
  }

  lemma ResumedPass(s: State)
    requires Good(s) && !InCall(s) && !Get(s, s.cur).at.InIdle? && Running(Resume(s).s)
    ensures Pass(s.threads, Resume(s).s.threads, s.cur, false)
  {
    hide Pass, Running, RunOk, ZombieOk, IoOk, HeapOk, CondOk, MutexOk, JoinOk, StackOk, CountOk, CondDone, PollDone, LockDone, ExitDone;
    var h := s.threads[s.cur];
    if h.at.InCond? {
      if h.at.c.Term? && !h.interrupt { JoinerGoesOn(s, h.at.c.t); }
      CondDonePass(s, h.at.c, h);
    } else {
      ResumePass(s, Resume(s).s);
    }
  }

  lemma UnlockPass(s: State, m: nat)
    requires s.cur in s.threads && m in s.mutexes
    ensures Pass(s.threads, Unlock(s, m).s.threads, s.cur, false)
  {
    var w := Waiting(s, s.mutexes[m].waitQ, LOCK_WAIT);
    WaitingIs(s, s.mutexes[m].waitQ, LOCK_WAIT);
    assert w != [] ==> w[0] in w;
  }

  lemma SamePass(a: map<nat, Thread>, t: nat)
    ensures Pass(a, a, t, false)
  {
  }

  /** The calls that change no record but, to take an interrupt, that of the caller. */
  lemma QuietPass(s: State, step: Step, r: State)
    requires Enabled(s, step) && s.cur in s.threads && r == Do(s, step).s
    requires step.DoCondNew? || step.DoMutexNew? || step.DoCondDestroy? || step.DoMutexDestroy? || step.DoTrylock?
    ensures Pass(s.threads, r.threads, s.cur, false)
  {
    hide Pass;
    SamePass(s.threads, s.cur);
  }

  lemma CallPass(s: State, step: Step, r: State)
    requires Enabled(s, step) && s.cur in s.threads && Running(r) && r == Do(s, step).s
    requires !step.DoCreate? && !step.DoYield? && !step.DoResume? && !step.DoIdle?
    ensures Pass(s.threads, r.threads, s.cur, false)
  {
    hide Pass, Running;
    SamePass(s.threads, s.cur);
    match step {
      case DoPoll(pds, timeout, added) => PollPass(s, pds, timeout, added);
      case DoUsleep(timeout) => UsleepPass(s, timeout);
      case DoLock(m) => LockPass(s, m);
      case DoExit(retval) => ExitPass(s, retval);
      case DoJoin(u) => if Get(s, u).term && s.cur != u && WaitQ(s, Term(u)) == [] { JoinLoopPass(s, u); }
      case DoCondWait(c, timeout) => CondWaitPass(s, c, timeout);
      case DoSignal(c, broadcast) => SignalPass(s, c, broadcast, s.cur);
      case DoUnlock(m) => UnlockPass(s, m);
      case DoInterrupt(t) => InterruptPass(s, t);
      case _ => QuietPass(s, step, r);
    }
  }

  predicate IsClock(step: Step) { step.DoYield? || step.DoIdle? }

  /** A thread that is not running changes only in being made ready or chosen. */
  lemma StepPass(s: State, step: Step)
    requires Good(s) && Enabled(s, step) && !step.DoCreate?
    ensures Pass(s.threads, Do(s, step).s.threads, s.cur, IsClock(step))
  {
    hide Pass, RunOk, ZombieOk, IoOk, HeapOk, CondOk, MutexOk, JoinOk, StackOk, CountOk, Yield, IdleTurn, Resume;
    StepKeeps(s, step);
    if step.DoYield? {
      YieldPass(s, step.now);
    } else if step.DoIdle? {
      IdlePass(s, step.fired, step.now);
    } else if step.DoResume? {
      ResumedPass(s);
    } else {
      CallPass(s, step, Do(s, step).s);
    }
  }
}
