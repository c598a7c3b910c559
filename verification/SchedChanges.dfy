/** Every change that a step makes to the record of a thread that is not running has one of
    seven causes, and a thread that has been waiting was woken by the last of them. */
module SchedChanges {
  import opened Basics
  import opened HeapModel
  import opened Epoll
  import opened SchedQueues
  import opened SchedModel
  import opened SchedInvariant
  import opened SchedRuns
  import opened SchedTheorems
  import opened SchedProgress
  import opened SchedJoin
  import opened SchedTimeouts
  import opened SchedGuarantees
  import opened SchedEffects

  // ---- one step ----

  /** The record of u in r, but for its having been given the processor. */
  function Before(r: State, u: nat): Thread
    requires u in r.threads
  {
    if u == r.cur then r.threads[u].(state := RUNNABLE) else r.threads[u]
  }

  function Awake(h: Thread): Thread {
    h.(state := RUNNABLE, onSleepQ := false)
  }

  /** The sleep of u is over. */
  ghost predicate IsDue(s: State, now: int, u: nat) {
    exists x :: x in multiset(s.sleepQ) && x.who == u && x.due <= now
  }

  /** The request of u has events to report, and has been given them. */
  ghost predicate IsServed(s: State, fired: Fired, u: nat, at: Place) {
    exists i :: 0 <= i < |s.ioQ| && s.ioQ[i].thread == u && HasEvents(Served(s.ioQ[i], Revents(s, fired)))
                && at == InPoll(Some(Served(s.ioQ[i], Revents(s, fired)).pds))
  }

  datatype Cause = Interrupting | Signalling | Exiting | Late | Serving | Unlocking | Joining

  /** The step turns the record h of the thread u into k, and this is why. */
  ghost predicate Wakes(s: State, step: Step, u: nat, h: Thread, k: Thread, why: Cause) {
    match why
    case Interrupting =>
      step == DoInterrupt(u) && h.state != ZOMBIE
      && k == (if h.state == RUNNING || h.state == RUNNABLE then h else Awake(h)).(interrupt := true)
    case Signalling => step.DoSignal? && h.state == COND_WAIT && h.at == InCond(step.c) && k == Awake(h)
    case Exiting => step.DoExit? && h.state == COND_WAIT && h.at == InCond(Term(s.cur)) && k == Awake(h)
    case Late => IsClock(step) && h.onSleepQ && IsDue(s, NowOf(step), u) && k == Awake(h).(timedOut := h.state == COND_WAIT)
    case Serving => step.DoIdle? && h.state == IO_WAIT && IsServed(s, step.fired, u, k.at) && k == Awake(h).(at := k.at)
    case Unlocking => step.DoUnlock? && h.state == LOCK_WAIT && h.at == InLock(step.m) && k == Awake(h)
    case Joining => h.state == ZOMBIE && Joins(s, step, u) && k == Awake(h)
  }

  ghost predicate Changes(s: State, step: Step, u: nat, h: Thread, k: Thread) {
    k == h || exists why :: Wakes(s, step, u, h, k, why)
  }

  lemma SwitchChanges(m: State, r: State, u: nat)
    requires SwitchesTo(m, r) && u in m.threads
    ensures u in r.threads && Before(r, u) == m.threads[u]
  {
  }

  /** The calls that may wait change no record but that of the caller. */
  lemma WaitChanges(s: State, step: Step, r: Result, u: nat)
    requires Good(s) && Enabled(s, step) && r == Do(s, step) && u in s.threads && u != s.cur
    requires step.DoUsleep? || step.DoPoll? || step.DoCondWait? || step.DoLock?
    ensures u in r.s.threads && (r.s.cur == s.cur || r.ret == None) && Before(r.s, u) == s.threads[u]
  {
    hide Do, Good, SwitchesTo;
    CallerRuns(s, step);
    var m := s;
    match step {
      case DoUsleep(timeout) => m := UsleepDoes(s, timeout, r);
      case DoPoll(pds, timeout, added) => m := PollDoes(s, pds, timeout, added, r);
      case DoCondWait(c, timeout) => m := CondWaitDoes(s, c, timeout, r);
      case DoLock(k) => m := LockDoes(s, k, r);
    }
    if r.ret == None { SwitchChanges(m, r.s, u); }
  }

  lemma CallerRuns(s: State, step: Step)
    requires Good(s) && Enabled(s, step) && !step.DoResume? && !step.DoIdle?
    ensures s.cur in s.threads && s.threads[s.cur].at.InUser? && s.threads[s.cur].state == RUNNING
  {
    hide Good;
    Caller(s);
  }

  lemma SignalChanges(s: State, step: Step, r: Result, u: nat)
    requires Good(s) && Enabled(s, step) && r == Do(s, step) && step.DoSignal? && u in s.threads && u != s.cur
    ensures u in r.s.threads && r.s.cur == s.cur && Changes(s, step, u, s.threads[u], r.s.threads[u])
  {
    hide Do, Good, InOrder, SleepersStay;
    var ts, which := SignalDoes(s, step.c, step.broadcast, r);
    if u in ts {
      WaiterFound(s, s.conds[step.c], ts, which, u);
      WaitersAre(s, step.c, u);
    }
    if r.s.threads[u] != s.threads[u] { assert Wakes(s, step, u, s.threads[u], r.s.threads[u], Signalling); }
  }

  lemma WaiterFound(s: State, q: seq<nat>, ts: seq<nat>, which: seq<nat>, u: nat)
    requires InOrder(s, q, COND_WAIT, ts, which) && u in ts
    ensures u in q && Get(s, u).state == COND_WAIT
  {
    var i :| 0 <= i < |ts| && ts[i] == u;
    assert which[i] in which && q[which[i]] == u;
  }

  lemma WaitersAre(s: State, c: CondId, u: nat)
    requires Good(s) && c in s.conds && u in s.conds[c]
    ensures u in s.threads && s.threads[u].at == InCond(c)
  {
    hide ShapeOk, RunOk, ZombieOk, IoOk, HeapOk, MutexOk, JoinOk, StackOk, CountOk;
  }

  lemma UnlockChanges(s: State, step: Step, r: Result, u: nat)
    requires Good(s) && Enabled(s, step) && r == Do(s, step) && step.DoUnlock? && u in s.threads && u != s.cur
    ensures u in r.s.threads && r.s.cur == s.cur && Changes(s, step, u, s.threads[u], r.s.threads[u])
  {
    hide Do, Good;
    UnlockDoes(s, step.m, r);
    if r.s.threads[u] != s.threads[u] {
      LockersAre(s, step.m, u);
      assert Wakes(s, step, u, s.threads[u], r.s.threads[u], Unlocking);
    }
  }

  lemma LockersAre(s: State, k: nat, u: nat)
    requires Good(s) && k in s.mutexes && u in s.mutexes[k].waitQ
    ensures u in s.threads && s.threads[u].at == InLock(k) && !s.threads[u].onSleepQ
  {
    hide RunOk, ZombieOk, IoOk, HeapOk, CondOk, JoinOk, StackOk, CountOk;
    assert Fits(s.threads[u], u == s.idle, u == s.cur);
  }

  lemma InterruptChanges(s: State, step: Step, r: Result, u: nat)
    requires Good(s) && Enabled(s, step) && r == Do(s, step) && step.DoInterrupt? && u in s.threads
    ensures u in r.s.threads && r.s.cur == s.cur && Changes(s, step, u, s.threads[u], r.s.threads[u])
  {
    hide Do, Good;
    InterruptDoes(s, step.t, r);
    if r.s.threads[u] != s.threads[u] { assert Wakes(s, step, u, s.threads[u], r.s.threads[u], Interrupting); }
  }

  lemma JoinChanges(s: State, step: Step, r: Result, u: nat)
    requires Good(s) && Enabled(s, step) && r == Do(s, step) && step.DoJoin? && u in s.threads && u != s.cur
    ensures u in r.s.threads && Changes(s, step, u, s.threads[u], Before(r.s, u))
  {
    hide Do, Good, SwitchesTo, Join;
    CallerRuns(s, step);
    var m := JoinDoes(s, step.u, r);
    if r.ret == None {
      SwitchChanges(m, r.s, u);
    } else if r.s.threads[u] != s.threads[u] {
      JoinStepIs(s, step, r);
      ZombieSleepsNot(s, u);
      assert Wakes(s, step, u, s.threads[u], r.s.threads[u], Joining);
    }
  }

  lemma JoinStepIs(s: State, step: Step, r: Result)
    requires Enabled(s, step) && r == Do(s, step) && step.DoJoin? && r.ret.Some? && r.ret.value.Retval?
    ensures Joins(s, step, step.u)
  {
  }

  lemma ZombieSleepsNot(s: State, u: nat)
    requires Good(s) && Get(s, u).state == ZOMBIE
    ensures u in s.threads && !s.threads[u].onSleepQ && u != s.cur
  {
    hide RunOk, ZombieOk, IoOk, HeapOk, CondOk, MutexOk, JoinOk, StackOk, CountOk;
    assert Fits(s.threads[u], u == s.idle, u == s.cur);
  }

  lemma ExitChanges(s: State, step: Step, r: Result, u: nat)
    requires Good(s) && Enabled(s, step) && r == Do(s, step) && step.DoExit? && u in s.threads && u != s.cur
    ensures u in r.s.threads && Changes(s, step, u, s.threads[u], Before(r.s, u))
  {
    hide Do, Good, SwitchesTo;
    var z, m := ExitDoes(s, step.retval, r);
    CallerRuns(s, step);
    SwitchChanges(m, r.s, u);
    if Before(r.s, u) != s.threads[u] {
      assert u in Joiners(s, s.cur);
      WaitersAre(s, Term(s.cur), u);
      assert Wakes(s, step, u, s.threads[u], Before(r.s, u), Cause.Exiting);
    }
  }

  lemma CreateChanges(s: State, step: Step, r: Result, u: nat)
    requires Good(s) && Enabled(s, step) && r == Do(s, step) && step.DoCreate? && u in s.threads && u in r.s.threads
    ensures r.s.cur == s.cur && r.s.threads[u] == s.threads[u]
  {
    hide Do, Good;
    var m := CreateDoes(s, step.joinable, step.stackOk, step.condOk, r);
    NewNumber(s, u);
  }

  lemma ObjectChanges(s: State, step: Step, r: Result)
    requires Enabled(s, step) && r == Do(s, step)
    requires step.DoCondNew? || step.DoMutexNew? || step.DoCondDestroy? || step.DoMutexDestroy? || step.DoTrylock?
    ensures r.s.cur == s.cur && r.s.threads == s.threads
  {
    hide Do;
    ObjectsDo(s, step, r);
    if step.DoTrylock? { TrylockDoes(s, step.m, r); }
  }

  // ---- the clock ----

  /** A thread that the clock wakes is due. */
  lemma ClockChanges(s: State, now: int, c: State, p: Image<nat>, u: nat)
    requires Clocked(s, now, c, p) && HeapOk(s) && u in s.threads
    ensures u in c.threads
    ensures c.threads[u] == s.threads[u]
            || (s.threads[u].onSleepQ && IsDue(s, now, u) && c.threads[u] == Awake(s.threads[u]).(timedOut := s.threads[u].state == COND_WAIT))
  {
    if OnHeap(p, u) {
      var i :| 0 <= i < |p| && p[i].who == u;
      assert p[i] in multiset(p) && p[i] in multiset(s.sleepQ);
      AtMostOnce(s.sleepQ, p[i]);
    }
  }

  lemma YieldChanges(s: State, step: Step, r: Result, u: nat)
    requires Good(s) && Enabled(s, step) && r == Do(s, step) && step.DoYield? && u in s.threads && u != s.cur
    ensures u in r.s.threads && Changes(s, step, u, s.threads[u], Before(r.s, u))
  {
    hide Do, Good, SwitchesTo, Clocked, IsDue;
    var c, p, m := YieldDoes(s, step.now, r);
    GoodHeap(s);
    ClockChanges(s, step.now, c, p, u);
    if c.runQ != [] { SwitchChanges(m, r.s, u); }
    if Before(r.s, u) != s.threads[u] { assert Wakes(s, step, u, s.threads[u], Before(r.s, u), Late); }
  }

  lemma HeapIs(s: State)
    requires Inv(s)
    ensures HeapOk(s)
  {
  }

  lemma GoodHeap(s: State)
    requires Good(s)
    ensures HeapOk(s)
  {
  }

  /** After dispatch a thread has been served, or is as before. */
  lemma DispatchChanges(s: State, fired: Fired, d: State, moved: seq<Pollq>, mw: seq<nat>, kw: seq<nat>, u: nat)
    requires Dispatched(s, fired, d, moved, mw, kw) && u in s.threads
    ensures u in d.threads
    ensures d.threads[u] == s.threads[u]
            || (IsServed(s, fired, u, d.threads[u].at) && d.threads[u] == Awake(s.threads[u]).(at := d.threads[u].at) && u in Threads(s.ioQ))
  {
    hide Revents, Served, HasEvents;
    if fired != [] {
      ThreadsAt(moved);
      ThreadsAt(s.ioQ);
      if u in Threads(moved) {
        var i :| 0 <= i < |moved| && Threads(moved)[i] == u;
        assert moved[i].thread == u && mw[i] in mw;
        ServedThread(s, fired, mw[i]);
        assert Threads(s.ioQ)[mw[i]] == u;
        assert s.ioQ[mw[i]].thread == u;
      }
    }
  }

  lemma ServedThread(s: State, fired: Fired, i: nat)
    requires i < |s.ioQ|
    ensures Served(s.ioQ[i], Revents(s, fired)).thread == s.ioQ[i].thread
  {
  }

  lemma DueBefore(s: State, d: State, now: int, u: nat)
    requires SleepersStay(s, d) && IsDue(d, now, u)
    ensures IsDue(s, now, u)
  {
  }

  lemma IdleChanges(s: State, step: Step, r: Result, u: nat)
    requires Good(s) && Enabled(s, step) && r == Do(s, step) && step.DoIdle? && u in s.threads && u != s.cur
    ensures u in r.s.threads && Changes(s, step, u, s.threads[u], Before(r.s, u))
  {
    hide Do, Good, Inv, SwitchesTo, Clocked, Dispatched, IsServed, IsDue, SleepersStay;
    var d, moved, mw, kw, c, p, m := IdleDoes(s, step.fired, step.now, r);
    DispatchChanges(s, step.fired, d, moved, mw, kw, u);
    HeapIs(d);
    ClockChanges(d, step.now, c, p, u);
    SwitchChanges(m, r.s, u);
    var h, k := s.threads[u], Before(r.s, u);
    if d.threads[u] == h {
      if k != h {
        DueBefore(s, d, step.now, u);
        assert Wakes(s, step, u, h, k, Late);
      }
    } else {
      PollerWaits(s, u);
      assert Wakes(s, step, u, h, k, Serving);
    }
  }

  lemma PollerWaits(s: State, u: nat)
    requires Good(s) && s.runQ == [] && s.cur == s.idle && u in Threads(s.ioQ)
    ensures u in s.threads && s.threads[u].state == IO_WAIT
  {
    hide Core;
    PollersWait(s, u);
  }

  // ---- the second halves ----

  lemma ResumeChanges(s: State, step: Step, r: Result, u: nat)
    requires Good(s) && Enabled(s, step) && r == Do(s, step) && step.DoResume? && u in s.threads && u != s.cur
    ensures u in r.s.threads && (r.ret.Some? ==> r.s.cur == s.cur) && Changes(s, step, u, s.threads[u], Before(r.s, u))
  {
    hide Do, Good, SwitchesTo, Enabled;
    ResumedPlace(s, step);
    var at := Me(s).at;
    if at.InPoll? {
      PollDoneDoes(s, r);
    } else if at.InCond? && at.c.User? {
      CondDoneDoes(s, at.c, r);
    } else if at.InCond? {
      JoinDoneChanges(s, step, r, at.c.t, u);
    } else if at.InLock? {
      LockDoneDoes(s, at.m, r);
    } else if at.InExit? {
      var m := ExitDoneDoes(s, r);
      SwitchChanges(m, r.s, u);
    } else {
      SleepDoneDoes(s, r);
    }
  }

  lemma ResumedPlace(s: State, step: Step)
    requires Good(s) && Enabled(s, step) && step.DoResume?
    ensures s.cur in s.threads && !Me(s).at.Gone? && !Me(s).at.InUser? && !Me(s).at.InIdle?
  {
    hide RunOk, ZombieOk, IoOk, HeapOk, CondOk, MutexOk, JoinOk, StackOk, CountOk;
    NotIdle(s);
    assert Fits(s.threads[s.cur], false, true);
  }

  lemma JoinDoneChanges(s: State, step: Step, r: Result, v: nat, u: nat)
    requires Good(s) && Enabled(s, step) && r == Do(s, step) && step == DoResume && Me(s).at == InCond(Term(v)) && u in s.threads && u != s.cur
    ensures u in r.s.threads && r.s.cur == s.cur && Changes(s, step, u, s.threads[u], r.s.threads[u])
  {
    hide Do, Good, Enabled, CondDone;
    JoinDoneDoes(s, v, r);
    if r.s.threads[u] != s.threads[u] {
      ZombieSleepsNot(s, v);
      JoinResumes(s, v, r);
      assert Wakes(s, step, u, s.threads[u], r.s.threads[u], Joining);
    }
  }

  lemma JoinResumes(s: State, v: nat, r: Result)
    requires Enabled(s, DoResume) && r == Do(s, DoResume) && Me(s).at == InCond(Term(v)) && r.ret.Some? && r.ret.value.Retval?
    ensures Joins(s, DoResume, v)
  {
  }

  /** Whatever a step does to the record of a thread that is not running, it does for one of
      the causes. */
  lemma StepChanges(s: State, step: Step, r: Result, u: nat)
    requires Good(s) && Enabled(s, step) && r == Do(s, step) && u in s.threads && u in r.s.threads && u != s.cur
    ensures Changes(s, step, u, s.threads[u], Before(r.s, u))
  {
    hide Do, Good, Enabled, Changes;
    Unchanged(s, step, u, s.threads[u]);
    if step.DoUsleep? || step.DoPoll? || step.DoCondWait? || step.DoLock? {
      WaitChanges(s, step, r, u);
    } else if step.DoSignal? {
      SignalChanges(s, step, r, u);
    } else if step.DoUnlock? {
      UnlockChanges(s, step, r, u);
    } else if step.DoInterrupt? {
      InterruptChanges(s, step, r, u);
    } else if step.DoJoin? {
      JoinChanges(s, step, r, u);
    } else if step.DoExit? {
      ExitChanges(s, step, r, u);
    } else if step.DoCreate? {
      CreateChanges(s, step, r, u);
    } else if step.DoYield? {
      YieldChanges(s, step, r, u);
    } else if step.DoIdle? {
      IdleChanges(s, step, r, u);
    } else if step.DoResume? {
      ResumeChanges(s, step, r, u);
    } else {
      ObjectChanges(s, step, r);
    }
  }

  lemma Unchanged(s: State, step: Step, u: nat, h: Thread)
    ensures Changes(s, step, u, h, h)
  {
  }

  // ---- the running thread ----

  /** A thread at one of these places waits, unless it has been woken. */
  predicate IsWait(at: Place) {
    at.InSleep? || at.InPoll? || at.InCond? || at.InLock?
  }

  predicate WaitState(at: Place, st: TState) {
    match at
    case InSleep => st == SLEEPING || st == SUSPENDED
    case InPoll(ready) => ready == None && st == IO_WAIT
    case InCond(_) => st == COND_WAIT
    case InLock(_) => st == LOCK_WAIT
    case _ => false
  }

  /** What becomes of the record h of the running thread: g, with the answer ret.  An
      interrupt is taken down only by the answer EINTR. */
  ghost predicate Own(h: Thread, g: Thread, ret: Option<Ret>, byItself: bool) {
    && (ret.Some? ==> g.at.InUser?) && (IsWait(g.at) ==> WaitState(g.at, g.state)) && !g.timedOut
    && (h.interrupt && !g.interrupt ==> ret == Some(Fail(EINTR))) && (g.interrupt && !h.interrupt ==> byItself)
  }

  ghost predicate OwnStep(s: State, step: Step, r: Result) {
    && s.cur in s.threads && s.cur in r.s.threads && (r.ret.Some? ==> r.s.cur == s.cur)
    && Own(s.threads[s.cur], r.s.threads[s.cur], r.ret, step == DoInterrupt(s.cur))
  }

  lemma OwnSwitch(m: State, r: Result, h: Thread, t: nat, byItself: bool)
    requires SwitchesTo(m, r.s) && t in m.threads && r.ret == None && Own(h, m.threads[t], None, byItself)
    ensures t in r.s.threads && Own(h, r.s.threads[t], None, byItself)
  {
  }

  lemma OwnWaiting(s: State, step: Step, r: Result)
    requires Good(s) && Enabled(s, step) && r == Do(s, step)
    requires step.DoUsleep? || step.DoPoll? || step.DoCondWait? || step.DoLock? || step.DoJoin?
    ensures OwnStep(s, step, r)
  {
    hide Do, Good, Enabled, SwitchesTo;
    CallerRuns(s, step);
    CallerPlain(s, step);
    var m := s;
    match step {
      case DoUsleep(timeout) => m := UsleepDoes(s, timeout, r);
      case DoPoll(pds, timeout, added) => m := PollDoes(s, pds, timeout, added, r);
      case DoCondWait(c, timeout) => m := CondWaitDoes(s, c, timeout, r);
      case DoLock(k) => LockTarget(s, k); m := LockDoes(s, k, r);
      case DoJoin(u) => JoinTarget(s, u); m := JoinDoes(s, u, r);
    }
    if r.ret == None { OwnSwitch(m, r, s.threads[s.cur], s.cur, false); }
  }

  lemma LockTarget(s: State, k: nat)
    requires Enabled(s, DoLock(k))
    ensures k in s.mutexes
  {
  }

  lemma JoinTarget(s: State, u: nat)
    requires Good(s) && Enabled(s, DoJoin(u))
    ensures u in s.threads && (s.threads[u].state == ZOMBIE ==> u != s.cur)
  {
    hide Good;
    if s.threads[u].state == ZOMBIE { ZombieSleepsNot(s, u); }
  }

  lemma CallerPlain(s: State, step: Step)
    requires Good(s) && Enabled(s, step) && !step.DoResume? && !step.DoIdle?
    ensures s.cur in s.threads && !s.threads[s.cur].timedOut && s.threads[s.cur].at.InUser?
  {
    hide Good;
    Caller(s);
  }

  lemma OwnPlain(s: State, step: Step, r: Result)
    requires Good(s) && Enabled(s, step) && r == Do(s, step)
    requires step.DoUnlock? || step.DoSignal? || step.DoCreate? || step.DoInterrupt? || step.DoCondNew? || step.DoMutexNew?
             || step.DoCondDestroy? || step.DoMutexDestroy? || step.DoTrylock?
    ensures OwnStep(s, step, r)
  {
    hide Do, Good, Enabled;
    CallerRuns(s, step);
    CallerPlain(s, step);
    match step {
      case DoUnlock(k) => OwnUnlock(s, k, r);
      case DoSignal(c, broadcast) => OwnSignal(s, c, broadcast, r);
      case DoCreate(joinable, stackOk, condOk) =>
        var m := CreateDoes(s, joinable, stackOk, condOk, r);
        RunnerHasStack(s);
        NewNumber(s, s.cur);
      case DoInterrupt(t) => OwnInterrupted(s, t, r);
      case _ => ObjectAnswers(s, step, r);
    }
  }

  lemma OwnUnlock(s: State, k: nat, r: Result)
    requires Good(s) && Enabled(s, DoUnlock(k)) && r == Do(s, DoUnlock(k)) && s.cur in s.threads && s.threads[s.cur].at.InUser?
    ensures r.s.threads.Keys == s.threads.Keys && r.s.cur == s.cur && r.s.threads[s.cur] == s.threads[s.cur] && r.ret.Some?
  {
    hide Do, Good;
    UnlockDoes(s, k, r);
    if s.cur in r.s.threads && r.s.threads[s.cur] != s.threads[s.cur] { LockersAre(s, k, s.cur); }
  }

  lemma OwnSignal(s: State, c: CondId, broadcast: bool, r: Result)
    requires Good(s) && Enabled(s, DoSignal(c, broadcast)) && r == Do(s, DoSignal(c, broadcast))
    requires s.cur in s.threads && s.threads[s.cur].at.InUser? && s.threads[s.cur].state == RUNNING
    ensures r.s.threads.Keys == s.threads.Keys && r.s.cur == s.cur && r.s.threads[s.cur] == s.threads[s.cur] && r.ret.Some?
  {
    hide Do, Good, SleepersStay, InOrder;
    var ts, which := SignalDoes(s, c, broadcast, r);
    if s.cur in ts { WaiterFound(s, s.conds[c], ts, which, s.cur); }
  }

  lemma OwnInterrupted(s: State, t: nat, r: Result)
    requires Good(s) && Enabled(s, DoInterrupt(t)) && r == Do(s, DoInterrupt(t)) && s.cur in s.threads && s.threads[s.cur].state == RUNNING
    ensures r.s.threads.Keys == s.threads.Keys && r.s.cur == s.cur && r.ret.Some?
    ensures r.s.threads[s.cur] == if t == s.cur then s.threads[s.cur].(interrupt := true) else s.threads[s.cur]
  {
    hide Do, Good;
    InterruptDoes(s, t, r);
  }

  lemma ObjectAnswers(s: State, step: Step, r: Result)
    requires Enabled(s, step) && r == Do(s, step)
    requires step.DoCondNew? || step.DoMutexNew? || step.DoCondDestroy? || step.DoMutexDestroy? || step.DoTrylock?
    ensures r.s.cur == s.cur && r.s.threads == s.threads && r.ret.Some?
  {
    hide Do;
    ObjectsDo(s, step, r);
    if step.DoTrylock? { TrylockDoes(s, step.m, r); }
  }

  lemma RunnerHasStack(s: State)
    requires Good(s) && Get(s, s.cur).at.InUser?
    ensures s.cur in s.threads && s.cur !in s.freeStacks
  {
    hide RunOk, ZombieOk, IoOk, HeapOk, CondOk, MutexOk, JoinOk, CountOk;
  }

  lemma OwnLeaving(s: State, step: Step, r: Result)
    requires Good(s) && Enabled(s, step) && r == Do(s, step) && (step.DoExit? || step.DoYield? || step.DoIdle?)
    ensures OwnStep(s, step, r)
  {
    hide Do, Good, SwitchesTo, Clocked, Dispatched, SleepersStay, Inv;
    if step.DoExit? {
      CallerRuns(s, step);
      CallerPlain(s, step);
      var z, m := ExitDoes(s, step.retval, r);
      NotOwnJoiner(s);
      OwnSwitch(m, r, s.threads[s.cur], s.cur, false);
    } else if step.DoYield? {
      CallerRuns(s, step);
      CallerPlain(s, step);
      var c, p, m := YieldDoes(s, step.now, r);
      ClockedKeys(s, step.now, c, p);
      if c.runQ != [] { OwnSwitch(m, r, s.threads[s.cur], s.cur, false); }
    } else {
      var d, moved, mw, kw, c, p, m := IdleDoes(s, step.fired, step.now, r);
      IdleRecord(s);
      OwnSwitch(m, r, s.threads[s.cur], s.cur, false);
    }
  }

  lemma IdleRecord(s: State)
    requires Good(s) && Get(s, s.cur).at.InIdle?
    ensures s.cur in s.threads && !s.threads[s.cur].timedOut
  {
    hide RunOk, ZombieOk, IoOk, HeapOk, CondOk, MutexOk, JoinOk, StackOk, CountOk;
    assert Fits(s.threads[s.cur], s.cur == s.idle, true);
  }

  lemma ClockedKeys(s: State, now: int, c: State, p: Image<nat>)
    requires Clocked(s, now, c, p)
    ensures c.threads.Keys == s.threads.Keys && c.cur == s.cur
  {
  }

  lemma OwnResume(s: State, step: Step, r: Result)
    requires Good(s) && Enabled(s, step) && r == Do(s, step) && step.DoResume?
    ensures OwnStep(s, step, r)
  {
    hide Do, Good, Enabled, SwitchesTo;
    ResumedPlace(s, step);
    FlagPlace(s);
    var at := Me(s).at;
    if at.InPoll? {
      PollDoneDoes(s, r);
    } else if at.InCond? && at.c.User? {
      CondDoneDoes(s, at.c, r);
    } else if at.InCond? {
      JoinDoneDoes(s, at.c.t, r);
    } else if at.InLock? {
      LockDoneDoes(s, at.m, r);
    } else if at.InExit? {
      var m := ExitDoneDoes(s, r);
      OwnSwitch(m, r, s.threads[s.cur], s.cur, false);
    } else {
      SleepDoneDoes(s, r);
    }
  }

  lemma FlagPlace(s: State)
    requires Good(s)
    ensures Me(s).timedOut ==> Me(s).at.InCond? && Me(s).at.c.User?
  {
    hide RunOk, ZombieOk, IoOk, HeapOk, CondOk, MutexOk, JoinOk, StackOk, CountOk;
    assert Fits(s.threads[s.cur], s.cur == s.idle, true);
  }

  /** What a step does to the record of the running thread. */
  lemma StepOwn(s: State, step: Step, r: Result)
    requires Good(s) && Enabled(s, step) && r == Do(s, step)
    ensures OwnStep(s, step, r)
  {
    hide Do, Good, Enabled, OwnStep;
    if step.DoUsleep? || step.DoPoll? || step.DoCondWait? || step.DoLock? || step.DoJoin? {
      OwnWaiting(s, step, r);
    } else if step.DoExit? || step.DoYield? || step.DoIdle? {
      OwnLeaving(s, step, r);
    } else if step.DoResume? {
      OwnResume(s, step, r);
    } else {
      OwnPlain(s, step, r);
    }
  }
}
