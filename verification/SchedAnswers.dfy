/** What a caller can conclude from the answer of a call that had to wait, and what becomes
    of timeouts, signals and interrupts, over whole runs. */
module SchedAnswers {
  import opened Basics
  import opened HeapModel
  import opened Epoll
  import opened SchedQueues
  import opened SchedModel
  import opened SchedInvariant
  import opened SchedTheorems
  import opened SchedProgress
  import opened SchedJoin
  import opened SchedTimeouts
  import opened SchedGuarantees
  import opened SchedEffects
  import opened SchedChanges

  // ---- the clock ----

  lemma ClockStep(s: State, step: Step, r: Result)
    requires Good(s) && Enabled(s, step) && IsClock(step) && r == Do(s, step)
    ensures r.s.lastClock == NowOf(step) && forall x :: x in multiset(r.s.sleepQ) ==> x.due > NowOf(step)
  {
    hide Do, Good, Enabled, Inv, Dispatched, SleepersStay;
    if step.DoYield? {
      var c, p, m := YieldDoes(s, step.now, r);
    } else {
      var d, moved, mw, kw, c, p, m := IdleDoes(s, step.fired, step.now, r);
    }
  }

  lemma ClockWakesIt(s: State, step: Step, t: nat, h: Thread, k: Thread)
    requires IsClock(step) && Changes(s, step, t, h, k) && h.onSleepQ && !k.onSleepQ && !h.timedOut
    ensures k.state == RUNNABLE && (k.timedOut <==> h.state == COND_WAIT)
  {
    hide IsDue, IsServed, Joins;
  }

  /** A sleep that is due at a look at the clock ends with it, whoever looks. */
  lemma DueEnds(s: State, step: Step, r: Result, x: Sleeper<nat>)
    requires Good(s) && Enabled(s, step) && IsClock(step) && r == Do(s, step) && Good(r.s)
    requires x in multiset(s.sleepQ) && x.due <= NowOf(step)
    ensures x.who in s.threads && x.who in r.s.threads && x.who != s.cur
    ensures Before(r.s, x.who).state == RUNNABLE && !r.s.threads[x.who].onSleepQ
    ensures r.s.threads[x.who].timedOut <==> s.threads[x.who].state == COND_WAIT
  {
    hide Do, Good, Enabled, Changes, Pass;
    var t := x.who;
    SleeperSleeps(s, x);
    SleeperFlag(s, t);
    StepPass(s, step);
    PassKeys(s.threads, r.s.threads, s.cur, true);
    ClockStep(s, step, r);
    if r.s.threads[t].onSleepQ { SleeperKept(s, step, r.s, x); }
    StepChanges(s, step, r, t);
    ClockWakesIt(s, step, t, s.threads[t], Before(r.s, t));
  }

  lemma PassKeys(a: map<nat, Thread>, b: map<nat, Thread>, t: nat, clock: bool)
    requires Pass(a, b, t, clock)
    ensures a.Keys == b.Keys
  {
  }

  lemma SleeperFlag(s: State, t: nat)
    requires Good(s) && t in s.threads && s.threads[t].onSleepQ
    ensures !s.threads[t].timedOut && s.threads[t].state != RUNNABLE && s.threads[t].state != RUNNING && t != s.idle && t != s.cur
  {
    hide RunOk, ZombieOk, IoOk, HeapOk, CondOk, MutexOk, JoinOk, StackOk, CountOk;
    assert Fits(s.threads[t], t == s.idle, t == s.cur);
  }

  /** A thread that sleeps on after a look at the clock has the sleep that it had. */
  lemma SleeperKept(s: State, step: Step, r: State, x: Sleeper<nat>)
    requires Good(s) && Follows(s, step, r) && IsClock(step) && Good(r) && x in multiset(s.sleepQ)
    requires x.who in r.threads && r.threads[x.who].onSleepQ
    ensures x in multiset(r.sleepQ)
  {
    hide Do, Good, Enabled, OnHeap, DistinctWho;
    HeapsOk(s, r);
    HeapHas(s, x.who);
    HeapHas(r, x.who);
    StepSleeps(s, step, r);
    EntryKept(s, r, x);
  }

  lemma EntryKept(s: State, r: State, x: Sleeper<nat>)
    requires SleepsLike(s, r, None) && Ordered(s.sleepQ) && DistinctWho(s.sleepQ) && OnHeap(r.sleepQ, x.who) && x in multiset(s.sleepQ)
    ensures x in multiset(r.sleepQ)
  {
    var i :| 0 <= i < |r.sleepQ| && r.sleepQ[i].who == x.who;
    assert r.sleepQ[i] in multiset(r.sleepQ);
    SameEntry(s.sleepQ, r.sleepQ[i], x);
  }

  lemma ReadyIsQueued(r: State, t: nat)
    requires Good(r) && t in r.threads && Before(r, t).state == RUNNABLE && t != r.idle
    ensures t in r.runQ || t == r.cur
  {
    hide ShapeOk, ZombieOk, IoOk, HeapOk, CondOk, MutexOk, JoinOk, StackOk, CountOk;
  }

  /** In every run, when the idle thread takes a turn or a thread yields, the clock is set,
      and every sleep whose time has come is over: its thread runs or is runnable, and is
      flagged as timed out exactly if it waited for a condition. */
  lemma ClockEndsSleeps(ss: seq<State>, steps: seq<Step>, i: nat)
    requires IsRun(ss, steps) && i < |steps| && IsClock(steps[i])
    ensures var s, r, now := ss[i], ss[i + 1], NowOf(steps[i]);
            && r.lastClock == now && (forall x :: x in multiset(r.sleepQ) ==> x.due > now)
            && forall x :: x in multiset(s.sleepQ) && x.due <= now ==>
                 && x.who in s.threads && x.who in r.threads && (x.who in r.runQ || x.who == r.cur)
                 && (r.threads[x.who].timedOut <==> s.threads[x.who].state == COND_WAIT)
  {
    hide Do, Good;
    RunStep(ss, steps, i);
    var s, step, r := ss[i], steps[i], Do(ss[i], steps[i]);
    ClockStep(s, step, r);
    forall x | x in multiset(s.sleepQ) && x.due <= NowOf(step)
      ensures x.who in s.threads && x.who in r.s.threads && (x.who in r.s.runQ || x.who == r.s.cur)
      ensures r.s.threads[x.who].timedOut <==> s.threads[x.who].state == COND_WAIT
    {
      DueEnds(s, step, r, x);
      SleeperSleeps(s, x);
      SleeperFlag(s, x.who);
      CountsChange(s, step);
      ReadyIsQueued(r.s, x.who);
    }
  }

  // ---- from the wake to the answer ----

  /** t has not run in the states from i up to, but not including, j. */
  ghost predicate Rests(ss: seq<State>, i: int, j: int, t: nat) {
    0 <= i <= j < |ss| && forall k :: i <= k < j ==> ss[k].cur != t
  }

  /** k is h, interrupted meanwhile or not. */
  ghost predicate UpToInterrupt(h: Thread, k: Thread) {
    k.(interrupt := h.interrupt) == h && (h.interrupt ==> k.interrupt)
  }

  lemma Survives(s: State, step: Step, r: State, t: nat)
    requires Good(s) && Follows(s, step, r) && t in s.threads && !s.threads[t].at.Gone?
    ensures t in r.threads
  {
    hide Do, Good, Enabled;
    if step.DoCreate? {
      CreatePass(s, step);
    } else {
      StepPass(s, step);
      PassKeys(s.threads, r.threads, s.cur, IsClock(step));
    }
  }

  lemma ReadyChange(s: State, step: Step, t: nat, h: Thread, k: Thread)
    requires Changes(s, step, t, h, k) && h.state == RUNNABLE && !h.onSleepQ
    ensures k.state == RUNNABLE && UpToInterrupt(h, k)
  {
    hide IsDue, IsServed, Joins;
  }

  /** A thread made runnable stays so, and as it is, until it runs. */
  lemma ReadyStays(s: State, step: Step, r: Result, t: nat)
    requires Good(s) && Enabled(s, step) && r == Do(s, step)
    requires t in s.threads && t != s.cur && s.threads[t].state == RUNNABLE
    ensures t in r.s.threads && Before(r.s, t).state == RUNNABLE && UpToInterrupt(s.threads[t], Before(r.s, t))
  {
    hide Do, Good, Enabled, Changes, UpToInterrupt;
    ReadyPlace(s, t);
    Survives(s, step, r.s, t);
    StepChanges(s, step, r, t);
    ReadyChange(s, step, t, s.threads[t], Before(r.s, t));
  }

  lemma ReadyPlace(s: State, t: nat)
    requires Good(s) && t in s.threads && s.threads[t].state == RUNNABLE
    ensures !s.threads[t].at.Gone? && !s.threads[t].onSleepQ
  {
    hide RunOk, ZombieOk, IoOk, HeapOk, CondOk, MutexOk, JoinOk, StackOk, CountOk;
    assert Fits(s.threads[t], t == s.idle, t == s.cur);
  }

  lemma {:induction false} ReadyLasts(ss: seq<State>, steps: seq<Step>, i: nat, j: nat, t: nat)
    requires IsRun(ss, steps) && i <= j < |ss| && Rests(ss, i, j, t)
    requires t in ss[i].threads && Before(ss[i], t).state == RUNNABLE
    ensures t in ss[j].threads && Before(ss[j], t).state == RUNNABLE && UpToInterrupt(Before(ss[i], t), Before(ss[j], t))
    decreases j - i
  {
    hide Do, Good, Follows;
    if i < j {
      ReadyLasts(ss, steps, i, j - 1, t);
      RunStep(ss, steps, j - 1);
      Followed(ss[j - 1], steps[j - 1], ss[j]);
      ReadyStays(ss[j - 1], steps[j - 1], Do(ss[j - 1], steps[j - 1]), t);
    }
  }

  lemma Followed(s: State, step: Step, r: State)
    requires Follows(s, step, r)
    ensures Enabled(s, step) && r == Do(s, step).s
  {
  }

  /** A thread that is where it waits but does not wait any more runs, or is to run. */
  lemma WokenState(s: State, t: nat)
    requires Good(s) && t in s.threads && IsWait(s.threads[t].at)
    ensures if WaitState(s.threads[t].at, s.threads[t].state) then t != s.cur && s.threads[t].state != RUNNABLE
            else Before(s, t).state == RUNNABLE
  {
    hide RunOk, ZombieOk, IoOk, HeapOk, CondOk, MutexOk, JoinOk, StackOk, CountOk;
    assert Fits(s.threads[t], t == s.idle, t == s.cur);
  }

  /** What a step that leaves t awake at a place of waiting has done: woken it, or left it
      awake, while others ran. */
  lemma WokenStep(s: State, step: Step, r: Result, t: nat) returns (why: Cause)
    requires Good(s) && Enabled(s, step) && r == Do(s, step) && Good(r.s)
    requires t in r.s.threads && IsWait(r.s.threads[t].at) && !WaitState(r.s.threads[t].at, r.s.threads[t].state)
    ensures t in s.threads && t != s.cur && IsWait(s.threads[t].at)
    ensures if WaitState(s.threads[t].at, s.threads[t].state) then Wakes(s, step, t, s.threads[t], Before(r.s, t), why)
            else s.threads[t].state == RUNNABLE && UpToInterrupt(s.threads[t], Before(r.s, t))
  {
    hide Do, Good, Enabled, IsDue, IsServed;
    why := Late;
    if t !in s.threads {
      NotNewborn(s, step, r, t);
      assert false;
    }
    StepOwn(s, step, r);
    StepChanges(s, step, r, t);
    WokenState(r.s, t);
    var h, k := s.threads[t], Before(r.s, t);
    if k != h {
      why :| Wakes(s, step, t, h, k, why);
      WakesWaiter(s, step, t, h, k, why);
    } else {
      WokenState(s, t);
    }
    if IsWait(h.at) { WokenState(s, t); }
  }

  lemma NotNewborn(s: State, step: Step, r: Result, t: nat)
    requires Good(s) && Enabled(s, step) && r == Do(s, step) && t in r.s.threads && t !in s.threads
    ensures r.s.threads[t].at.Start? || r.s.threads[t].at.Gone?
  {
    hide Do, Good;
    if step.DoCreate? {
      var u := CreateDoes(s, step.joinable, step.stackOk, step.condOk, r);
    } else {
      StepPass(s, step);
      PassKeys(s.threads, r.s.threads, s.cur, IsClock(step));
    }
  }

  lemma WaiterFits(s: State, t: nat)
    requires Good(s) && t in s.threads && t != s.cur
    ensures var h := s.threads[t];
            && (h.state == IO_WAIT ==> h.at == InPoll(None)) && (h.state == ZOMBIE ==> h.at.InExit?)
            && (IsWait(h.at) && !WaitState(h.at, h.state) ==> h.state == RUNNABLE) && (h.state == RUNNABLE ==> !h.onSleepQ)
            && (h.state == RUNNING ==> h.at.Gone?)
  {
    hide RunOk, ZombieOk, IoOk, HeapOk, CondOk, MutexOk, JoinOk, StackOk, CountOk;
    assert Fits(s.threads[t], t == s.idle, t == s.cur);
  }

  /** A thread that is at a place of waiting after a wake was there before. */
  lemma WakesWaiter(s: State, step: Step, t: nat, h: Thread, k: Thread, why: Cause)
    requires Good(s) && t in s.threads && t != s.cur && h == s.threads[t] && Wakes(s, step, t, h, k, why) && IsWait(k.at)
    ensures IsWait(h.at)
    ensures !WaitState(h.at, h.state) ==> h.state == RUNNABLE && UpToInterrupt(h, k)
  {
    hide RunOk, ZombieOk, IoOk, HeapOk, CondOk, MutexOk, JoinOk, StackOk, CountOk, IsDue, IsServed, Joins, Fits;
    WaiterFits(s, t);
  }

  lemma RestsMore(ss: seq<State>, j: nat, i: nat, t: nat)
    requires j <= i && i + 1 < |ss| && (j < i ==> Rests(ss, j, i, t)) && ss[i].cur != t
    ensures Rests(ss, j, i + 1, t)
  {
  }

  lemma Itself(h: Thread)
    ensures UpToInterrupt(h, h)
  {
  }

  lemma UpToThen(a: Thread, b: Thread, c: Thread)
    requires UpToInterrupt(a, b) && UpToInterrupt(b, c)
    ensures UpToInterrupt(a, c)
  {
  }

  /** In every run: a thread that is awake where it waited was woken, in step j, for one of
      the causes, has not run since, and is but for interrupts as that step left it. */
  lemma {:induction false} EveryWakeHasACause(ss: seq<State>, steps: seq<Step>, i: nat, t: nat) returns (j: nat, why: Cause)
    requires IsRun(ss, steps) && i < |ss| && t in ss[i].threads
    requires IsWait(ss[i].threads[t].at) && !WaitState(ss[i].threads[t].at, ss[i].threads[t].state)
    ensures j < i && Rests(ss, j, i, t) && t in ss[j].threads && t in ss[j + 1].threads
    ensures WaitState(ss[j].threads[t].at, ss[j].threads[t].state)
    ensures Wakes(ss[j], steps[j], t, ss[j].threads[t], Before(ss[j + 1], t), why)
    ensures UpToInterrupt(Before(ss[j + 1], t), Before(ss[i], t))
  {
    hide Do, Good, Follows, Wakes, WaitState, Rests, UpToInterrupt;
    j, why := 0, Late;
    if i == 0 {
      RunStart(ss, steps);
    } else {
      RunStep(ss, steps, i - 1);
      Followed(ss[i - 1], steps[i - 1], ss[i]);
      why := WokenStep(ss[i - 1], steps[i - 1], Do(ss[i - 1], steps[i - 1]), t);
      j := i - 1;
      RestsMore(ss, i - 1, i - 1, t);
      Itself(Before(ss[i], t));
      if !WaitState(ss[i - 1].threads[t].at, ss[i - 1].threads[t].state) {
        j, why := EveryWakeHasACause(ss, steps, i - 1, t);
        RestsMore(ss, j, i - 1, t);
        UpToThen(Before(ss[j + 1], t), ss[i - 1].threads[t], Before(ss[i], t));
      }
    }
  }

  // ---- timed waits for a condition ----

  /** In step j a signal has woken t from its wait for c, and t has not run up to state i. */
  ghost predicate SignalledAt(ss: seq<State>, steps: seq<Step>, j: nat, i: nat, t: nat, c: CondId) {
    && j < i && i <= |steps| && Rests(ss, j, i, t) && steps[j].DoSignal? && steps[j].c == c
    && t in ss[j].threads && ss[j].threads[t].state == COND_WAIT && ss[j].threads[t].at == InCond(c)
    && t in ss[j + 1].threads && ss[j + 1].threads[t].state == RUNNABLE
  }

  /** In step j the clock has found the wait of t for c too long, and t has not run up to
      state i. */
  ghost predicate LateAt(ss: seq<State>, steps: seq<Step>, j: nat, i: nat, t: nat, c: CondId) {
    j < i && i <= |steps| && Rests(ss, j, i, t) && TimesOut(ss[j], steps[j], t, c)
  }

  lemma CondWaiterFlag(s: State, t: nat)
    requires Good(s) && t in s.threads && s.threads[t].state == COND_WAIT
    ensures !s.threads[t].timedOut && t != s.cur && s.threads[t].at.InCond?
  {
    hide RunOk, ZombieOk, IoOk, HeapOk, CondOk, MutexOk, JoinOk, StackOk, CountOk;
    assert Fits(s.threads[t], t == s.idle, t == s.cur);
  }

  /** A wait found late has the flag when its thread runs again. */
  lemma LateKeepsFlag(ss: seq<State>, steps: seq<Step>, j: nat, i: nat, t: nat, c: CondId)
    requires IsRun(ss, steps) && LateAt(ss, steps, j, i, t, c)
    ensures t in ss[i].threads && Before(ss[i], t).timedOut
  {
    hide Do, Good, Follows, IsRun;
    RunStep(ss, steps, j);
    Followed(ss[j], steps[j], ss[j + 1]);
    var x :| x in multiset(ss[j].sleepQ) && x.who == t && x.due <= NowOf(steps[j]);
    DueEnds(ss[j], steps[j], Do(ss[j], steps[j]), x);
    ReadyLasts(ss, steps, j + 1, i, t);
  }

  /** A wait that was signalled has no flag when its thread runs again. */
  lemma SignalKeepsFlag(ss: seq<State>, steps: seq<Step>, j: nat, i: nat, t: nat, c: CondId)
    requires IsRun(ss, steps) && SignalledAt(ss, steps, j, i, t, c)
    ensures t in ss[i].threads && !Before(ss[i], t).timedOut
  {
    hide Do, Good, Follows, IsRun;
    RunStep(ss, steps, j);
    Followed(ss[j], steps[j], ss[j + 1]);
    CondWaiterFlag(ss[j], t);
    StepChanges(ss[j], steps[j], Do(ss[j], steps[j]), t);
    SignalSetsNoFlag(ss[j], steps[j], t, ss[j].threads[t], Before(ss[j + 1], t));
    ReadyLasts(ss, steps, j + 1, i, t);
  }

  lemma SignalSetsNoFlag(s: State, step: Step, t: nat, h: Thread, k: Thread)
    requires step.DoSignal? && Changes(s, step, t, h, k)
    ensures k.timedOut == h.timedOut
  {
    hide IsDue, IsServed, Joins;
  }

  /** What has woken a thread that waited for a condition of the user, and has no interrupt. */
  lemma CondCause(ss: seq<State>, steps: seq<Step>, i: nat, t: nat, c: CondId) returns (j: nat)
    requires IsRun(ss, steps) && i < |ss| && t in ss[i].threads && t == ss[i].cur && ss[i].threads[t].at == InCond(c) && c.User?
    requires !ss[i].threads[t].interrupt
    ensures if ss[i].threads[t].timedOut then LateAt(ss, steps, j, i, t, c) else SignalledAt(ss, steps, j, i, t, c)
  {
    hide Do, Good, Follows, Wakes;
    RunsAreGood(ss, steps, i);
    WokenState(ss[i], t);
    var why;
    j, why := EveryWakeHasACause(ss, steps, i, t);
    RunStep(ss, steps, j);
    WakeOfCond(ss[j], steps[j], t, ss[j].threads[t], Before(ss[j + 1], t), why, c);
    CondWaiterFlag(ss[j], t);
    if !ss[i].threads[t].timedOut {
      Followed(ss[j], steps[j], ss[j + 1]);
      SignalReturns(ss[j], steps[j], Do(ss[j], steps[j]));
    }
  }

  lemma SignalReturns(s: State, step: Step, r: Result)
    requires Good(s) && Enabled(s, step) && step.DoSignal? && r == Do(s, step)
    ensures r.s.cur == s.cur
  {
    hide Do, Good, SleepersStay, InOrder;
    var ts, which := SignalDoes(s, step.c, step.broadcast, r);
  }

  lemma WakeOfCond(s: State, step: Step, t: nat, h: Thread, k: Thread, why: Cause, c: CondId)
    requires Wakes(s, step, t, h, k, why) && WaitState(h.at, h.state) && k.at == InCond(c) && c.User? && !k.interrupt
    ensures h.at == InCond(c) && h.state == COND_WAIT && k.state == RUNNABLE
    ensures (IsClock(step) && IsDue(s, NowOf(step), t) && k.timedOut) || (step.DoSignal? && step.c == c && k.timedOut == h.timedOut)
  {
    hide IsDue, Joins;
  }

  /** `st_cond_timedwait`, in every run: the answer is EINTR exactly if the thread has been
      interrupted; otherwise ETIME exactly if the clock found the wait late, and 0 exactly if
      a signal ended it. */
  lemma CondAnswers(ss: seq<State>, steps: seq<Step>, i: nat, c: CondId)
    requires IsRun(ss, steps) && i < |steps| && steps[i] == DoResume && Me(ss[i]).at == InCond(c) && c.User?
    ensures Enabled(ss[i], steps[i])
    ensures var t, h, ret := ss[i].cur, Me(ss[i]), Do(ss[i], steps[i]).ret;
            && (ret == Some(Fail(EINTR)) <==> h.interrupt)
            && (!h.interrupt ==> (ret == Some(Fail(ETIME)) <==> exists j :: LateAt(ss, steps, j, i, t, c)))
            && (!h.interrupt ==> (ret == Some(Zero) <==> exists j :: SignalledAt(ss, steps, j, i, t, c)))
            && (!h.interrupt ==> ret == Some(Fail(ETIME)) || ret == Some(Zero))
  {
    hide Do, Good, LateAt, SignalledAt, Enabled;
    var t, h := ss[i].cur, Me(ss[i]);
    RunStep(ss, steps, i);
    Followed(ss[i], steps[i], ss[i + 1]);
    CondDoneDoes(ss[i], c, Do(ss[i], steps[i]));
    ResumedPlace(ss[i], steps[i]);
    if !h.interrupt { var j := CondCause(ss, steps, i, t, c); }
    if j :| LateAt(ss, steps, j, i, t, c) { LateKeepsFlag(ss, steps, j, i, t, c); }
    if j :| SignalledAt(ss, steps, j, i, t, c) { SignalKeepsFlag(ss, steps, j, i, t, c); }
  }

  // ---- interrupts ----

  /** An interrupt is taken down only by a call of the thread that answers EINTR. */
  lemma InterruptKept(s: State, step: Step, r: Result, t: nat)
    requires Good(s) && Enabled(s, step) && r == Do(s, step) && t in s.threads && s.threads[t].interrupt && t in r.s.threads
    ensures r.s.threads[t].interrupt || (t == s.cur && r.ret == Some(Fail(EINTR)))
  {
    hide Do, Good, Enabled, Changes, OwnStep;
    if t == s.cur {
      StepOwn(s, step, r);
      OwnInterrupt(s, step, r);
    } else {
      StepChanges(s, step, r, t);
      ChangesKeepInterrupt(s, step, t, s.threads[t], Before(r.s, t));
    }
  }

  lemma OwnInterrupt(s: State, step: Step, r: Result)
    requires OwnStep(s, step, r) && s.threads[s.cur].interrupt
    ensures r.s.threads[s.cur].interrupt || r.ret == Some(Fail(EINTR))
  {
  }

  lemma ChangesKeepInterrupt(s: State, step: Step, t: nat, h: Thread, k: Thread)
    requires Changes(s, step, t, h, k) && h.interrupt
    ensures k.interrupt
  {
    hide IsDue, IsServed, Joins;
  }

  /** No call of t has answered EINTR in the steps from i up to, but not including, j. */
  ghost predicate NoEintr(ss: seq<State>, steps: seq<Step>, i: nat, j: nat, t: nat) {
    && i <= j <= |steps| && |ss| == |steps| + 1
    && forall k :: i <= k < j && ss[k].cur == t ==> Enabled(ss[k], steps[k]) && Do(ss[k], steps[k]).ret != Some(Fail(EINTR))
  }

  /** A thread that has gone does not come back. */
  lemma GoneForGood(s: State, step: Step, r: State, t: nat)
    requires Good(s) && Follows(s, step, r) && t < s.nextId && t !in s.threads
    ensures t !in r.threads && t < r.nextId
  {
    hide Do, Good;
    CountsChange(s, step);
    if step.DoCreate? {
      var u := CreateDoes(s, step.joinable, step.stackOk, step.condOk, Do(s, step));
    } else {
      StepPass(s, step);
      PassKeys(s.threads, r.threads, s.cur, IsClock(step));
    }
  }

  lemma KnownNumber(s: State, t: nat)
    requires Good(s) && t in s.threads
    ensures t < s.nextId
  {
    hide RunOk, ZombieOk, IoOk, HeapOk, CondOk, MutexOk, JoinOk, StackOk, CountOk;
  }

  /** An interrupted thread stays interrupted until a call of it answers EINTR. */
  lemma {:induction false} InterruptLasts(ss: seq<State>, steps: seq<Step>, i: nat, j: nat, t: nat)
    requires IsRun(ss, steps) && i <= j < |ss| && t in ss[i].threads && ss[i].threads[t].interrupt && NoEintr(ss, steps, i, j, t)
    ensures t < ss[j].nextId && (t in ss[j].threads ==> ss[j].threads[t].interrupt)
    decreases j - i
  {
    hide Do, Good, Follows, Enabled;
    if i == j {
      RunsAreGood(ss, steps, i);
      KnownNumber(ss[i], t);
    } else {
      InterruptLasts(ss, steps, i, j - 1, t);
      RunStep(ss, steps, j - 1);
      Followed(ss[j - 1], steps[j - 1], ss[j]);
      if t in ss[j - 1].threads {
        CountsChange(ss[j - 1], steps[j - 1]);
        if t in ss[j].threads { InterruptKept(ss[j - 1], steps[j - 1], Do(ss[j - 1], steps[j - 1]), t); }
      } else {
        GoneForGood(ss[j - 1], steps[j - 1], ss[j], t);
      }
    }
  }

  predicate CanWait(step: Step) {
    step.DoUsleep? || step.DoPoll? || step.DoCondWait? || step.DoLock?
  }

  /** A call that can wait does not: with an interrupt pending it answers EINTR at once, and
      takes the interrupt down. */
  lemma InterruptedCall(s: State, step: Step, r: Result)
    requires Good(s) && Enabled(s, step) && r == Do(s, step) && CanWait(step) && Me(s).interrupt
    ensures Ends(s, r, Fail(EINTR), Me(s).(interrupt := false))
  {
    hide Do, Good, Enabled, SwitchesTo;
    match step {
      case DoUsleep(timeout) => var m := UsleepDoes(s, timeout, r);
      case DoPoll(pds, timeout, added) => var m := PollDoes(s, pds, timeout, added, r);
      case DoCondWait(c, timeout) => CondTarget(s, c, timeout); var m := CondWaitDoes(s, c, timeout, r);
      case DoLock(k) => LockTarget(s, k); var m := LockDoes(s, k, r);
    }
  }

  lemma CondTarget(s: State, c: CondId, timeout: Option<int>)
    requires Enabled(s, DoCondWait(c, timeout))
    ensures c in s.conds
  {
  }

  /** In every run: after an interrupt the target's first call that can wait, or the wait it
      is in, answers EINTR. */
  lemma InterruptReaches(ss: seq<State>, steps: seq<Step>, i: nat, j: nat, t: nat)
    requires IsRun(ss, steps) && i < j < |steps| && steps[i] == DoInterrupt(t) && t in ss[i].threads && ss[i].threads[t].state != ZOMBIE
    requires NoEintr(ss, steps, i + 1, j, t) && ss[j].cur == t && CanWait(steps[j])
    ensures Enabled(ss[j], steps[j]) && Do(ss[j], steps[j]).ret == Some(Fail(EINTR))
    ensures t in ss[j + 1].threads && !ss[j + 1].threads[t].interrupt
  {
    hide Do, Good, Follows, IsRun, Enabled;
    RunStep(ss, steps, i);
    Followed(ss[i], steps[i], ss[i + 1]);
    InterruptDoes(ss[i], t, Do(ss[i], steps[i]));
    InterruptLasts(ss, steps, i + 1, j, t);
    RunStep(ss, steps, j);
    Followed(ss[j], steps[j], ss[j + 1]);
    CallerIsThere(ss[j]);
    InterruptedCall(ss[j], steps[j], Do(ss[j], steps[j]));
  }

  lemma CallerIsThere(s: State)
    requires Good(s)
    ensures s.cur in s.threads
  {
  }

  // ---- sleeps ----

  lemma WakeOfSleeper(s: State, step: Step, t: nat, h: Thread, k: Thread, why: Cause)
    requires Wakes(s, step, t, h, k, why) && WaitState(h.at, h.state) && k.at.InSleep? && !k.interrupt
    ensures h.at == InSleep && IsClock(step) && IsDue(s, NowOf(step), t)
  {
    hide IsDue, Joins;
  }

  /** Between k and j the sleep that t asked for in step k has become due, and t has not
      run again before state i. */
  ghost predicate SleptFrom(ss: seq<State>, steps: seq<Step>, k: nat, j: nat, i: nat, t: nat, d: int) {
    && k < j < i && i <= |steps| && |ss| == |steps| + 1 && ss[k].cur == t && IsClock(steps[j])
    && ss[k].lastClock + d <= NowOf(steps[j]) && forall m :: k < m < i ==> ss[m].cur != t
  }

  lemma SleepFound(ss: seq<State>, steps: seq<Step>, j: nat, i: nat, t: nat) returns (k: nat, x: Sleeper<nat>)
    requires IsRun(ss, steps) && j < i <= |steps| && Rests(ss, j, i, t) && t in ss[j].threads
    requires IsClock(steps[j]) && IsDue(ss[j], NowOf(steps[j]), t)
    ensures k < j && SchedTimeouts.Asks(ss[k], steps[k], x, ss[j].threads[t].at) && x.who == t
    ensures SleptFrom(ss, steps, k, j, i, t, x.due - ss[k].lastClock)
  {
    hide Do, Good, Follows;
    x :| x in multiset(ss[j].sleepQ) && x.who == t && x.due <= NowOf(steps[j]);
    SleeperOrigin(ss, steps, j, x);
    k :| 0 <= k < j && SchedTimeouts.Asks(ss[k], steps[k], x, ss[j].threads[t].at) && forall m :: k < m <= j ==> ss[m].cur != t;
  }

  /** `st_usleep`, in every run: the answer is EINTR exactly if the thread has been
      interrupted; otherwise it is 0, and the time asked for has passed. */
  lemma SleepAnswers(ss: seq<State>, steps: seq<Step>, i: nat)
    requires IsRun(ss, steps) && i < |steps| && steps[i] == DoResume && Me(ss[i]).at == InSleep
    ensures Enabled(ss[i], steps[i])
    ensures var t, h, ret := ss[i].cur, Me(ss[i]), Do(ss[i], steps[i]).ret;
            && ret == Some(if h.interrupt then Fail(EINTR) else Zero)
            && (!h.interrupt ==> exists k: nat, j: nat, d: int :: SleptFrom(ss, steps, k, j, i, t, d) && steps[k] == DoUsleep(Some(d)))
  {
    hide Do, Good, Enabled, Wakes, SleptFrom;
    var t, h := ss[i].cur, Me(ss[i]);
    RunStep(ss, steps, i);
    Followed(ss[i], steps[i], ss[i + 1]);
    SleepDoneDoes(ss[i], Do(ss[i], steps[i]));
    ResumedPlace(ss[i], steps[i]);
    if !h.interrupt {
      WokenState(ss[i], t);
      var j, why := EveryWakeHasACause(ss, steps, i, t);
      WakeOfSleeper(ss[j], steps[j], t, ss[j].threads[t], Before(ss[j + 1], t), why);
      var k, x := SleepFound(ss, steps, j, i, t);
      assert steps[k] == DoUsleep(Some(x.due - ss[k].lastClock));
    }
  }

  // ---- polls ----

  /** The same descriptors and events are asked for. */
  ghost predicate SameAsk(a: seq<PollFd>, b: seq<PollFd>) {
    |a| == |b| && forall k :: 0 <= k < |a| ==> a[k].fd == b[k].fd && a[k].events == b[k].events
  }

  /** A request of r was queued in s, or is that of this step. */
  ghost predicate WasAsked(s: State, step: Step, p: Pollq) {
    || (step.DoPoll? && p == Pollq(s.cur, step.pds))
    || exists q :: q in s.ioQ && q.thread == p.thread && SameAsk(q.pds, p.pds)
  }

  /** Only polls, their ends and the idle thread touch the I/O queue. */
  lemma QueueStays(s: State, step: Step, r: Result)
    requires Good(s) && Enabled(s, step) && r == Do(s, step) && !step.DoPoll? && !step.DoResume? && !step.DoIdle?
    ensures r.s.ioQ == s.ioQ
  {
    hide Do, Good, SwitchesTo, Clocked, SleepersStay, InOrder;
    if step.DoUsleep? {
      var m := UsleepDoes(s, step.timeout, r);
      if r.ret == None { SwitchQueue(m, r.s); }
    } else if step.DoCondWait? {
      var m := CondWaitDoes(s, step.c, step.timeout, r);
      if r.ret == None { SwitchQueue(m, r.s); }
    } else if step.DoLock? {
      var m := LockDoes(s, step.m, r);
      if r.ret == None { SwitchQueue(m, r.s); }
    } else if step.DoJoin? {
      JoinTarget(s, step.u);
      var m := JoinDoes(s, step.u, r);
      if r.ret == None { SwitchQueue(m, r.s); }
    } else if step.DoExit? {
      var z, m := ExitDoes(s, step.retval, r);
      SwitchQueue(m, r.s);
    } else if step.DoYield? {
      var c, p, m := YieldDoes(s, step.now, r);
      ClockedQueue(s, step.now, c, p);
      if c.runQ != [] { SwitchQueue(m, r.s); }
    } else {
      PlainQueue(s, step, r);
    }
  }

  lemma SwitchQueue(m: State, r: State)
    requires SwitchesTo(m, r)
    ensures r.ioQ == m.ioQ
  {
  }

  lemma ClockedQueue(s: State, now: int, c: State, p: Image<nat>)
    requires Clocked(s, now, c, p)
    ensures c.ioQ == s.ioQ
  {
  }

  lemma PlainQueue(s: State, step: Step, r: Result)
    requires Good(s) && Enabled(s, step) && r == Do(s, step)
    requires step.DoUnlock? || step.DoSignal? || step.DoCreate? || step.DoInterrupt? || step.DoCondNew? || step.DoMutexNew?
             || step.DoCondDestroy? || step.DoMutexDestroy? || step.DoTrylock?
    ensures r.s.ioQ == s.ioQ
  {
    hide Do, Good, SleepersStay, InOrder;
    match step {
      case DoUnlock(k) => UnlockDoes(s, k, r);
      case DoSignal(c, broadcast) => var ts, which := SignalDoes(s, c, broadcast, r);
      case DoCreate(joinable, stackOk, condOk) => var m := CreateDoes(s, joinable, stackOk, condOk, r);
      case DoInterrupt(t) => InterruptDoes(s, t, r);
      case DoTrylock(k) => TrylockDoes(s, k, r);
      case _ => ObjectsDo(s, step, r);
    }
  }

  lemma ResumeQueue(s: State, r: Result)
    requires Good(s) && Enabled(s, DoResume) && r == Do(s, DoResume)
    ensures forall p :: p in r.s.ioQ ==> p in s.ioQ
  {
    hide Do, Good, Enabled, SwitchesTo;
    ResumedPlace(s, DoResume);
    var at := Me(s).at;
    if at.InPoll? {
      PollDoneDoes(s, r);
    } else if at.InCond? && at.c.User? {
      CondDoneDoes(s, at.c, r);
    } else if at.InCond? {
      JoinDoneDoes(s, at.c.t, r);
    } else if at.InLock? {
      LockDoneDoes(s, at.m, r);
    } else if at.InExit? {
      var m := ExitDoneDoes(s, r);
      SwitchQueue(m, r.s);
    } else {
      SleepDoneDoes(s, r);
    }
  }

  lemma IdleQueue(s: State, step: Step, r: Result, p: Pollq)
    requires Good(s) && Enabled(s, step) && step.DoIdle? && r == Do(s, step) && p in r.s.ioQ
    ensures WasAsked(s, step, p)
  {
    hide Do, Good, Inv, SwitchesTo, Clocked, Dispatched, SleepersStay, SameAsk;
    var d, moved, mw, kw, c, q, m := IdleDoes(s, step.fired, step.now, r);
    ClockedQueue(d, step.now, c, q);
    SwitchQueue(m, r.s);
    DispatchedQueue(s, step.fired, d, moved, mw, kw, p);
  }

  lemma DispatchedQueue(s: State, fired: Fired, d: State, moved: seq<Pollq>, mw: seq<nat>, kw: seq<nat>, p: Pollq)
    requires Dispatched(s, fired, d, moved, mw, kw) && p in d.ioQ
    ensures exists q :: q in s.ioQ && q.thread == p.thread && SameAsk(q.pds, p.pds)
  {
    hide Revents, HasEvents;
    var i :| 0 <= i < |d.ioQ| && d.ioQ[i] == p;
    if fired == [] {
      assert SameAsk(p.pds, p.pds);
    } else {
      ServedAsks(s.ioQ[kw[i]], Revents(s, fired));
      assert s.ioQ[kw[i]] in s.ioQ;
    }
  }

  lemma ServedAsks(p: Pollq, rev: int -> set<Ev>)
    ensures Served(p, rev).thread == p.thread && SameAsk(p.pds, Served(p, rev).pds)
  {
    hide Report;
    forall k | 0 <= k < |p.pds|
      ensures Served(p, rev).pds[k].fd == p.pds[k].fd && Served(p, rev).pds[k].events == p.pds[k].events
    {
      ReportHas(p.pds[k], rev(p.pds[k].fd), In);
    }
  }

  lemma StepRequests(s: State, step: Step, r: Result, p: Pollq)
    requires Good(s) && Enabled(s, step) && r == Do(s, step) && p in r.s.ioQ
    ensures WasAsked(s, step, p)
  {
    hide Do, Good, Enabled, SwitchesTo;
    assert SameAsk(p.pds, p.pds);
    if step.DoIdle? {
      IdleQueue(s, step, r, p);
    } else if step.DoResume? {
      ResumeQueue(s, r);
    } else if step.DoPoll? {
      var m := PollDoes(s, step.pds, step.timeout, step.added, r);
      if r.ret == None { SwitchQueue(m, r.s); }
    } else {
      QueueStays(s, step, r);
    }
  }

  /** A queued request is one that its thread has made. */
  lemma {:induction false} RequestOrigin(ss: seq<State>, steps: seq<Step>, i: nat, p: Pollq) returns (k: nat)
    requires IsRun(ss, steps) && i < |ss| && p in ss[i].ioQ
    ensures k < i && ss[k].cur == p.thread && steps[k].DoPoll? && SameAsk(steps[k].pds, p.pds)
  {
    hide Do, Good, Follows, SameAsk;
    k := 0;
    if i == 0 {
      RunStart(ss, steps);
    } else {
      RunStep(ss, steps, i - 1);
      Followed(ss[i - 1], steps[i - 1], ss[i]);
      StepRequests(ss[i - 1], steps[i - 1], Do(ss[i - 1], steps[i - 1]), p);
      if steps[i - 1].DoPoll? && p == Pollq(ss[i - 1].cur, steps[i - 1].pds) {
        k := i - 1;
        SameAsks(p.pds);
      } else {
        var q :| q in ss[i - 1].ioQ && q.thread == p.thread && SameAsk(q.pds, p.pds);
        k := RequestOrigin(ss, steps, i - 1, q);
        SameAskThen(steps[k].pds, q.pds, p.pds);
      }
    }
  }

  lemma SameAsks(a: seq<PollFd>)
    ensures SameAsk(a, a)
  {
  }

  lemma SameAskThen(a: seq<PollFd>, b: seq<PollFd>, c: seq<PollFd>)
    requires SameAsk(a, b) && SameAsk(b, c)
    ensures SameAsk(a, c)
  {
  }

  /** In step j the idle thread was told of `fired`, and found events for the request that t
      made in step k; `ready` holds what it asked for with the events that it is due. */
  ghost predicate ServedFrom(ss: seq<State>, steps: seq<Step>, k: nat, j: nat, i: nat, t: nat, ready: seq<PollFd>) {
    && k < j < i && i <= |steps| && Rests(ss, j, i, t) && ss[k].cur == t && steps[k].DoPoll? && SameAsk(steps[k].pds, ready)
    && steps[j].DoIdle? && (exists n :: 0 <= n < |ready| && ready[n].revents != {})
    && forall n, e :: 0 <= n < |ready| ==> (e in ready[n].revents <==> IsDueEvent(ss[j], steps[j].fired, ready[n], e))
  }

  /** The event is an error or was asked for, and it fired; an error stands for all that
      anybody asks for there. */
  ghost predicate IsDueEvent(s: State, fired: Fired, pd: PollFd, e: Ev) {
    && (e == Err || e == Hup || (e in pd.events && e in {In, Out, Pri}))
    && exists i :: 0 <= i < |fired| && fired[i].0 == pd.fd && (e in fired[i].1 || (Asked(s, pd.fd, e) && (Err in fired[i].1 || Hup in fired[i].1)))
  }

  lemma ServedIsDue(s: State, fired: Fired, p: Pollq, n: nat, e: Ev)
    requires Distinct(fired) && n < |p.pds|
    ensures var pds := Served(p, Revents(s, fired)).pds;
            n < |pds| && (e in pds[n].revents <==> IsDueEvent(s, fired, pds[n], e))
  {
    ServedExactly(s, fired, p, n, e);
  }

  lemma WakeOfPoller(s: State, step: Step, t: nat, h: Thread, k: Thread, why: Cause)
    requires Wakes(s, step, t, h, k, why) && WaitState(h.at, h.state) && k.at.InPoll?
    ensures h.at == InPoll(None) && h.state == IO_WAIT
    ensures k.at.ready.Some? ==> step.DoIdle? && IsServed(s, step.fired, t, k.at)
    ensures k.at.ready.None? && !k.interrupt ==> IsClock(step) && IsDue(s, NowOf(step), t)
  {
    hide IsDue, Joins;
  }

  /** The request that was served, and where it comes from. */
  lemma ServiceFound(ss: seq<State>, steps: seq<Step>, j: nat, i: nat, t: nat, ready: seq<PollFd>) returns (k: nat)
    requires IsRun(ss, steps) && j < i <= |steps| && Rests(ss, j, i, t) && steps[j].DoIdle?
    requires IsServed(ss[j], steps[j].fired, t, InPoll(Some(ready)))
    ensures ServedFrom(ss, steps, k, j, i, t, ready)
  {
    hide Do, Good, SameAsk, Served, IsDueEvent, HasEvents, Revents;
    RunStep(ss, steps, j);
    var s, fired := ss[j], steps[j].fired;
    var n :| 0 <= n < |s.ioQ| && s.ioQ[n].thread == t && HasEvents(Served(s.ioQ[n], Revents(s, fired)))
             && InPoll(Some(ready)) == InPoll(Some(Served(s.ioQ[n], Revents(s, fired)).pds));
    k := RequestOrigin(ss, steps, j, s.ioQ[n]);
    ServedAsks(s.ioQ[n], Revents(s, fired));
    SameAskThen(steps[k].pds, s.ioQ[n].pds, ready);
    ServedLength(s.ioQ[n], Revents(s, fired));
    EventFound(Served(s.ioQ[n], Revents(s, fired)));
    forall m, e | 0 <= m < |ready|
      ensures e in ready[m].revents <==> IsDueEvent(s, fired, ready[m], e)
    {
      ServedIsDue(s, fired, s.ioQ[n], m, e);
    }
  }

  lemma EventFound(p: Pollq)
    ensures HasEvents(p) <==> exists n :: 0 <= n < |p.pds| && p.pds[n].revents != {}
  {
  }

  lemma ServedLength(p: Pollq, rev: int -> set<Ev>)
    ensures |Served(p, rev).pds| == |p.pds|
  {
  }

  /** `st_poll`, in every run: the answer is EINTR exactly if the thread has been
      interrupted; otherwise it is the number of descriptors with events.  If there are
      none, the time that was asked for has passed; if there are, the entries are those
      asked for, with exactly the events that a turn of the idle thread was told of. */
  lemma PollAnswers(ss: seq<State>, steps: seq<Step>, i: nat)
    requires IsRun(ss, steps) && i < |steps| && steps[i] == DoResume && Me(ss[i]).at.InPoll?
    ensures Enabled(ss[i], steps[i])
    ensures var t, h, ready, ret := ss[i].cur, Me(ss[i]), Me(ss[i]).at.ready, Do(ss[i], steps[i]).ret;
            && (ret == Some(Fail(EINTR)) <==> h.interrupt)
            && (!h.interrupt && ready == None ==>
                  ret == Some(Fds(0)) && exists k: nat, j: nat, d: int :: SleptFrom(ss, steps, k, j, i, t, d) && steps[k].DoPoll? && steps[k].timeout == Some(d))
            && (ready.Some? ==> exists k, j :: ServedFrom(ss, steps, k, j, i, t, ready.value))
            && (!h.interrupt && ready.Some? ==> ret == Some(Fds(|set k | 0 <= k < |ready.value| && ready.value[k].revents != {}|)))
  {
    hide Do, Good, Enabled, Wakes, SleptFrom, ServedFrom, IsServed;
    var t, h := ss[i].cur, Me(ss[i]);
    RunStep(ss, steps, i);
    Followed(ss[i], steps[i], ss[i + 1]);
    PollDoneDoes(ss[i], Do(ss[i], steps[i]));
    ResumedPlace(ss[i], steps[i]);
    WokenState(ss[i], t);
    var j, why := EveryWakeHasACause(ss, steps, i, t);
    WakeOfPoller(ss[j], steps[j], t, ss[j].threads[t], Before(ss[j + 1], t), why);
    if h.at.ready.Some? {
      var k := ServiceFound(ss, steps, j, i, t, h.at.ready.value);
    } else if !h.interrupt {
      var k, x := SleepFound(ss, steps, j, i, t);
      assert steps[k].timeout == Some(x.due - ss[k].lastClock);
    }
  }
}
