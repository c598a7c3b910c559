/** What a join returns, over whole runs. */
module SchedJoin {
  import opened Basics
  import opened Epoll
  import opened SchedQueues
  import opened SchedModel
  import opened SchedInvariant
  import opened SchedSteps
  import opened SchedTheorems
  import opened SchedProgress

  // ---- numbers are not used again ----

  /** r has the objects and counts of s. */
  ghost predicate SameObjects(s: State, r: State) {
    r.mutexes == s.mutexes && r.nextId == s.nextId && r.idle == s.idle && r.activeCount == s.activeCount
  }

  lemma {:induction false} WakeAllSame(s: State, ts: seq<nat>)
    ensures SameObjects(s, WakeAll(s, ts))
  {
    if ts != [] { WakeAllSame(s, ts[..|ts| - 1]); }
  }

  lemma {:induction false} ExpireSame(s: State, now: int)
    ensures SameObjects(s, Expire(s, now))
    decreases |s.sleepQ|
  {
    if s.sleepQ != [] && s.sleepQ[0].due <= now { ExpireSame(ExpireOne(s), now); }
  }

  lemma {:induction false} DeliverSame(s: State, moved: seq<Pollq>)
    ensures SameObjects(s, Deliver(s, moved))
  {
    if moved != [] { DeliverSame(s, moved[..|moved| - 1]); }
  }

  lemma IdleSame(s: State, fired: Fired, now: int)
    ensures SameObjects(s, IdleTurn(s, fired, now).s)
  {
    var d := Dispatch(s, fired);
    if fired != [] { DeliverSame(s, Moved(s.ioQ, Revents(s, fired))); }
    ExpireSame(d.(lastClock := now), now);
  }

  lemma YieldSame(s: State, now: int)
    ensures SameObjects(s, Yield(s, now).s)
  {
    ExpireSame(s.(lastClock := now), now);
  }

  /** What `st_thread_exit` does before it gives up the processor. */
  function Exiting(s: State, retval: int): State {
    var h := Get(s, s.cur).(retval := retval);
    if h.term then
      SetThread(s, s.cur, h.(state := ZOMBIE, at := InExit)).(activeCount := s.activeCount - 1, zombieQ := s.zombieQ + [s.cur])
    else Vanish(s.(activeCount := s.activeCount - 1), h)
  }

  lemma ExitIs(s: State, retval: int)
    ensures Exit(s, retval).s ==
            var z := Exiting(s, retval);
            Schedule(if Get(s, s.cur).term then Signal(z, Term(s.cur), false) else z)
  {
  }

  lemma ExitSame(s: State, retval: int)
    ensures SameObjects(s.(activeCount := s.activeCount - 1), Exit(s, retval).s)
  {
    ExitIs(s, retval);
    var z := Exiting(s, retval);
    WakeAllSame(z, Signalled(z, Term(s.cur), false));
  }

  lemma SameMeans(s: State, r: State)
    ensures SameObjects(s, r) ==>
              && r.nextId == s.nextId && r.activeCount == s.activeCount && r.idle == s.idle && r.mutexes.Keys == s.mutexes.Keys
              && forall m :: m in s.mutexes ==> r.mutexes[m].owner == s.mutexes[m].owner
  {
  }

  lemma ResumeSame(s: State, r: State)
    requires r == Resume(s).s
    ensures r.nextId == s.nextId && r.activeCount == s.activeCount && r.idle == s.idle
    ensures r.mutexes.Keys == s.mutexes.Keys && forall m :: m in s.mutexes ==> r.mutexes[m].owner == s.mutexes[m].owner
  {
    hide PollDone, CondDone, LockDone, ExitDone, Without, SameObjects;
    SameMeans(s, r);
    match Get(s, s.cur).at {
      case InPoll(ready) => PollDoneSame(s, ready);
      case InCond(c) => CondDoneSame(s, c, CondDone(s, c).s);
      case InLock(m) => if m in s.mutexes { LockDoneSame(s, m); }
      case InExit => ExitDoneSame(s);
      case _ =>
    }
  }

  lemma LockDoneSame(s: State, m: nat)
    requires m in s.mutexes
    ensures var r := LockDone(s, m).s;
            && r.nextId == s.nextId && r.activeCount == s.activeCount && r.idle == s.idle && r.mutexes.Keys == s.mutexes.Keys
            && forall k :: k in s.mutexes ==> r.mutexes[k].owner == s.mutexes[k].owner
  {
  }

  lemma PollDoneSame(s: State, ready: Option<seq<PollFd>>)
    ensures SameObjects(s, PollDone(s, ready).s)
  {
  }

  lemma ExitDoneSame(s: State)
    ensures SameObjects(s, ExitDone(s).s)
  {
  }

  lemma CondDoneSame(s: State, c: CondId, r: State)
    requires r == CondDone(s, c).s
    ensures SameObjects(s, r)
  {
    hide CondWait, Without;
    var h := Get(s, s.cur);
    var u := SetThread(s, s.cur, h.(at := InUser, timedOut := false, interrupt := false)).(
               conds := s.conds[c := Without(WaitQ(s, c), s.cur)]);
    if !h.interrupt && !h.timedOut && c.Term? {
      assert r == JoinLoop(u, c.t).s;
      CondWaitSame(u, c, None);
    } else {
      assert r == u;
    }
  }

  lemma BlockSame(s: State, st: TState, at: Place, timeout: Option<int>)
    ensures SameObjects(s, Schedule(Suspend(s, st, at, timeout))) && SameObjects(s, Interrupted(s).s)
  {
  }

  lemma CondWaitSame(s: State, c: CondId, timeout: Option<int>)
    ensures SameObjects(s, CondWait(s, c, timeout).s)
  {
    hide Suspend, Schedule;
    BlockSame(s, COND_WAIT, InCond(c), timeout);
    BlockSame(s.(conds := s.conds[c := WaitQ(s, c) + [s.cur]]), COND_WAIT, InCond(c), timeout);
  }

  lemma PollSame(s: State, pds: seq<PollFd>, timeout: Option<int>, added: Errno)
    ensures SameObjects(s, Poll(s, pds, timeout, added).s)
  {
    hide Suspend, Schedule;
    BlockSame(s, IO_WAIT, InPoll(None), timeout);
    BlockSame(s.(ioQ := s.ioQ + [Pollq(s.cur, pds)]), IO_WAIT, InPoll(None), timeout);
  }

  lemma UsleepSame(s: State, timeout: Option<int>)
    ensures SameObjects(s, Usleep(s, timeout).s)
  {
    hide Suspend, Schedule;
    BlockSame(s, if timeout.Some? then SLEEPING else SUSPENDED, InSleep, timeout);
  }

  lemma JoinSame(s: State, u: nat)
    ensures SameObjects(s, Join(s, u).s)
  {
    hide CondWait;
    CondWaitSame(s, Term(u), None);
  }

  /** The calls that may block, but for a lock. */
  lemma WaitSame(s: State, step: Step, r: State)
    requires Enabled(s, step) && r == Do(s, step).s
    requires step.DoPoll? || step.DoUsleep? || step.DoCondWait? || step.DoJoin?
    ensures SameObjects(s, r)
  {
    hide Poll, Usleep, CondWait, Join, SameObjects;
    match step {
      case DoPoll(pds, timeout, added) => PollSame(s, pds, timeout, added);
      case DoUsleep(timeout) => UsleepSame(s, timeout);
      case DoCondWait(c, timeout) => CondWaitSame(s, c, timeout);
      case DoJoin(u) => JoinSame(s, u);
    }
  }

  lemma LockSame(s: State, m: nat)
    requires m in s.mutexes
    ensures var r := Lock(s, m).s; r.nextId == s.nextId && r.activeCount == s.activeCount && r.idle == s.idle
  {
    hide Suspend, Schedule;
    var x := s.mutexes[m];
    BlockSame(s.(mutexes := s.mutexes[m := x.(waitQ := x.waitQ + [s.cur])]), LOCK_WAIT, InLock(m), None);
  }

  /** The calls with loops, and those that may block. */
  ghost predicate IsLong(step: Step) {
    step.DoYield? || step.DoIdle? || step.DoSignal? || step.DoPoll? || step.DoUsleep? || step.DoCondWait? || step.DoJoin?
  }

  lemma LongSame(s: State, step: Step, r: State)
    requires Enabled(s, step) && r == Do(s, step).s && IsLong(step)
    ensures SameObjects(s, r)
  {
    hide Poll, Usleep, CondWait, Join, Yield, IdleTurn, WakeAll, SameObjects;
    match step {
      case DoYield(now) => YieldSame(s, now);
      case DoIdle(fired, now) => IdleSame(s, fired, now);
      case DoSignal(c, broadcast) => WakeAllSame(s, Signalled(s, c, broadcast));
      case _ => WaitSame(s, step, r);
    }
  }

  lemma CallSame(s: State, step: Step, r: State)
    requires Enabled(s, step) && r == Do(s, step).s && !step.DoCreate? && !step.DoExit? && !step.DoResume?
    ensures s.nextId <= r.nextId && r.activeCount == s.activeCount && r.idle == s.idle
  {
    hide Poll, Usleep, CondWait, Join, Yield, IdleTurn, WakeAll, Lock;
    if IsLong(step) {
      LongSame(s, step, r);
    } else if step.DoLock? {
      LockSame(s, step.m);
    }
  }

  /** Only exits and creations change the count of active threads; numbers only grow. */
  lemma CountsChange(s: State, step: Step)
    requires Enabled(s, step)
    ensures s.nextId <= Do(s, step).s.nextId && Do(s, step).s.idle == s.idle
    ensures Do(s, step).s.activeCount ==
            s.activeCount - (if step.DoExit? then 1 else 0) + (if step.DoCreate? && Do(s, step).ret.value.NewThread? then 1 else 0)
  {
    if step.DoExit? {
      ExitSame(s, step.retval);
    } else if step.DoResume? {
      ResumeSame(s, Do(s, step).s);
    } else if !step.DoCreate? {
      CallSame(s, step, Do(s, step).s);
    }
  }

  // ---- one join ----

  /** What a step that may end a join of u comes to: the call itself, or its second half. */
  function JoinEnd(s: State, step: Step, u: nat): Result {
    if step.DoJoin? then Join(s, u) else CondDone(s, Term(u))
  }

  /** The step is the end of a join of u that succeeds. */
  ghost predicate Joins(s: State, step: Step, u: nat) {
    && Enabled(s, step)
    && (step == DoJoin(u) || (step == DoResume && Get(s, s.cur).at == InCond(Term(u))))
    && JoinEnd(s, step, u).ret.Some? && JoinEnd(s, step, u).ret.value.Retval?
  }

  lemma JoinEndIs(s: State, step: Step, u: nat)
    requires Joins(s, step, u)
    ensures Do(s, step) == JoinEnd(s, step, u)
  {
  }

  /** A join succeeds only once the target has exited: it takes the target off the zombie
      queue and returns its value. */
  lemma JoinResult(s: State, step: Step, u: nat)
    requires Good(s) && Joins(s, step, u)
    ensures u in s.threads && s.threads[u].state == ZOMBIE && s.threads[u].at.InExit? && u in s.zombieQ
    ensures var r := JoinEnd(s, step, u);
            && r.ret == Some(Retval(s.threads[u].retval)) && u in r.s.runQ && r.s.zombieQ == Without(s.zombieQ, u)
            && u in r.s.threads && r.s.threads[u] == s.threads[u].(state := RUNNABLE)
  {
    hide RunOk, IoOk, HeapOk, CondOk, MutexOk, JoinOk, StackOk, CountOk;
    NotIdle(s);
    if step.DoResume? && !Get(s, s.cur).interrupt { JoinerGoesOn(s, u); }
    assert u in s.threads && s.threads[u].state == ZOMBIE;
    assert Fits(s.threads[u], u == s.idle, u == s.cur);
  }

  // ---- joins over a run ----

  /** The target has been joined: it has left the zombie state for good. */
  ghost predicate Joined(s: State, u: nat) {
    u < s.nextId && (u in s.threads ==> s.threads[u].at.Gone? || (s.threads[u].at.InExit? && s.threads[u].state != ZOMBIE))
  }

  lemma UnmapPass(s: State)
    requires Inv(s)
    ensures var r := Unmap(s);
            && (forall u :: u in r.threads ==> u in s.threads && r.threads[u] == s.threads[u])
            && (forall u :: u in s.threads && u !in r.threads ==> s.threads[u].at.Gone?)
  {
    hide ShapeOk, RunOk, ZombieOk, IoOk, HeapOk, CondOk, MutexOk, JoinOk, StackOk, CountOk;
    forall t | t in s.freeStacks
      ensures t in s.threads && s.threads[t].at.Gone?
    {
      FreedIsNowhere(s, t);
    }
  }

  lemma NewIsNobody(s: State)
    requires Inv(s)
    ensures s.nextId !in s.threads
  {
  }

  lemma CreatePass(s: State, step: Step)
    requires Good(s) && step.DoCreate? && Enabled(s, step)
    ensures var r := Do(s, step).s;
            && (forall u :: u in r.threads ==> u == s.nextId || (u in s.threads && r.threads[u] == s.threads[u]))
            && (forall u :: u in s.threads && u !in r.threads ==> s.threads[u].at.Gone?)
            && (s.nextId in r.threads ==> r.threads[s.nextId].retval == 0 && !r.threads[s.nextId].at.InExit? && !r.threads[s.nextId].timedOut)
  {
    hide ShapeOk, RunOk, ZombieOk, IoOk, HeapOk, CondOk, MutexOk, JoinOk, StackOk, CountOk, Unmap;
    NewIsNobody(s);
    UnmapIs(s);
    UnmapPass(s);
  }

  lemma PassJoined(a: map<nat, Thread>, b: map<nat, Thread>, t: nat, clock: bool, u: nat)
    requires Pass(a, b, t, clock) && u != t
    requires u in a ==> a[u].at.Gone? || (a[u].at.InExit? && a[u].state != ZOMBIE)
    ensures u in b ==> b[u].at.Gone? || (b[u].at.InExit? && b[u].state != ZOMBIE)
  {
    if u in a { assert Progress(a[u], b[u]); }
  }

  lemma JoinedStays(s: State, step: Step, u: nat)
    requires Good(s) && Enabled(s, step) && Joined(s, u)
    ensures Joined(Do(s, step).s, u)
  {
    hide Do, Pass, Good, Resume;
    CountsChange(s, step);
    StepKeeps(s, step);
    if step.DoCreate? {
      CreatePass(s, step);
    } else {
      StepPass(s, step);
      if u != s.cur {
        PassJoined(s.threads, Do(s, step).s.threads, s.cur, IsClock(step), u);
      } else {
        RunnerStays(s, step);
      }
    }
  }

  lemma RunnerStays(s: State, step: Step)
    requires Good(s) && Enabled(s, step) && (s.cur in s.threads ==> s.threads[s.cur].at.Gone? || s.threads[s.cur].at.InExit?)
    ensures s.cur in Do(s, step).s.threads && Do(s, step).s.threads[s.cur].at.Gone?
  {
    hide RunOk, ZombieOk, IoOk, HeapOk, CondOk, MutexOk, JoinOk, StackOk, CountOk, Do, Resume;
    StepKeeps(s, step);
    ExitFinishes(s, step);
    ResumeDone(s, step);
  }

  lemma ExitFinishes(s: State, step: Step)
    requires Good(s) && Enabled(s, step) && (Get(s, s.cur).at.Gone? || Get(s, s.cur).at.InExit?)
    requires Running(Do(s, step).s)
    ensures s.cur in s.threads && s.threads[s.cur].at.InExit? && step.DoResume?
    ensures s.cur in Resume(s).s.threads && Resume(s).s.threads[s.cur].at.Gone?
  {
    assert Fits(Get(s, s.cur), s.cur == s.idle, true);
    LastOfExit(s);
  }

  lemma GoneIs(s: State, h: Thread)
    ensures var m := Vanish(s, h); s.cur in m.threads && m.threads[s.cur].at.Gone?
  {
  }

  lemma LastOfExit(s: State)
    requires s.cur in s.threads && s.threads[s.cur].at.InExit? && Running(Resume(s).s)
    ensures s.cur in Resume(s).s.threads && Resume(s).s.threads[s.cur].at.Gone?
  {
    hide Schedule, Vanish;
    var c := Term(s.cur);
    var conds := if WaitQ(s, c) == [] then s.conds - {c} else s.conds;
    var m := Vanish(s.(conds := conds), s.threads[s.cur].(term := false));
    GoneIs(s.(conds := conds), s.threads[s.cur].(term := false));
    OwnAt(m, s.cur);
  }

  /** The context switch changes the place of no thread. */
  lemma OwnAt(m: State, t: nat)
    requires t in m.threads && Running(Schedule(m))
    ensures t in Schedule(m).threads && Progress(m.threads[t], Schedule(m).threads[t])
  {
    assert Pass(m.threads, m.threads, t + 1, false);
    PassBlocked(m.threads, m, t + 1, false);
  }

  lemma {:induction false} JoinedLater(ss: seq<State>, steps: seq<Step>, i: nat, j: nat, u: nat)
    requires IsRun(ss, steps) && i <= j < |ss| && Joined(ss[i], u)
    ensures Joined(ss[j], u)
  {
    hide Do, Good, Joined, Enabled;
    if i < j {
      JoinedLater(ss, steps, i, j - 1, u);
      RunStep(ss, steps, j - 1);
      JoinedStays(ss[j - 1], steps[j - 1], u);
    }
  }

  lemma JoinedThen(s: State, step: Step, r: State, u: nat)
    requires Good(s) && Joins(s, step, u) && Follows(s, step, r)
    ensures Joined(r, u) && !Joined(s, u)
  {
    hide Do;
    StepKeeps(s, step);
    JoinResult(s, step, u);
    JoinEndIs(s, step, u);
  }

  /** In a whole run a thread is joined at most once, by whomever. */
  lemma JoinedOnce(ss: seq<State>, steps: seq<Step>, i: nat, j: nat, u: nat)
    requires IsRun(ss, steps) && i < |steps| && j < |steps| && Joins(ss[i], steps[i], u) && Joins(ss[j], steps[j], u)
    ensures i == j
  {
    hide Do, Good, Follows, Joined, Joins;
    if i != j {
      var a, b := if i < j then i else j, if i < j then j else i;
      RunStep(ss, steps, a);
      RunStep(ss, steps, b);
      JoinedThen(ss[a], steps[a], ss[a + 1], u);
      JoinedLater(ss, steps, a + 1, b, u);
      JoinedThen(ss[b], steps[b], ss[b + 1], u);
      assert false;
    }
  }

  /** Whoever waits to join a thread that has been joined already waits until it is
      interrupted: the target will not be a zombie again. */
  lemma LateJoinerWaits(ss: seq<State>, steps: seq<Step>, i: nat, j: nat, t: nat, u: nat)
    requires IsRun(ss, steps) && i <= j < |ss| && Joined(ss[i], u)
    requires t in ss[j].threads && ss[j].threads[t].at == InCond(Term(u))
    ensures ss[j].threads[t].state == COND_WAIT || ss[j].threads[t].interrupt
  {
    hide Do, Follows;
    JoinedLater(ss, steps, i, j, u);
    RunsAreGood(ss, steps, j);
    assert JoinerOk(ss[j], ss[j].threads[t], None);
    assert u in ss[j].threads ==> Fits(ss[j].threads[u], u == ss[j].idle, u == ss[j].cur);
  }

  /** The exiting thread keeps the value that it gave. */
  lemma ExitEnters(s: State, retval: int)
    requires Good(s) && InCall(s) && Running(Exit(s, retval).s)
    ensures var r := Exit(s, retval).s;
            s.cur in r.threads && r.threads[s.cur].retval == retval && (r.threads[s.cur].at.InExit? || r.threads[s.cur].at.Gone?)
  {
    hide RunOk, ZombieOk, IoOk, HeapOk, CondOk, MutexOk, JoinOk, StackOk, CountOk, Exit, Signal, Schedule;
    NotIdle(s);
    ExitIs(s, retval);
    var t, z := s.cur, Exiting(s, retval);
    if s.threads[t].term {
      SignalPass(z, Term(t), false, t + 1);
      assert Progress(z.threads[t], Signal(z, Term(t), false).threads[t]);
      OwnAt(Signal(z, Term(t), false), t);
    } else {
      OwnAt(z, t);
    }
  }

  /** A thread comes to be inside its exit only through `st_thread_exit`. */
  lemma OnlyExitEnters(s: State, step: Step, t: nat)
    requires Good(s) && Enabled(s, step) && !step.DoCreate? && t in s.threads && !s.threads[t].at.InExit?
    requires t in Do(s, step).s.threads && Do(s, step).s.threads[t].at.InExit?
    ensures t == s.cur && step.DoExit?
  {
    hide RunOk, ZombieOk, IoOk, HeapOk, CondOk, MutexOk, JoinOk, StackOk, Do;
    StepPass(s, step);
    StepKeeps(s, step);
    CountsChange(s, step);
    var r := Do(s, step).s;
    assert t == s.cur;
    assert Fits(s.threads[t], t == s.idle, true) && Fits(r.threads[t], t == r.idle, r.cur == t);
    FewerActive(s, r, t);
  }

  lemma FewerActive(s: State, r: State, t: nat)
    requires CountOk(s) && CountOk(r) && Pass(s.threads, r.threads, t, true) && r.idle == s.idle
    requires t in Active(s) && t !in Active(r)
    ensures r.activeCount == s.activeCount - 1
  {
    assert Active(r) == Active(s) - {t};
  }

  /** A thread inside its exit was there before, or has just called `st_thread_exit`. */
  lemma ExitOrigin(s: State, step: Step, r: State, u: nat)
    requires Good(s) && Follows(s, step, r) && u in r.threads && r.threads[u].at.InExit?
    ensures (u in s.threads && s.threads[u].at.InExit? && s.threads[u].retval == r.threads[u].retval)
            || (s.cur == u && step == DoExit(r.threads[u].retval))
  {
    hide RunOk, ZombieOk, IoOk, HeapOk, CondOk, MutexOk, JoinOk, StackOk, CountOk;
    hide Do;
    StepKeeps(s, step);
    if step.DoCreate? {
      CreatePass(s, step);
    } else {
      StepPass(s, step);
      if !s.threads[u].at.InExit? {
        OnlyExitEnters(s, step, u);
        ExitCalled(s, step);
      } else if u == s.cur {
        ExitFinishes(s, step);
        ResumeDone(s, step);
      }
    }
  }

  lemma ExitCalled(s: State, step: Step)
    requires Good(s) && Enabled(s, step) && step.DoExit?
    ensures s.cur in Do(s, step).s.threads && Do(s, step).s.threads[s.cur].retval == step.retval
  {
    ExitStep(s, step.retval);
    ExitEnters(s, step.retval);
  }

  lemma ResumeDone(s: State, step: Step)
    requires Enabled(s, step) && step.DoResume?
    ensures Do(s, step) == Resume(s)
  {
  }

  /** A thread inside its exit holds the value it exited with. */
  lemma {:induction false} ExitValue(ss: seq<State>, steps: seq<Step>, i: nat, u: nat)
    requires IsRun(ss, steps) && i < |ss| && u in ss[i].threads && ss[i].threads[u].at.InExit?
    ensures exists k :: 0 <= k < i && ss[k].cur == u && steps[k] == DoExit(ss[i].threads[u].retval)
  {
    hide Do, Good, Follows;
    if i == 0 {
      RunStart(ss, steps);
    } else {
      RunStep(ss, steps, i - 1);
      ExitOrigin(ss[i - 1], steps[i - 1], ss[i], u);
      if !(ss[i - 1].cur == u && steps[i - 1] == DoExit(ss[i].threads[u].retval)) {
        ExitValue(ss, steps, i - 1, u);
      }
    }
  }

  /** A successful join returns what its target gave to `st_thread_exit`, earlier in the run. */
  lemma JoinReturnsExitValue(ss: seq<State>, steps: seq<Step>, i: nat, u: nat)
    requires IsRun(ss, steps) && i < |steps| && Joins(ss[i], steps[i], u)
    ensures exists k :: 0 <= k < i && ss[k].cur == u && steps[k].DoExit? && Do(ss[i], steps[i]).ret == Some(Retval(steps[k].retval))
  {
    hide Do, Follows;
    RunStep(ss, steps, i);
    JoinEndIs(ss[i], steps[i], u);
    JoinResult(ss[i], steps[i], u);
    ExitValue(ss, steps, i, u);
  }
}
