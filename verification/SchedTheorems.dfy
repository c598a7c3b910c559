/** What the scheduler guarantees in every run, whatever the threads do. */
module SchedTheorems {
  import opened Basics
  import opened HeapModel
  import opened Epoll
  import opened SchedQueues
  import opened SchedModel
  import opened SchedInvariant
  import opened SchedSteps
  import opened SchedRuns

  /** Between two steps: the invariant, and the idle thread runs only for want of others. */
  ghost predicate Good(s: State) {
    Inv(s) && (s.cur == s.idle ==> s.runQ == [])
  }

  ghost predicate InCall(s: State) {
    Get(s, s.cur).at.InUser?
  }

  lemma NotIdle(s: State)
    requires Inv(s) && !Get(s, s.cur).at.InIdle?
    ensures s.cur != s.idle && s.cur in s.threads && s.threads[s.cur].state == RUNNING && !s.threads[s.cur].onSleepQ
  {
    assert Fits(s.threads[s.cur], s.cur == s.idle, true);
  }

  lemma BlockedIsGood(r: State)
    requires Core(r, None, None)
    ensures Good(Blocked(r).s)
  {
    ScheduleKeeps(r, Schedule(r));
    assert Fits(r.threads[r.idle], true, false);
    assert r.runQ != [] ==> r.runQ[0] in r.runQ;
  }

  lemma InterruptedIsGood(s: State)
    requires Good(s) && InCall(s)
    ensures Good(Interrupted(s).s)
  {
    NotIdle(s);
    assert Fits(s.threads[s.cur], false, true);
    PlainBack(s, false, Interrupted(s).s);
  }

  // ---- one lemma a call ----

  lemma UsleepStep(s: State, timeout: Option<int>)
    requires Good(s) && InCall(s)
    ensures Good(Usleep(s, timeout).s)
  {
    if Get(s, s.cur).interrupt {
      InterruptedIsGood(s);
    } else {
      var r := Suspend(s, if timeout.Some? then SLEEPING else SUSPENDED, InSleep, timeout);
      UsleepBlocks(s, timeout, r);
      BlockedIsGood(r);
    }
  }

  lemma PollStep(s: State, pds: seq<PollFd>, timeout: Option<int>, added: Errno)
    requires Good(s) && InCall(s)
    ensures Good(Poll(s, pds, timeout, added).s)
  {
    if Get(s, s.cur).interrupt {
      InterruptedIsGood(s);
    } else if added == Ok {
      var r := Suspend(s.(ioQ := s.ioQ + [Pollq(s.cur, pds)]), IO_WAIT, InPoll(None), timeout);
      PollBlocks(s, pds, timeout, r);
      BlockedIsGood(r);
    }
  }

  lemma CondWaitStep(s: State, c: CondId, timeout: Option<int>)
    requires Good(s) && InCall(s) && c in s.conds
    requires c.Term? ==> c.t != s.cur && s.conds[c] == [] && Get(s, c.t).state != ZOMBIE && timeout == None
    ensures Good(CondWait(s, c, timeout).s)
  {
    if Get(s, s.cur).interrupt {
      InterruptedIsGood(s);
    } else {
      var r := Suspend(s.(conds := s.conds[c := WaitQ(s, c) + [s.cur]]), COND_WAIT, InCond(c), timeout);
      CondBlocks(s, c, timeout, r);
      BlockedIsGood(r);
    }
  }

  lemma JoinLoopStep(s: State, u: nat)
    requires Good(s) && InCall(s) && u != s.cur && u in s.threads && Term(u) in s.conds && s.conds[Term(u)] == []
    ensures Good(JoinLoop(s, u).s)
  {
    NotIdle(s);
    if s.threads[u].state == ZOMBIE {
      ReleaseKeeps(s, u, JoinLoop(s, u).s);
    } else {
      CondWaitStep(s, Term(u), None);
    }
  }

  lemma JoinStep(s: State, u: nat)
    requires Good(s) && InCall(s) && u in s.threads
    ensures Good(Join(s, u).s)
  {
    if s.threads[u].term && s.cur != u && WaitQ(s, Term(u)) == [] {
      JoinLoopStep(s, u);
    }
  }

  lemma YieldStep(s: State, now: int)
    requires Good(s) && InCall(s)
    ensures Good(Yield(s, now).s)
  {
    hide RunOk, ZombieOk, IoOk, HeapOk, CondOk, MutexOk, JoinOk, StackOk, CountOk;
    NotIdle(s);
    var c := CheckClock(s, now);
    CheckClockKeeps(s, Some(s.cur), now, c);
    RunnerUntouched(s, c, Popped(s.sleepQ, now), now);
    if c.runQ != [] {
      var r := Suspend(c, RUNNABLE, InYield, None).(runQ := c.runQ + [c.cur]);
      YieldBlocks(c, r);
      BlockedIsGood(r);
    }
  }

  /** The clock wakes sleepers, and the running thread is none. */
  lemma RunnerUntouched(s: State, c: State, p: Image<nat>, now: int)
    requires Inv(s) && !s.threads[s.cur].onSleepQ
    requires p == Popped(s.sleepQ, now) && Expired(s.(lastClock := now), c, p)
    ensures c.cur == s.cur && c.idle == s.idle && s.cur in c.threads && c.threads[s.cur] == s.threads[s.cur]
  {
    if OnHeap(p, s.cur) { PoppedOnHeap(s.sleepQ, now, s.cur); }
  }

  lemma StackStay(s: State, r: State, t: nat, h: Thread)
    requires StackOk(s) && t in s.threads && r.freeStacks == s.freeStacks
    requires h.at == s.threads[t].at && h.primordial == s.threads[t].primordial
    ensures Moves(s.freeStacks, r.freeStacks, t, h.at.Gone? && !h.primordial)
  {
  }

  lemma FlagKeeps(s: State, t: nat, r: State)
    requires Inv(s) && t in s.threads && (s.threads[t].state == RUNNING || s.threads[t].state == RUNNABLE)
    requires r == SetThread(s, t, s.threads[t].(interrupt := true))
    ensures Inv(r)
  {
    hide RunOk, ZombieOk, IoOk, HeapOk, CondOk, MutexOk, JoinOk, StackOk, CountOk, Moves, HeapMoves, CondMoves, MutexMoves, JoinMoves;
    var h := s.threads[t].(interrupt := true);
    assert Fits(s.threads[t], t == s.idle, t == s.cur);
    Waits(s, t, None);
    RunStay(s, r, t, h);
    ListsStay(s, r, t, h);
    StackStay(s, r, t, h);
    HeapStay(s, r, t, h);
    CondStay(s, r, t, h);
    MutexStay(s, r, t, h, None);
    JoinStay(s, r, t, h, None);
    Turn(s, r, t, h, Some(s.cur), Some(s.cur), None, None);
  }

  lemma InterruptStep(s: State, t: nat)
    requires Good(s) && InCall(s) && t in s.threads
    ensures Good(Interrupt(s, t).s)
  {
    hide RunOk, ZombieOk, IoOk, HeapOk, CondOk, MutexOk, JoinOk, StackOk, CountOk;
    NotIdle(s);
    var h := s.threads[t];
    var r := Interrupt(s, t).s;
    if h.state == RUNNING || h.state == RUNNABLE {
      FlagKeeps(s, t, r);
    } else if h.state != ZOMBIE {
      assert Fits(h, t == s.idle, t == s.cur);
      ReadyKeeps(s, Some(s.cur), None, t, h.(state := RUNNABLE, onSleepQ := false, interrupt := true), false, r);
    }
  }

  lemma UnmapIs(s: State)
    ensures var u := Unmap(s); u.cur == s.cur && u.idle == s.idle && u.runQ == s.runQ && u.nextId == s.nextId && u.mutexes == s.mutexes && u.sleepQ == s.sleepQ
  {
  }

  lemma CreateStep(s: State, joinable: bool, stackOk: bool, condOk: bool)
    requires Good(s) && InCall(s)
    ensures Good(Create(s, joinable, stackOk, condOk).s)
  {
    hide ShapeOk, RunOk, ZombieOk, IoOk, HeapOk, CondOk, MutexOk, JoinOk, StackOk, CountOk, Unmap;
    NotIdle(s);
    UnmapKeeps(s);
    UnmapIs(s);
    var u := Unmap(s);
    var r := Create(s, joinable, stackOk, condOk).s;
    if stackOk {
      if joinable && !condOk {
        StillbornKeeps(u, r);
      } else {
        CreateKeeps(u, NOBODY.(at := Start, state := RUNNABLE, term := joinable), r);
      }
    }
  }

  /** Once the joiner has been signalled nothing about the zombie is pending. */
  lemma Settled(s: State, run: Option<nat>, t: nat)
    requires Core(s, run, Some(t)) && Get(s, t).state == ZOMBIE
    requires forall u :: u in WaitQ(s, Term(t)) ==> Get(s, u).state != COND_WAIT
    ensures Core(s, run, None)
  {
    forall u | u in s.threads && s.threads[u].at.InCond? && s.threads[u].at.c.Term?
      ensures JoinerOk(s, s.threads[u], None)
    {
      assert JoinerOk(s, s.threads[u], Some(t));
      assert u in WaitQ(s, s.threads[u].at.c);
    }
    forall u | u in s.threads && s.threads[u].at.InLock?
      ensures LockerOk(s, s.threads[u], u, None)
    {
      assert LockerOk(s, s.threads[u], u, Some(t));
    }
  }

  lemma SingleWaiter(s: State, c: CondId, u: nat)
    requires WaitQ(s, c) == [u] && Get(s, u).state == COND_WAIT
    ensures Signalled(s, c, false) == [u]
  {
    assert [u][..0] == [];
    assert Waiting(s, [u][..0], COND_WAIT) == [];
    assert Waiting(s, [u], COND_WAIT) == [u];
    assert [u][..1] == [u];
  }

  /** The signal of an exit reaches the joiner, if there is one that still waits. */
  lemma JoinerWoken(z: State, c: CondId, r: State)
    requires CondOk(z) && c in z.conds && |z.conds[c]| <= 1 && Woken(z, r, Signalled(z, c, false))
    ensures forall u :: u in WaitQ(r, c) ==> Get(r, u).state != COND_WAIT
  {
    forall u | u in WaitQ(r, c)
      ensures Get(r, u).state != COND_WAIT
    {
      assert z.conds[c] == [u];
      assert u in z.conds[c] && u in z.threads;
      if z.threads[u].state == COND_WAIT { SingleWaiter(z, c, u); }
    }
  }

  /** The exit of a joinable thread wakes its joiner, if it has one that still waits. */
  lemma JoinerSignalled(z: State, t: nat, r: State)
    requires Core(z, None, Some(t)) && Get(z, t).state == ZOMBIE && Term(t) in z.conds
    requires r == Signal(z, Term(t), false)
    ensures Core(r, None, None)
  {
    var c := Term(t);
    SignalKeeps(z, None, Some(t), c, false);
    JoinerWoken(z, c, r);
    WaitingIs(z, z.conds[c], COND_WAIT);
    assert t !in Signalled(z, c, false);
    Settled(r, None, t);
  }

  lemma HasTerm(s: State, t: nat)
    requires JoinOk(s, None) && t in s.threads && s.threads[t].term
    ensures Term(t) in s.conds
  {
  }

  lemma InvIs(s: State)
    requires Good(s)
    ensures Inv(s) && JoinOk(s, None) && s.cur in s.threads
  {
  }

  lemma ExitStep(s: State, retval: int)
    requires Good(s) && InCall(s)
    ensures Good(Exit(s, retval).s)
  {
    hide RunOk, ZombieOk, IoOk, HeapOk, CondOk, MutexOk, JoinOk, StackOk, CountOk, Signal, Vanish, Schedule, Good, Inv;
    InvIs(s);
    var t := s.cur;
    var h := s.threads[t].(retval := retval);
    if h.term {
      var z := SetThread(s, t, h.(state := ZOMBIE, at := InExit)).(activeCount := s.activeCount - 1, zombieQ := s.zombieQ + [t]);
      HasTerm(s, t);
      ZombieBlocks(s, z, h.(state := ZOMBIE, at := InExit));
      var r := Signal(z, Term(t), false);
      JoinerSignalled(z, t, r);
      BlockedIsGood(r);
    } else {
      var r := Vanish(s.(activeCount := s.activeCount - 1), h);
      VanishBlocks(s, h, s.activeCount - 1, s.conds, r);
      BlockedIsGood(r);
    }
  }

  lemma ExitDoneStep(s: State)
    requires Good(s) && Get(s, s.cur).at.InExit?
    ensures Good(ExitDone(s).s)
  {
    NotIdle(s);
    var c := Term(s.cur);
    var conds := if WaitQ(s, c) == [] then s.conds - {c} else s.conds;
    var h := s.threads[s.cur].(term := false);
    var r := Vanish(s.(conds := conds), h);
    assert s.(conds := conds) == s.(activeCount := s.activeCount, conds := conds);
    VanishBlocks(s, h, s.activeCount, conds, r);
    BlockedIsGood(r);
  }

  // ---- the calls of sync.c on mutexes ----

  lemma Waiter(s: State, m: nat, t: nat)
    requires Inv(s) && m in s.mutexes && t in s.mutexes[m].waitQ
    ensures t in s.threads && s.threads[t].at == InLock(m) && LockerOk(s, s.threads[t], t, None)
    ensures Get(s, s.cur).at.InUser? ==> t != s.cur
  {
  }

  /** A mutex that nobody owns can be taken. */
  lemma TakeKeeps(s: State, m: nat, r: State)
    requires Inv(s) && m in s.mutexes && s.mutexes[m].owner == None
    requires r == s.(mutexes := s.mutexes[m := s.mutexes[m].(owner := Some(s.cur))])
    ensures Inv(r)
  {
    forall t | t in s.mutexes[m].waitQ
      ensures t in s.threads && s.threads[t].at.InLock? && LockerOk(r, s.threads[t], t, None)
    {
      Waiter(s, m, t);
    }
    OwnerKeeps(s, m, Some(s.cur), None, r);
  }

  lemma LockStep(s: State, m: nat)
    requires Good(s) && InCall(s) && m in s.mutexes
    ensures Good(Lock(s, m).s)
  {
    var x := s.mutexes[m];
    if Get(s, s.cur).interrupt {
      InterruptedIsGood(s);
    } else if x.owner == None {
      TakeKeeps(s, m, Lock(s, m).s);
    } else if x.owner != Some(s.cur) {
      var r := Suspend(s.(mutexes := s.mutexes[m := x.(waitQ := x.waitQ + [s.cur])]), LOCK_WAIT, InLock(m), None);
      LockBlocks(s, m, r);
      BlockedIsGood(r);
    }
  }

  lemma TrylockStep(s: State, m: nat)
    requires Good(s) && InCall(s) && m in s.mutexes
    ensures Good(Trylock(s, m).s)
  {
    if s.mutexes[m].owner == None { TakeKeeps(s, m, Trylock(s, m).s); }
  }

  /** Once the new owner is runnable nothing about it is pending. */
  lemma HandedOver(s: State, run: Option<nat>, t: nat)
    requires Core(s, run, Some(t)) && Get(s, t).state == RUNNABLE
    ensures Core(s, run, None)
  {
    forall u | u in s.threads && s.threads[u].at.InCond? && s.threads[u].at.c.Term?
      ensures JoinerOk(s, s.threads[u], None)
    {
      assert JoinerOk(s, s.threads[u], Some(t));
    }
    forall u | u in s.threads && s.threads[u].at.InLock?
      ensures LockerOk(s, s.threads[u], u, None)
    {
      assert LockerOk(s, s.threads[u], u, Some(t));
    }
  }

  lemma ReleasedKeeps(s: State, m: nat, r: State)
    requires Inv(s) && InCall(s) && m in s.mutexes && s.mutexes[m].owner == Some(s.cur)
    requires Waiting(s, s.mutexes[m].waitQ, LOCK_WAIT) == []
    requires r == s.(mutexes := s.mutexes[m := s.mutexes[m].(owner := None)])
    ensures Inv(r)
  {
    WaitingIs(s, s.mutexes[m].waitQ, LOCK_WAIT);
    forall t | t in s.mutexes[m].waitQ
      ensures t in s.threads && s.threads[t].at.InLock? && LockerOk(r, s.threads[t], t, None)
    {
      Waiter(s, m, t);
      assert t !in Waiting(s, s.mutexes[m].waitQ, LOCK_WAIT);
    }
    OwnerKeeps(s, m, None, None, r);
  }

  lemma HandOverKeeps(s: State, m: nat, t: nat, n: State, r: State)
    requires Inv(s) && InCall(s) && m in s.mutexes && s.mutexes[m].owner == Some(s.cur)
    requires t in s.mutexes[m].waitQ && Get(s, t).state == LOCK_WAIT
    requires n == s.(mutexes := s.mutexes[m := s.mutexes[m].(owner := Some(t))]) && r == Wake(n, t)
    ensures Inv(r)
  {
    hide RunOk, ZombieOk, IoOk, HeapOk, CondOk, JoinOk, StackOk, CountOk;
    forall u | u in s.mutexes[m].waitQ
      ensures u in s.threads && s.threads[u].at.InLock? && LockerOk(n, s.threads[u], u, Some(t))
    {
      Waiter(s, m, u);
    }
    OwnerKeeps(s, m, Some(t), Some(t), n);
    Waiter(s, m, t);
    assert Fits(s.threads[t], t == s.idle, t == s.cur);
    WakeKeeps(n, Some(s.cur), Some(t), t, r);
    HandedOver(r, Some(s.cur), t);
  }

  lemma UnlockStep(s: State, m: nat)
    requires Good(s) && InCall(s) && m in s.mutexes
    ensures Good(Unlock(s, m).s)
  {
    NotIdle(s);
    var x := s.mutexes[m];
    if x.owner == Some(s.cur) {
      var w := Waiting(s, x.waitQ, LOCK_WAIT);
      if w == [] {
        ReleasedKeeps(s, m, Unlock(s, m).s);
      } else {
        WaitingIs(s, x.waitQ, LOCK_WAIT);
        assert w[0] in w;
        HandOverKeeps(s, m, w[0], s.(mutexes := s.mutexes[m := x.(owner := Some(w[0]))]), Unlock(s, m).s);
      }
    }
  }

  // ---- the second halves ----

  /** A thread that waits for a join waits alone. */
  lemma OnlyJoiner(s: State, t: nat)
    requires CondOk(s) && JoinOk(s, None) && t in s.threads && s.threads[t].at.InCond? && s.threads[t].at.c.Term?
    ensures var c := s.threads[t].at.c;
            && JoinerOk(s, s.threads[t], None) && c.t != t && c in s.conds && s.conds[c] == [t] && Without(s.conds[c], t) == []
  {
    var c := s.threads[t].at.c;
    assert t in s.conds[c];
    assert s.conds[c] == [t];
    assert [t][..0] == [];
    assert Without([t][..0], t) == [];
  }

  lemma CondDoneStep(s: State, c: CondId)
    requires Good(s) && Get(s, s.cur).at == InCond(c)
    ensures Good(CondDone(s, c).s)
  {
    hide RunOk, ZombieOk, IoOk, HeapOk, CondOk, MutexOk, JoinOk, StackOk, CountOk;
    NotIdle(s);
    var h := s.threads[s.cur];
    var u := SetThread(s, s.cur, Back(s, false)).(conds := s.conds[c := Without(WaitQ(s, c), s.cur)]);
    CondBack(s, c, false, u);
    if !h.interrupt && !h.timedOut && c.Term? {
      OnlyJoiner(s, s.cur);
      JoinLoopStep(u, c.t);
    }
  }

  lemma PollDoneStep(s: State, ready: Option<seq<PollFd>>)
    requires Good(s) && Get(s, s.cur).at == InPoll(ready)
    ensures Good(PollDone(s, ready).s)
  {
    NotIdle(s);
    assert Fits(s.threads[s.cur], false, true);
    if ready == None {
      PollBack(s, false, PollDone(s, ready).s);
    } else {
      PlainBack(s, false, PollDone(s, ready).s);
    }
  }

  lemma LockDoneStep(s: State, m: nat)
    requires Good(s) && Get(s, s.cur).at == InLock(m)
    ensures m in s.mutexes && Good(LockDone(s, m).s)
  {
    NotIdle(s);
    assert Fits(s.threads[s.cur], false, true) && LockerOk(s, s.threads[s.cur], s.cur, None);
    LockBack(s, m, if s.mutexes[m].owner != Some(s.cur) then false else s.threads[s.cur].interrupt, LockDone(s, m).s);
  }

  lemma ResumeStep(s: State)
    requires Good(s) && !InCall(s) && !Get(s, s.cur).at.InIdle?
    ensures Good(Resume(s).s)
  {
    hide RunOk, ZombieOk, IoOk, HeapOk, CondOk, MutexOk, JoinOk, StackOk, CountOk, PollDone, CondDone, LockDone, ExitDone;
    NotIdle(s);
    assert Fits(s.threads[s.cur], false, true);
    var h := s.threads[s.cur];
    if h.at.Start? || h.at.InYield? { PlainBack(s, h.interrupt, Resume(s).s); }
    match h.at {
      case InPoll(ready) => PollDoneStep(s, ready);
      case InCond(c) => CondDoneStep(s, c);
      case InLock(m) => LockDoneStep(s, m);
      case InExit => ExitDoneStep(s);
      case InSleep => PlainBack(s, false, Resume(s).s);
      case _ =>
    }
  }

  /** Dispatch leaves the record of the idle thread alone. */
  lemma IdleUntouched(s: State, fired: Fired)
    requires Inv(s) && s.cur == s.idle && s.runQ == []
    ensures var d := Dispatch(s, fired);
            d.cur == s.cur && d.idle == s.idle && s.cur in d.threads && d.threads[s.cur] == s.threads[s.cur]
  {
    DispatchKeeps(s, fired, Dispatch(s, fired));
    if fired != [] {
      MovedOrKept(s.ioQ, Revents(s, fired));
      if s.cur in Threads(s.ioQ) { PollersWait(s, s.cur); }
    }
  }

  lemma IdleStep(s: State, fired: Fired, now: int)
    requires Good(s) && Get(s, s.cur).at.InIdle?
    ensures Good(IdleTurn(s, fired, now).s)
  {
    hide RunOk, ZombieOk, IoOk, HeapOk, CondOk, MutexOk, JoinOk, StackOk, CountOk;
    assert Fits(s.threads[s.cur], s.cur == s.idle, true);
    var d := Dispatch(s, fired);
    var c := CheckClock(d, now);
    DispatchKeeps(s, fired, d);
    IdleUntouched(s, fired);
    CheckClockKeeps(d, Some(d.cur), now, c);
    RunnerUntouched(d, c, Popped(d.sleepQ, now), now);
    var r := Suspend(c, RUNNABLE, InIdle, None);
    IdleBlocks(c, r);
    BlockedIsGood(r);
  }

  lemma CondStep(s: State, c: CondId)
    requires Good(s) && InCall(s) && c.User?
    ensures Good(CondNew(s).s) && Good(CondDestroy(s, c).s)
  {
    NotIdle(s);
    CondNewKeeps(s, CondNew(s).s);
    if WaitQ(s, c) == [] { CondDestroyKeeps(s, c, CondDestroy(s, c).s); }
  }

  lemma MutexStep(s: State, m: nat)
    requires Good(s) && InCall(s)
    ensures Good(MutexNew(s).s) && (m in s.mutexes ==> Good(MutexDestroy(s, m).s))
  {
    NotIdle(s);
    MutexNewKeeps(s, MutexNew(s).s);
    if m in s.mutexes && s.mutexes[m] == Mutex(None, []) { MutexDestroyKeeps(s, m, MutexDestroy(s, m).s); }
  }

  lemma SignalStep(s: State, c: CondId, broadcast: bool)
    requires Good(s) && InCall(s) && c in s.conds && c.User?
    ensures Good(Signal(s, c, broadcast))
  {
    NotIdle(s);
    SignalKeeps(s, Some(s.cur), None, c, broadcast);
  }

  // ---- whole runs ----

  /** Every step of every thread keeps every queue in agreement with the thread records. */
  lemma StepKeeps(s: State, step: Step)
    requires Good(s) && Enabled(s, step)
    ensures Good(Do(s, step).s)
  {
    hide Good, Poll, Yield, Interrupt, Exit, Join, Create, Usleep, CondWait, Signal, Lock, Unlock, Trylock, Resume, IdleTurn;
    hide CondNew, CondDestroy, MutexNew, MutexDestroy;
    match step {
      case DoPoll(pds, timeout, added) => PollStep(s, pds, timeout, added);
      case DoYield(now) => YieldStep(s, now);
      case DoInterrupt(t) => InterruptStep(s, t);
      case DoExit(retval) => ExitStep(s, retval);
      case DoJoin(u) => JoinStep(s, u);
      case DoCreate(joinable, stackOk, condOk) => CreateStep(s, joinable, stackOk, condOk);
      case DoUsleep(timeout) => UsleepStep(s, timeout);
      case DoCondWait(c, timeout) => CondWaitStep(s, c, timeout);
      case DoSignal(c, broadcast) => SignalStep(s, c, broadcast);
      case DoLock(m) => LockStep(s, m);
      case DoUnlock(m) => UnlockStep(s, m);
      case DoTrylock(m) => TrylockStep(s, m);
      case DoResume => ResumeStep(s);
      case DoIdle(fired, now) => IdleStep(s, fired, now);
      case DoCondNew => CondStep(s, User(s.nextId));
      case DoCondDestroy(c) => CondStep(s, c);
      case DoMutexNew => MutexStep(s, s.nextId);
      case DoMutexDestroy(m) => MutexStep(s, m);
    }
  }

  lemma InitIsGood()
    ensures Good(INIT)
  {
    assert Active(INIT) == {1};
  }

  ghost predicate Follows(s: State, step: Step, r: State) {
    Enabled(s, step) && r == Do(s, step).s
  }

  /** The states that a sequence of steps from the start goes through. */
  ghost predicate IsRun(ss: seq<State>, steps: seq<Step>) {
    && |ss| == |steps| + 1
    && if steps == [] then ss[0] == INIT
       else
         var n := |steps| - 1;
         IsRun(ss[..n + 1], steps[..n]) && Follows(ss[n], steps[n], ss[n + 1])
  }

  lemma {:induction false} RunsAreGood(ss: seq<State>, steps: seq<Step>, i: nat)
    requires IsRun(ss, steps) && i < |ss|
    ensures Good(ss[i])
  {
    hide Do, Good;
    if steps == [] {
      InitIsGood();
    } else {
      var n := |steps| - 1;
      RunsAreGood(ss[..n + 1], steps[..n], if i <= n then i else n);
      if i > n { StepKeeps(ss[n], steps[n]); }
    }
  }

  /** One step of a run. */
  lemma {:induction false} RunStep(ss: seq<State>, steps: seq<Step>, i: nat)
    requires IsRun(ss, steps) && i < |steps|
    ensures Good(ss[i]) && Follows(ss[i], steps[i], ss[i + 1]) && Good(ss[i + 1])
  {
    hide Do, Good, Follows;
    RunsAreGood(ss, steps, i);
    RunsAreGood(ss, steps, i + 1);
    var n := |steps| - 1;
    if i < n { RunStep(ss[..n + 1], steps[..n], i); }
  }

  lemma RunStart(ss: seq<State>, steps: seq<Step>)
    requires IsRun(ss, steps)
    ensures ss[0] == INIT
  {
    if steps != [] { RunStart(ss[..|steps|], steps[..|steps| - 1]); }
  }
}
