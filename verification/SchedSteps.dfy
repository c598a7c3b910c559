/** Each step of the scheduler keeps its invariant. */
module SchedSteps {
  import opened Basics
  import opened Epoll
  import opened SchedQueues
  import opened SchedModel
  import opened SchedInvariant

  // ---- the running thread leaves the processor ----

  /** What Suspend does to the sleep queue; w is s but for the I/O or a wait queue. */
  lemma SuspendHeap(s: State, w: State, st: TState, at: Place, timeout: Option<int>, r: State)
    requires HeapOk(s) && s.cur in s.threads && !s.threads[s.cur].onSleepQ
    requires w == s.(ioQ := w.ioQ, conds := w.conds) && r == Suspend(w, st, at, timeout)
    ensures var h := s.threads[s.cur].(state := st, at := at, onSleepQ := timeout.Some?);
            HeapMoves(s, r, s.cur, h) && r == SetThread(w, s.cur, h).(sleepQ := r.sleepQ)
  {
    match timeout
    case None =>
    case Some(d) => HeapAdd(s.sleepQ, s.cur, s.lastClock + d);
  }

  lemma SleepingOff(s: State, h: Thread, r: State)
    requires Inv(s) && Get(s, s.cur).at.InUser? && HeapMoves(s, r, s.cur, h)
    requires h == Get(s, s.cur).(state := h.state, at := InSleep, onSleepQ := h.onSleepQ)
    requires h.state == if h.onSleepQ then SLEEPING else SUSPENDED
    requires r == SetThread(s, s.cur, h).(sleepQ := r.sleepQ)
    ensures Core(r, None, None)
  {
    hide RunOk, ZombieOk, IoOk, HeapOk, CondOk, MutexOk, JoinOk, StackOk, CountOk, Moves, HeapMoves, CondMoves, MutexMoves, JoinMoves;
    var t := s.cur;
    assert Fits(s.threads[t], t == s.idle, true);
    RunStay(s, r, t, h);
    ListsStay(s, r, t, h);
    CondStay(s, r, t, h);
    MutexStay(s, r, t, h, None);
    JoinStay(s, r, t, h, None);
    Turn(s, r, t, h, Some(t), None, None, None);
  }

  lemma UsleepBlocks(s: State, timeout: Option<int>, r: State)
    requires Inv(s) && Get(s, s.cur).at.InUser?
    requires r == Suspend(s, if timeout.Some? then SLEEPING else SUSPENDED, InSleep, timeout)
    ensures Core(r, None, None)
  {
    assert Fits(s.threads[s.cur], s.cur == s.idle, true);
    SuspendHeap(s, s, if timeout.Some? then SLEEPING else SUSPENDED, InSleep, timeout, r);
    SleepingOff(s, Get(r, s.cur), r);
  }

  lemma PollEnter(s: State, t: nat, pds: seq<PollFd>)
    requires IoOk(s) && t in s.threads && s.threads[t].at != InPoll(None)
    ensures Moves(Threads(s.ioQ), Threads(s.ioQ + [Pollq(t, pds)]), t, true)
  {
    assert Threads(s.ioQ + [Pollq(t, pds)]) == Threads(s.ioQ) + [t] by { assert (s.ioQ + [Pollq(t, pds)])[..|s.ioQ|] == s.ioQ; }
    AppendMoves(Threads(s.ioQ), t);
  }

  lemma PollingOff(s: State, pds: seq<PollFd>, h: Thread, r: State)
    requires Inv(s) && Get(s, s.cur).at.InUser? && HeapMoves(s, r, s.cur, h)
    requires h == Get(s, s.cur).(state := IO_WAIT, at := InPoll(None), onSleepQ := h.onSleepQ)
    requires r == SetThread(s, s.cur, h).(ioQ := s.ioQ + [Pollq(s.cur, pds)], sleepQ := r.sleepQ)
    ensures Core(r, None, None)
  {
    hide RunOk, ZombieOk, IoOk, HeapOk, CondOk, MutexOk, JoinOk, StackOk, CountOk, Moves, HeapMoves, CondMoves, MutexMoves, JoinMoves;
    var t := s.cur;
    assert Fits(s.threads[t], t == s.idle, true);
    PollEnter(s, t, pds);
    RunStay(s, r, t, h);
    ListsStay(s, r, t, h);
    CondStay(s, r, t, h);
    MutexStay(s, r, t, h, None);
    JoinStay(s, r, t, h, None);
    Turn(s, r, t, h, Some(t), None, None, None);
  }

  lemma PollBlocks(s: State, pds: seq<PollFd>, timeout: Option<int>, r: State)
    requires Inv(s) && Get(s, s.cur).at.InUser?
    requires r == Suspend(s.(ioQ := s.ioQ + [Pollq(s.cur, pds)]), IO_WAIT, InPoll(None), timeout)
    ensures Core(r, None, None)
  {
    assert Fits(s.threads[s.cur], s.cur == s.idle, true);
    SuspendHeap(s, s.(ioQ := s.ioQ + [Pollq(s.cur, pds)]), IO_WAIT, InPoll(None), timeout, r);
    PollingOff(s, pds, Get(r, s.cur), r);
  }

  /** A termination variable keeps at most one waiter. */
  lemma JoinersAre(s: State, c: CondId, q: seq<nat>)
    requires JoinOk(s, None) && (c.Term? ==> |q| <= 1)
    ensures forall d :: d in s.conds[c := q] && d.Term? ==> |s.conds[c := q][d]| <= 1
  {
  }

  lemma WaitingOff(s: State, c: CondId, h: Thread, r: State)
    requires Inv(s) && Get(s, s.cur).at.InUser? && c in s.conds && HeapMoves(s, r, s.cur, h)
    requires c.Term? ==> c.t != s.cur && s.conds[c] == [] && Get(s, c.t).state != ZOMBIE && !h.onSleepQ
    requires h == Get(s, s.cur).(state := COND_WAIT, at := InCond(c), onSleepQ := h.onSleepQ)
    requires r == SetThread(s, s.cur, h).(conds := s.conds[c := s.conds[c] + [s.cur]], sleepQ := r.sleepQ)
    ensures Core(r, None, None)
  {
    hide RunOk, ZombieOk, IoOk, HeapOk, CondOk, MutexOk, JoinOk, StackOk, CountOk, Moves, HeapMoves, CondMoves, MutexMoves, JoinMoves;
    var t := s.cur;
    assert Fits(s.threads[t], t == s.idle, true);
    RunStay(s, r, t, h);
    ListsStay(s, r, t, h);
    CondEnter(s, r, t, h, c);
    MutexStay(s, r, t, h, None);
    JoinersAre(s, c, s.conds[c] + [t]);
    JoinKeep(s, r, t, h);
    Turn(s, r, t, h, Some(t), None, None, None);
  }

  lemma CondBlocks(s: State, c: CondId, timeout: Option<int>, r: State)
    requires Inv(s) && Get(s, s.cur).at.InUser? && c in s.conds
    requires c.Term? ==> c.t != s.cur && s.conds[c] == [] && Get(s, c.t).state != ZOMBIE && timeout == None
    requires r == Suspend(s.(conds := s.conds[c := WaitQ(s, c) + [s.cur]]), COND_WAIT, InCond(c), timeout)
    ensures Core(r, None, None)
  {
    assert Fits(s.threads[s.cur], s.cur == s.idle, true);
    SuspendHeap(s, s.(conds := s.conds[c := WaitQ(s, c) + [s.cur]]), COND_WAIT, InCond(c), timeout, r);
    WaitingOff(s, c, Get(r, s.cur), r);
  }

  lemma LockBlocks(s: State, m: nat, r: State)
    requires Inv(s) && Get(s, s.cur).at.InUser? && m in s.mutexes
    requires s.mutexes[m].owner != None && s.mutexes[m].owner != Some(s.cur)
    requires var x := s.mutexes[m];
             r == Suspend(s.(mutexes := s.mutexes[m := x.(waitQ := x.waitQ + [s.cur])]), LOCK_WAIT, InLock(m), None)
    ensures Core(r, None, None)
  {
    hide RunOk, ZombieOk, IoOk, HeapOk, CondOk, MutexOk, JoinOk, StackOk, CountOk, Moves, HeapMoves, CondMoves, MutexMoves, JoinMoves;
    var t := s.cur;
    var h := Get(r, t);
    assert Fits(s.threads[t], t == s.idle, true);
    RunStay(s, r, t, h);
    ListsStay(s, r, t, h);
    HeapStay(s, r, t, h);
    CondStay(s, r, t, h);
    MutexEnter(s, r, t, h, m);
    JoinStay(s, r, t, h, None);
    Turn(s, r, t, h, Some(t), None, None, None);
  }

  lemma YieldBlocks(s: State, r: State)
    requires Inv(s) && Get(s, s.cur).at.InUser?
    requires r == Suspend(s, RUNNABLE, InYield, None).(runQ := s.runQ + [s.cur])
    ensures Core(r, None, None)
  {
    hide RunOk, ZombieOk, IoOk, HeapOk, CondOk, MutexOk, JoinOk, StackOk, CountOk, Moves, HeapMoves, CondMoves, MutexMoves, JoinMoves;
    var t := s.cur;
    var h := Get(r, t);
    assert Fits(s.threads[t], t == s.idle, true);
    RunEnter(s, t);
    ListsStay(s, r, t, h);
    HeapStay(s, r, t, h);
    CondStay(s, r, t, h);
    MutexStay(s, r, t, h, None);
    JoinStay(s, r, t, h, None);
    Turn(s, r, t, h, Some(t), None, None, None);
  }

  lemma IdleBlocks(s: State, r: State)
    requires Inv(s) && Get(s, s.cur).at.InIdle? && r == Suspend(s, RUNNABLE, InIdle, None)
    ensures Core(r, None, None)
  {
    hide RunOk, ZombieOk, IoOk, HeapOk, CondOk, MutexOk, JoinOk, StackOk, CountOk, Moves, HeapMoves, CondMoves, MutexMoves, JoinMoves;
    var t := s.cur;
    var h := Get(r, t);
    assert Fits(s.threads[t], t == s.idle, true);
    RunStay(s, r, t, h);
    ListsStay(s, r, t, h);
    HeapStay(s, r, t, h);
    CondStay(s, r, t, h);
    MutexStay(s, r, t, h, None);
    JoinStay(s, r, t, h, None);
    Turn(s, r, t, h, Some(t), None, None, None);
  }

  lemma ZombieEnter(s: State, t: nat)
    requires ZombieOk(s) && t in s.threads && s.threads[t].state != ZOMBIE
    ensures Moves(s.zombieQ, s.zombieQ + [t], t, true)
  {
    AppendMoves(s.zombieQ, t);
  }

  lemma MutexExit(s: State, r: State, t: nat, h: Thread)
    requires MutexMoves(s, r, t, h, None, None) && !h.at.InLock?
    ensures MutexMoves(s, r, t, h, None, Some(t))
  {
  }

  lemma JoinExit(s: State, r: State, t: nat, h: Thread)
    requires JoinOk(s, None) && t in s.threads && r.conds == s.conds && h.term == s.threads[t].term
    requires s.threads[t].state != ZOMBIE && h.state == ZOMBIE && !h.at.InCond?
    ensures JoinMoves(s, r, t, h, None, Some(t))
  {
  }

  /** A joinable thread becomes a zombie whose joiner is still to be signalled. */
  lemma ZombieBlocks(s: State, r: State, h: Thread)
    requires Inv(s) && Get(s, s.cur).at.InUser? && Get(s, s.cur).term
    requires h == Get(s, s.cur).(state := ZOMBIE, at := InExit, retval := h.retval)
    requires r == SetThread(s, s.cur, h).(activeCount := s.activeCount - 1, zombieQ := s.zombieQ + [s.cur])
    ensures Core(r, None, Some(s.cur))
  {
    hide RunOk, ZombieOk, IoOk, HeapOk, CondOk, MutexOk, JoinOk, StackOk, CountOk, Moves, HeapMoves, CondMoves, MutexMoves, JoinMoves;
    var t := s.cur;
    assert Fits(s.threads[t], t == s.idle, true);
    ZombieEnter(s, t);
    RunStay(s, r, t, h);
    ListsStay(s, r, t, h);
    HeapStay(s, r, t, h);
    CondStay(s, r, t, h);
    MutexStay(s, r, t, h, None);
    MutexExit(s, r, t, h);
    JoinExit(s, r, t, h);
    Turn(s, r, t, h, Some(t), None, None, Some(t));
  }

  lemma FreedMoves(q: seq<nat>, t: nat)
    requires NoDup(q) && t !in q
    ensures Moves(q, if q == [] then [t] else q[..|q| - 1] + [t, q[|q| - 1]], t, true)
  {
    if q != [] {
      var n := |q| - 1;
      var r := q[..n] + [t, q[n]];
      assert q == q[..n] + [q[n]];
      assert forall u :: u in r <==> u in q[..n] || u == t || u == q[n];
    }
  }

  /** A termination variable that nobody waits for may go with its thread. */
  lemma GoneConds(s: State, r: State, t: nat, g: Thread)
    requires CondOk(s) && JoinOk(s, None) && t in s.threads && !s.threads[t].at.InCond? && !g.at.InCond? && s.nextId <= r.nextId
    requires r.conds == s.conds || (r.conds == s.conds - {Term(t)} && WaitQ(s, Term(t)) == [])
    requires !g.term && g.state != ZOMBIE && s.threads[t].state != ZOMBIE
    ensures CondMoves(s, r, t, g) && JoinMoves(s, r, t, g, None, None)
  {
  }

  /** The last of a thread: its stack goes to the free list. */
  lemma GoneOff(s: State, g: Thread, r: State)
    requires Inv(s) && (Get(s, s.cur).at.InUser? || Get(s, s.cur).at.InExit?)
    requires g == Get(s, s.cur).(state := RUNNING, at := Gone, term := false, retval := g.retval)
    requires r == SetThread(s, s.cur, g).(
               activeCount := if Get(s, s.cur).at.InUser? then s.activeCount - 1 else s.activeCount,
               conds := if Get(s, s.cur).at.InExit? && WaitQ(s, Term(s.cur)) == [] then s.conds - {Term(s.cur)} else s.conds,
               freeStacks := r.freeStacks, numFreeStacks := |r.freeStacks|)
    requires Moves(s.freeStacks, r.freeStacks, s.cur, !g.primordial)
    ensures Core(r, None, None)
  {
    hide RunOk, ZombieOk, IoOk, HeapOk, CondOk, MutexOk, JoinOk, StackOk, CountOk, Moves, HeapMoves, CondMoves, MutexMoves, JoinMoves;
    var t := s.cur;
    assert Fits(s.threads[t], t == s.idle, true);
    RunStay(s, r, t, g);
    ListsStay(s, r, t, g);
    HeapStay(s, r, t, g);
    GoneConds(s, r, t, g);
    MutexStay(s, r, t, g, None);
    Turn(s, r, t, g, Some(t), None, None, None);
  }

  lemma StackEnter(s: State, t: nat)
    requires StackOk(s) && t in s.threads && !s.threads[t].at.Gone?
    ensures var q := s.freeStacks;
            && Moves(q, if q == [] then [t] else q[..|q| - 1] + [t, q[|q| - 1]], t, true) && Moves(q, q, t, false)
            && s.numFreeStacks == |q|
  {
    FreedMoves(s.freeStacks, t);
  }

  lemma VanishBlocks(s: State, h: Thread, active: int, conds: map<CondId, seq<nat>>, r: State)
    requires Inv(s) && (Get(s, s.cur).at.InUser? || Get(s, s.cur).at.InExit?)
    requires h == Get(s, s.cur).(term := false, retval := h.retval)
    requires active == if Get(s, s.cur).at.InUser? then s.activeCount - 1 else s.activeCount
    requires conds == if Get(s, s.cur).at.InExit? && WaitQ(s, Term(s.cur)) == [] then s.conds - {Term(s.cur)} else s.conds
    requires r == Vanish(s.(activeCount := active, conds := conds), h)
    ensures Core(r, None, None)
  {
    hide RunOk, ZombieOk, IoOk, HeapOk, CondOk, MutexOk, JoinOk, StackOk, CountOk, Moves, HeapMoves, CondMoves, MutexMoves, JoinMoves;
    assert Fits(s.threads[s.cur], s.cur == s.idle, true);
    StackEnter(s, s.cur);
    GoneOff(s, h.(state := RUNNING, at := Gone), r);
  }

  // ---- the running thread returns to its caller ----

  ghost function Back(s: State, interrupt: bool): Thread {
    Get(s, s.cur).(at := InUser, interrupt := interrupt, timedOut := false)
  }

  /** Back from a call that left the thread on no list. */
  lemma PlainBack(s: State, interrupt: bool, r: State)
    requires Inv(s)
    requires var at := Get(s, s.cur).at; at.Start? || at.InUser? || at.InSleep? || at.InYield? || (at.InPoll? && at.ready.Some?)
    requires r == SetThread(s, s.cur, Back(s, interrupt))
    ensures Inv(r)
  {
    hide RunOk, ZombieOk, IoOk, HeapOk, CondOk, MutexOk, JoinOk, StackOk, CountOk, Moves, HeapMoves, CondMoves, MutexMoves, JoinMoves;
    var t, h := s.cur, Back(s, interrupt);
    assert Fits(s.threads[t], t == s.idle, true);
    RunStay(s, r, t, h);
    ListsStay(s, r, t, h);
    HeapStay(s, r, t, h);
    CondStay(s, r, t, h);
    MutexStay(s, r, t, h, None);
    JoinStay(s, r, t, h, None);
    Turn(s, r, t, h, Some(t), Some(t), None, None);
  }

  lemma PollLeave(s: State, t: nat)
    requires IoOk(s)
    ensures Moves(Threads(s.ioQ), Threads(WithoutPoll(s.ioQ, t)), t, false)
  {
  }

  lemma PollBack(s: State, interrupt: bool, r: State)
    requires Inv(s) && Get(s, s.cur).at == InPoll(None)
    requires r == SetThread(s, s.cur, Back(s, interrupt)).(ioQ := WithoutPoll(s.ioQ, s.cur))
    ensures Inv(r)
  {
    hide RunOk, ZombieOk, IoOk, HeapOk, CondOk, MutexOk, JoinOk, StackOk, CountOk, Moves, HeapMoves, CondMoves, MutexMoves, JoinMoves;
    var t, h := s.cur, Back(s, interrupt);
    assert Fits(s.threads[t], t == s.idle, true);
    RunStay(s, r, t, h);
    PollLeave(s, t);
    ListsStay(s, r, t, h);
    HeapStay(s, r, t, h);
    CondStay(s, r, t, h);
    MutexStay(s, r, t, h, None);
    JoinStay(s, r, t, h, None);
    Turn(s, r, t, h, Some(t), Some(t), None, None);
  }

  lemma WaitedFor(s: State, t: nat)
    requires CondOk(s) && JoinOk(s, None) && t in s.threads && s.threads[t].at.InCond?
    ensures var c := s.threads[t].at.c; c in s.conds && (c.Term? ==> |s.conds[c]| <= 1)
  {
  }

  lemma CondBack(s: State, c: CondId, interrupt: bool, r: State)
    requires Inv(s) && Get(s, s.cur).at == InCond(c)
    requires r == SetThread(s, s.cur, Back(s, interrupt)).(conds := s.conds[c := Without(WaitQ(s, c), s.cur)])
    ensures c in s.conds && Inv(r)
  {
    hide RunOk, ZombieOk, IoOk, HeapOk, CondOk, MutexOk, JoinOk, StackOk, CountOk, Moves, HeapMoves, CondMoves, MutexMoves, JoinMoves;
    var t, h := s.cur, Back(s, interrupt);
    assert Fits(s.threads[t], t == s.idle, true);
    RunStay(s, r, t, h);
    ListsStay(s, r, t, h);
    HeapStay(s, r, t, h);
    WaitedFor(s, t);
    CondLeave(s, r, t, h, c);
    MutexStay(s, r, t, h, None);
    if c.Term? { SingleWithout(s.conds[c], t); }
    JoinersAre(s, c, Without(s.conds[c], t));
    JoinKeep(s, r, t, h);
    Turn(s, r, t, h, Some(t), Some(t), None, None);
  }

  lemma SingleWithout(q: seq<nat>, t: nat)
    requires |q| <= 1
    ensures |Without(q, t)| <= 1
  {
  }

  lemma LockBack(s: State, m: nat, interrupt: bool, r: State)
    requires Inv(s) && Get(s, s.cur).at == InLock(m) && m in s.mutexes
    requires var x := s.mutexes[m];
             r == SetThread(s, s.cur, Back(s, interrupt)).(mutexes := s.mutexes[m := x.(waitQ := Without(x.waitQ, s.cur))])
    ensures Inv(r)
  {
    hide RunOk, ZombieOk, IoOk, HeapOk, CondOk, MutexOk, JoinOk, StackOk, CountOk, Moves, HeapMoves, CondMoves, MutexMoves, JoinMoves;
    var t, h := s.cur, Back(s, interrupt);
    assert Fits(s.threads[t], t == s.idle, true);
    RunStay(s, r, t, h);
    ListsStay(s, r, t, h);
    HeapStay(s, r, t, h);
    CondStay(s, r, t, h);
    MutexLeave(s, r, t, h, m);
    JoinStay(s, r, t, h, None);
    Turn(s, r, t, h, Some(t), Some(t), None, None);
  }

  // ---- other threads and objects ----

  lemma ZombieLeave(s: State, u: nat)
    requires ZombieOk(s)
    ensures Moves(s.zombieQ, Without(s.zombieQ, u), u, false)
  {
  }

  lemma JoinRelease(s: State, r: State, u: nat, h: Thread)
    requires JoinOk(s, None) && u in s.threads && NoJoiner(s, u) && r.conds == s.conds && h.term == s.threads[u].term
    requires h.state != ZOMBIE && !h.at.InCond?
    ensures JoinMoves(s, r, u, h, None, None)
  {
  }

  /** A join makes the zombie runnable, so that it can finish its exit. */
  lemma ReleaseKeeps(s: State, u: nat, r: State)
    requires Inv(s) && Get(s, u).state == ZOMBIE && NoJoiner(s, u)
    requires r == SetThread(s, u, Get(s, u).(state := RUNNABLE)).(zombieQ := Without(s.zombieQ, u), runQ := s.runQ + [u])
    ensures Inv(r)
  {
    hide RunOk, ZombieOk, IoOk, HeapOk, CondOk, MutexOk, JoinOk, StackOk, CountOk, Moves, HeapMoves, CondMoves, MutexMoves, JoinMoves;
    var h := Get(s, u).(state := RUNNABLE);
    assert Fits(s.threads[u], u == s.idle, u == s.cur);
    RunEnter(s, u);
    ZombieLeave(s, u);
    Waits(s, u, None);
    ListsStay(s, r, u, h);
    HeapStay(s, r, u, h);
    CondStay(s, r, u, h);
    MutexStay(s, r, u, h, None);
    JoinRelease(s, r, u, h);
    Turn(s, r, u, h, Some(s.cur), Some(s.cur), None, None);
  }

  /** A new thread record: put on the run queue, or never started and its stack free. */
  lemma NewcomerKeeps(s: State, r: State, h: Thread)
    requires Inv(s) && Changed(s, r, s.nextId, h) && r.nextId == s.nextId + 1 && r.cur == s.cur
    requires h == NOBODY.(term := h.term) || h == NOBODY.(at := Start, state := RUNNABLE, term := h.term)
    requires r.zombieQ == s.zombieQ && r.ioQ == s.ioQ && r.sleepQ == s.sleepQ && r.mutexes == s.mutexes
    requires r.conds == if h.term then s.conds[Term(s.nextId) := []] else s.conds
    requires Moves(s.runQ, r.runQ, s.nextId, h.at.Start?)
    requires Moves(s.freeStacks, r.freeStacks, s.nextId, h.at.Gone?) && r.numFreeStacks == |r.freeStacks|
    requires r.activeCount == s.activeCount + if h.at.Start? then 1 else 0
    ensures Inv(r)
  {
    NewOnLists(s, Some(s.cur));
    assert s.idle != s.nextId && s.cur != s.nextId;
    NewOnHeap(s, r, h);
    NewOnConds(s, r, h);
    NewOnMutexes(s, r, h);
    NewJoin(s, r, h);
    Turn(s, r, s.nextId, h, Some(s.cur), Some(s.cur), None, None);
  }

  lemma CreateKeeps(s: State, h: Thread, r: State)
    requires Inv(s) && h == NOBODY.(at := Start, state := RUNNABLE, term := h.term)
    requires r == SetThread(s, s.nextId, h).(nextId := s.nextId + 1, runQ := s.runQ + [s.nextId],
                    activeCount := s.activeCount + 1,
                    conds := if h.term then s.conds[Term(s.nextId) := []] else s.conds)
    ensures Inv(r)
  {
    NewOnLists(s, Some(s.cur));
    AppendMoves(s.runQ, s.nextId);
    NewcomerKeeps(s, r, h);
  }

  /** A thread record that was allocated but never started. */
  lemma StillbornKeeps(s: State, r: State)
    requires Inv(s) && r == FreeStack(SetThread(s, s.nextId, NOBODY).(nextId := s.nextId + 1), s.nextId)
    ensures Inv(r)
  {
    NewOnLists(s, Some(s.cur));
    FreedMoves(s.freeStacks, s.nextId);
    NewcomerKeeps(s, r, NOBODY);
  }

  /** A thread whose stack is on the free list is neither running nor on any queue. */
  lemma FreedIsNowhere(s: State, t: nat)
    requires Inv(s) && t in s.freeStacks
    ensures t in s.threads && s.threads[t].at.Gone? && s.threads[t].state == RUNNING && t != s.cur && t != s.idle
    ensures !s.threads[t].onSleepQ
    ensures t !in s.runQ && t !in s.zombieQ && t !in Threads(s.ioQ) && !OnHeap(s.sleepQ, t)
    ensures forall c :: c in s.conds ==> t !in s.conds[c]
    ensures forall m :: m in s.mutexes ==> t !in s.mutexes[m].waitQ
  {
    assert Fits(s.threads[t], t == s.idle, s.cur == t);
  }

  /** The threads on the free list can go. */
  ghost predicate Removable(s: State) {
    forall t :: t in s.freeStacks ==>
      t in s.threads && t != s.cur && t != s.idle && s.threads[t].at.Gone? && s.threads[t].state == RUNNING && !s.threads[t].onSleepQ
  }

  lemma UnmapLists(s: State)
    requires Inv(s) && Removable(s)
    ensures var r := Unmap(s); ShapeOk(r, Some(s.cur)) && RunOk(r) && ZombieOk(r) && IoOk(r) && HeapOk(r)
  {
    hide CondOk, MutexOk, JoinOk, StackOk, CountOk;
  }

  lemma UnmapConds(s: State)
    requires CondOk(s) && JoinOk(s, None) && Removable(s)
    ensures CondOk(Unmap(s)) && JoinOk(Unmap(s), None)
  {
    var r := Unmap(s);
    forall t | t in r.threads && r.threads[t].at.InCond? && r.threads[t].at.c.Term?
      ensures JoinerOk(r, r.threads[t], None)
    {
      assert JoinerOk(s, s.threads[t], None);
    }
  }

  lemma UnmapMutexes(s: State)
    requires MutexOk(s, None) && Removable(s)
    ensures MutexOk(Unmap(s), None)
  {
    var r := Unmap(s);
    forall t | t in r.threads && r.threads[t].at.InLock?
      ensures LockerOk(r, r.threads[t], t, None)
    {
      assert LockerOk(s, s.threads[t], t, None);
    }
  }

  lemma UnmapCounts(s: State)
    requires StackOk(s) && CountOk(s) && Removable(s)
    ensures StackOk(Unmap(s)) && CountOk(Unmap(s)) && Unmap(s).numFreeStacks == 0
  {
    assert Active(Unmap(s)) == Active(s);
  }

  /** So unmapping the free stacks takes no member from any queue. */
  lemma UnmapKeeps(s: State)
    requires Inv(s)
    ensures Inv(Unmap(s)) && Unmap(s).numFreeStacks == 0
  {
    hide ShapeOk, RunOk, ZombieOk, IoOk, HeapOk, CondOk, MutexOk, JoinOk, StackOk, CountOk;
    forall t | t in s.freeStacks
      ensures t in s.threads && t != s.cur && t != s.idle && s.threads[t].at.Gone?
              && s.threads[t].state == RUNNING && !s.threads[t].onSleepQ
    {
      FreedIsNowhere(s, t);
    }
    UnmapLists(s);
    UnmapConds(s);
    UnmapMutexes(s);
    UnmapCounts(s);
  }

  /** The objects change, no thread does. */
  lemma ObjectsKeep(s: State, r: State)
    requires Inv(s) && r == s.(conds := r.conds, mutexes := r.mutexes, nextId := r.nextId) && s.nextId <= r.nextId
    requires CondMoves(s, r, s.cur, s.threads[s.cur]) && MutexMoves(s, r, s.cur, s.threads[s.cur], None, None)
    requires JoinMoves(s, r, s.cur, s.threads[s.cur], None, None)
    ensures Inv(r)
  {
    hide RunOk, ZombieOk, IoOk, HeapOk, CondOk, MutexOk, JoinOk, StackOk, CountOk, Moves, HeapMoves, CondMoves, MutexMoves, JoinMoves;
    var t := s.cur;
    var h := s.threads[t];
    assert s.threads[t := h] == s.threads;
    RunStay(s, r, t, h);
    Waits(s, t, None);
    ListsStay(s, r, t, h);
    HeapStay(s, r, t, h);
    Turn(s, r, t, h, Some(t), Some(t), None, None);
  }

  lemma NewNames(s: State)
    requires CondOk(s) && MutexOk(s, None)
    ensures User(s.nextId) !in s.conds && s.nextId !in s.mutexes
  {
  }

  /** A condition variable without waiters comes or goes. */
  lemma CondObject(s: State, r: State, c: CondId)
    requires CondOk(s) && s.cur in s.threads && c.User? && s.nextId <= r.nextId && WaitQ(s, c) == [] && r.threads == s.threads
    requires (r.conds == s.conds[c := []] && c.n < r.nextId) || r.conds == s.conds - {c}
    ensures CondMoves(s, r, s.cur, s.threads[s.cur])
  {
  }

  lemma JoinObject(s: State, r: State, c: CondId)
    requires JoinOk(s, None) && s.cur in s.threads && c.User? && r.threads == s.threads
    requires r.conds == s.conds[c := []] || r.conds == s.conds - {c}
    ensures JoinMoves(s, r, s.cur, s.threads[s.cur], None, None)
  {
  }

  /** A mutex without waiters comes or goes. */
  lemma MutexObject(s: State, r: State, m: nat)
    requires MutexOk(s, None) && s.cur in s.threads && s.nextId <= r.nextId
    requires if m in s.mutexes then s.mutexes[m].waitQ == [] && r.mutexes == s.mutexes - {m}
             else r.mutexes == s.mutexes[m := Mutex(None, [])] && m < r.nextId
    ensures MutexMoves(s, r, s.cur, s.threads[s.cur], None, None)
  {
  }

  lemma CondNewKeeps(s: State, r: State)
    requires Inv(s)
    requires r == s.(conds := s.conds[User(s.nextId) := []], nextId := s.nextId + 1)
    ensures Inv(r)
  {
    hide RunOk, ZombieOk, IoOk, HeapOk, CondOk, MutexOk, JoinOk, StackOk, CountOk, Moves, HeapMoves, CondMoves, MutexMoves, JoinMoves;
    NewNames(s);
    Waits(s, s.cur, None);
    CondObject(s, r, User(s.nextId));
    JoinObject(s, r, User(s.nextId));
    MutexStay(s, r, s.cur, s.threads[s.cur], None);
    ObjectsKeep(s, r);
  }

  lemma CondDestroyKeeps(s: State, c: CondId, r: State)
    requires Inv(s) && c.User? && WaitQ(s, c) == []
    requires r == s.(conds := s.conds - {c})
    ensures Inv(r)
  {
    hide RunOk, ZombieOk, IoOk, HeapOk, CondOk, MutexOk, JoinOk, StackOk, CountOk, Moves, HeapMoves, CondMoves, MutexMoves, JoinMoves;
    Waits(s, s.cur, None);
    CondObject(s, r, c);
    JoinObject(s, r, c);
    MutexStay(s, r, s.cur, s.threads[s.cur], None);
    ObjectsKeep(s, r);
  }

  lemma MutexNewKeeps(s: State, r: State)
    requires Inv(s)
    requires r == s.(mutexes := s.mutexes[s.nextId := Mutex(None, [])], nextId := s.nextId + 1)
    ensures Inv(r)
  {
    hide RunOk, ZombieOk, IoOk, HeapOk, CondOk, MutexOk, JoinOk, StackOk, CountOk, Moves, HeapMoves, CondMoves, MutexMoves, JoinMoves;
    NewNames(s);
    Waits(s, s.cur, None);
    MutexObject(s, r, s.nextId);
    CondStay(s, r, s.cur, s.threads[s.cur]);
    JoinStay(s, r, s.cur, s.threads[s.cur], None);
    ObjectsKeep(s, r);
  }

  lemma MutexDestroyKeeps(s: State, m: nat, r: State)
    requires Inv(s) && m in s.mutexes && s.mutexes[m].waitQ == []
    requires r == s.(mutexes := s.mutexes - {m})
    ensures Inv(r)
  {
    hide RunOk, ZombieOk, IoOk, HeapOk, CondOk, MutexOk, JoinOk, StackOk, CountOk, Moves, HeapMoves, CondMoves, MutexMoves, JoinMoves;
    Waits(s, s.cur, None);
    MutexObject(s, r, m);
    CondStay(s, r, s.cur, s.threads[s.cur]);
    JoinStay(s, r, s.cur, s.threads[s.cur], None);
    ObjectsKeep(s, r);
  }

  lemma OwnerMutexes(s: State, m: nat, pending: Option<nat>, r: State)
    requires MutexOk(s, None) && m in s.mutexes && r.threads == s.threads && r.nextId == s.nextId
    requires r.mutexes.Keys == s.mutexes.Keys && r.mutexes[m].waitQ == s.mutexes[m].waitQ
    requires forall k :: k in s.mutexes && k != m ==> r.mutexes[k] == s.mutexes[k]
    requires forall t :: t in s.mutexes[m].waitQ ==> t in s.threads && s.threads[t].at.InLock? && LockerOk(r, s.threads[t], t, pending)
    ensures MutexOk(r, pending)
  {
    forall t | t in r.threads && r.threads[t].at.InLock?
      ensures LockerOk(r, r.threads[t], t, pending)
    {
      assert LockerOk(s, s.threads[t], t, None);
    }
  }

  lemma SameJoins(s: State, pending: Option<nat>, r: State)
    requires JoinOk(s, None) && r.threads == s.threads && r.conds == s.conds
    ensures JoinOk(r, pending)
  {
    forall t | t in r.threads && r.threads[t].at.InCond? && r.threads[t].at.c.Term?
      ensures JoinerOk(r, r.threads[t], pending)
    {
      assert JoinerOk(s, s.threads[t], None);
    }
  }

  lemma SameLists(s: State, run: Option<nat>, r: State)
    requires ShapeOk(s, run) && RunOk(s) && ZombieOk(s) && IoOk(s) && HeapOk(s) && r == s.(mutexes := r.mutexes)
    ensures ShapeOk(r, run) && RunOk(r) && ZombieOk(r) && IoOk(r) && HeapOk(r)
  {
  }

  lemma SameWaits(s: State, r: State)
    requires CondOk(s) && StackOk(s) && CountOk(s) && r == s.(mutexes := r.mutexes)
    ensures CondOk(r) && StackOk(r) && CountOk(r)
  {
    assert Active(r) == Active(s);
  }

  /** A mutex changes hands in a way that its waiters may. */
  lemma OwnerKeeps(s: State, m: nat, owner: Option<nat>, pending: Option<nat>, r: State)
    requires Inv(s) && m in s.mutexes && r == s.(mutexes := s.mutexes[m := s.mutexes[m].(owner := owner)])
    requires forall t :: t in s.mutexes[m].waitQ ==> t in s.threads && s.threads[t].at.InLock? && LockerOk(r, s.threads[t], t, pending)
    ensures Core(r, Some(s.cur), pending)
  {
    hide ShapeOk, RunOk, ZombieOk, IoOk, HeapOk, CondOk, MutexOk, JoinOk, StackOk, CountOk, LockerOk;
    SameLists(s, Some(s.cur), r);
    SameWaits(s, r);
    OwnerMutexes(s, m, pending, r);
    SameJoins(s, pending, r);
  }
}
