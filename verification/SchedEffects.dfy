/** What each call does, said in terms of the state that its caller finds and the state that
    it leaves, without the functions that compute them. */
module SchedEffects {
  import opened Basics
  import opened HeapModel
  import opened Epoll
  import opened SchedQueues
  import opened SchedModel
  import opened SchedInvariant
  import opened SchedSteps
  import opened SchedRuns
  import opened SchedTheorems
  import opened SchedProgress
  import opened SchedTimeouts
  import opened SchedGuarantees

  // ---- leaving the processor ----

  function Me(s: State): Thread {
    Get(s, s.cur)
  }

  function MutexOf(s: State, k: nat): Mutex {
    if k in s.mutexes then s.mutexes[k] else Mutex(None, [])
  }

  /** In m nobody has the processor; r is m with the head of the run queue running, or the
      idle thread if nobody is on it. */
  ghost predicate SwitchesTo(m: State, r: State) {
    && r.cur in m.threads && m.threads[r.cur].state == RUNNABLE
    && r == m.(cur := r.cur, runQ := r.runQ, threads := m.threads[r.cur := m.threads[r.cur].(state := RUNNING)])
    && if m.runQ == [] then r.cur == m.idle && r.runQ == [] else m.runQ == [r.cur] + r.runQ
  }

  lemma Switches(m: State)
    requires Core(m, None, None)
    ensures SwitchesTo(m, Schedule(m))
  {
    hide ShapeOk, RunOk, ZombieOk, IoOk, HeapOk, CondOk, MutexOk, JoinOk, StackOk, CountOk;
    ScheduleKeeps(m, Schedule(m));
    ScheduleIs(m);
  }

  /** m is w with the running thread gone to wait in this state and place; with a timeout
      it sleeps until that much after the last look at the clock. */
  ghost predicate Leaves(w: State, m: State, st: TState, at: Place, timeout: Option<int>) {
    && m == w.(threads := w.threads[w.cur := Me(w).(state := st, at := at, onSleepQ := timeout.Some?)], sleepQ := m.sleepQ)
    && match timeout
       case None => m.sleepQ == w.sleepQ
       case Some(d) => Ordered(m.sleepQ) && multiset(m.sleepQ) == multiset(w.sleepQ) + multiset{Sleeper(w.cur, w.lastClock + d)}
  }

  lemma SuspendLeaves(w: State, st: TState, at: Place, timeout: Option<int>)
    requires w.cur in w.threads && !w.threads[w.cur].onSleepQ && Ordered(w.sleepQ)
    ensures Leaves(w, Suspend(w, st, at, timeout), st, at, timeout)
  {
    hide Insert, Ordered;
    if timeout.Some? { InsertCorrect(w.sleepQ, Sleeper(w.cur, w.lastClock + timeout.value)); }
  }

  /** The call returns, having changed nothing but the record of the caller. */
  ghost predicate Ends(s: State, r: Result, ret: Ret, h: Thread) {
    r.ret == Some(ret) && r.s == s.(threads := s.threads[s.cur := h])
  }

  lemma Caller(s: State)
    requires Good(s) && InCall(s)
    ensures Inv(s) && s.cur in s.threads && !s.threads[s.cur].onSleepQ && Ordered(s.sleepQ) && s.cur != s.idle
    ensures s.threads[s.cur].state == RUNNING && !s.threads[s.cur].timedOut
  {
    NotIdle(s);
    assert Fits(s.threads[s.cur], false, true);
  }

  /** The calls that may wait, from user code: with an interrupt pending they return EINTR
      at once and take it down; m is the state in which the caller gives way. */
  lemma UsleepDoes(s: State, timeout: Option<int>, r: Result) returns (m: State)
    requires Good(s) && Enabled(s, DoUsleep(timeout)) && r == Do(s, DoUsleep(timeout))
    ensures if Me(s).interrupt then Ends(s, r, Fail(EINTR), Me(s).(interrupt := false))
            else r.ret == None && SwitchesTo(m, r.s)
                 && Leaves(s, m, if timeout.Some? then SLEEPING else SUSPENDED, InSleep, timeout)
  {
    hide Core, Schedule, Suspend, Good, Insert;
    Caller(s);
    m := Suspend(s, if timeout.Some? then SLEEPING else SUSPENDED, InSleep, timeout);
    if !Me(s).interrupt {
      UsleepBlocks(s, timeout, m);
      Switches(m);
      SuspendLeaves(s, if timeout.Some? then SLEEPING else SUSPENDED, InSleep, timeout);
    }
  }

  lemma PollDoes(s: State, pds: seq<PollFd>, timeout: Option<int>, added: Errno, r: Result) returns (m: State)
    requires Good(s) && Enabled(s, DoPoll(pds, timeout, added)) && r == Do(s, DoPoll(pds, timeout, added))
    ensures if Me(s).interrupt then Ends(s, r, Fail(EINTR), Me(s).(interrupt := false))
            else if added != Ok then r == Result(s, Some(Fail(added)))
            else r.ret == None && SwitchesTo(m, r.s)
                 && Leaves(s.(ioQ := s.ioQ + [Pollq(s.cur, pds)]), m, IO_WAIT, InPoll(None), timeout)
  {
    hide Core, Schedule, Suspend, Good, Insert;
    Caller(s);
    var w := s.(ioQ := s.ioQ + [Pollq(s.cur, pds)]);
    m := Suspend(w, IO_WAIT, InPoll(None), timeout);
    if !Me(s).interrupt && added == Ok {
      PollBlocks(s, pds, timeout, m);
      Switches(m);
      SuspendLeaves(w, IO_WAIT, InPoll(None), timeout);
    }
  }

  lemma CondWaitDoes(s: State, c: CondId, timeout: Option<int>, r: Result) returns (m: State)
    requires Good(s) && Enabled(s, DoCondWait(c, timeout)) && r == Do(s, DoCondWait(c, timeout))
    ensures if Me(s).interrupt then Ends(s, r, Fail(EINTR), Me(s).(interrupt := false))
            else r.ret == None && SwitchesTo(m, r.s)
                 && Leaves(s.(conds := s.conds[c := WaitQ(s, c) + [s.cur]]), m, COND_WAIT, InCond(c), timeout)
  {
    hide Core, Schedule, Suspend, Good, Insert;
    Caller(s);
    var w := s.(conds := s.conds[c := s.conds[c] + [s.cur]]);
    m := Suspend(w, COND_WAIT, InCond(c), timeout);
    if !Me(s).interrupt {
      CondBlocks(s, c, timeout, m);
      Switches(m);
      SuspendLeaves(w, COND_WAIT, InCond(c), timeout);
    }
  }

  lemma LockDoes(s: State, k: nat, r: Result) returns (m: State)
    requires Good(s) && Enabled(s, DoLock(k)) && r == Do(s, DoLock(k))
    ensures var x := MutexOf(s, k);
            if Me(s).interrupt then Ends(s, r, Fail(EINTR), Me(s).(interrupt := false))
            else if x.owner == None then r == Result(s.(mutexes := s.mutexes[k := Mutex(Some(s.cur), x.waitQ)]), Some(Zero))
            else if x.owner == Some(s.cur) then r == Result(s, Some(Fail(EDEADLK)))
            else r.ret == None && SwitchesTo(m, r.s)
                 && Leaves(s.(mutexes := s.mutexes[k := Mutex(x.owner, x.waitQ + [s.cur])]), m, LOCK_WAIT, InLock(k), None)
  {
    hide Core, Schedule, Suspend, Good, Insert;
    Caller(s);
    var x := s.mutexes[k];
    var w := s.(mutexes := s.mutexes[k := x.(waitQ := x.waitQ + [s.cur])]);
    m := Suspend(w, LOCK_WAIT, InLock(k), None);
    if !Me(s).interrupt && x.owner != None && x.owner != Some(s.cur) {
      LockBlocks(s, k, m);
      Switches(m);
      SuspendLeaves(w, LOCK_WAIT, InLock(k), None);
    }
  }

  // ---- calls that return at once ----

  /** The owner gives the mutex to the first waiter that nobody has woken yet, which becomes
      runnable, and frees it if there is none; nobody else can unlock it. */
  lemma UnlockDoes(s: State, k: nat, r: Result)
    requires Good(s) && Enabled(s, DoUnlock(k)) && r == Do(s, DoUnlock(k))
    ensures var x := MutexOf(s, k);
            if x.owner != Some(s.cur) then r == Result(s, Some(Fail(EPERM)))
            else if forall t :: t in x.waitQ ==> Get(s, t).state != LOCK_WAIT then
              r == Result(s.(mutexes := s.mutexes[k := Mutex(None, x.waitQ)]), Some(Zero))
            else exists t :: IsFirst(s, x.waitQ, LOCK_WAIT, t) && t in s.threads
                   && r == Result(s.(mutexes := s.mutexes[k := Mutex(Some(t), x.waitQ)], runQ := s.runQ + [t],
                                     threads := s.threads[t := s.threads[t].(state := RUNNABLE)]), Some(Zero))
  {
    hide Good, IsFirst, Waiting, Wake;
    if s.mutexes[k].owner == Some(s.cur) { UnlockHandsOver(s, k); }
  }

  lemma TrylockDoes(s: State, k: nat, r: Result)
    requires Enabled(s, DoTrylock(k)) && r == Do(s, DoTrylock(k))
    ensures var x := MutexOf(s, k);
            r == if x.owner == None then Result(s.(mutexes := s.mutexes[k := Mutex(Some(s.cur), x.waitQ)]), Some(Zero))
                 else Result(s, Some(Fail(EBUSY)))
  {
  }

  /** g is h without the entry of t. */
  ghost predicate Removed(h: Image<nat>, g: Image<nat>, t: nat) {
    Ordered(g) && forall x :: x in multiset(g) <==> x in multiset(h) && x.who != t
  }

  /** An interrupt of any thread but a zombie flags it, and wakes it if it waits; nothing
      else changes. */
  lemma InterruptDoes(s: State, t: nat, r: Result)
    requires Good(s) && Enabled(s, DoInterrupt(t)) && r == Do(s, DoInterrupt(t))
    ensures var h := s.threads[t];
            && r.ret == Some(Zero)
            && (h.state == ZOMBIE ==> r.s == s)
            && (h.state == RUNNING || h.state == RUNNABLE ==> r.s == s.(threads := s.threads[t := h.(interrupt := true)]))
            && (h.state != ZOMBIE && h.state != RUNNING && h.state != RUNNABLE ==>
                  && r.s == s.(threads := s.threads[t := h.(interrupt := true, state := RUNNABLE, onSleepQ := false)],
                               runQ := s.runQ + [t], sleepQ := r.s.sleepQ)
                  && if h.onSleepQ then Removed(s.sleepQ, r.s.sleepQ, t) else r.s.sleepQ == s.sleepQ)
  {
    hide Good, HeapWithout;
    if s.threads[t].onSleepQ { SleeperRemoved(s, t); }
  }

  lemma SleeperRemoved(s: State, t: nat)
    requires Good(s) && t in s.threads && s.threads[t].onSleepQ
    ensures Removed(s.sleepQ, HeapWithout(s.sleepQ, t), t)
  {
    hide ShapeOk, RunOk, ZombieOk, IoOk, CondOk, MutexOk, JoinOk, StackOk, CountOk, Ordered, DistinctWho;
    HeapHas(s, t);
    EntryRemoved(s.sleepQ, t);
  }

  lemma HeapHas(s: State, t: nat)
    requires HeapOk(s)
    ensures Ordered(s.sleepQ) && DistinctWho(s.sleepQ) && (OnHeap(s.sleepQ, t) <==> t in s.threads && s.threads[t].onSleepQ)
  {
  }

  lemma EntryRemoved(h: Image<nat>, t: nat)
    requires Ordered(h) && DistinctWho(h) && OnHeap(h, t)
    ensures Removed(h, HeapWithout(h, t), t)
  {
    hide Ordered, Delete;
    var k := IndexOf(h, t);
    var x := h[k - 1];
    DeleteCorrect(h, k);
    forall y
      ensures y in multiset(h) - multiset{x} <==> y in multiset(h) && y.who != t
    {
      OnlyEntry(h, k, y);
    }
  }

  lemma OnlyEntry(h: Image<nat>, k: nat, y: Sleeper<nat>)
    requires DistinctWho(h) && 1 <= k <= |h|
    ensures y in multiset(h) - multiset{h[k - 1]} <==> y in multiset(h) && y.who != h[k - 1].who
  {
    var x := h[k - 1];
    OthersOnHeap(h, k);
    var rest := h[..k - 1] + h[k..];
    if y in multiset(rest) {
      AtMostOnce(rest, y);
      assert OnHeap(rest, y.who);
    }
  }

  /** The positions of q whose threads are in this state, in order, and their threads. */
  ghost predicate InOrder(s: State, q: seq<nat>, st: TState, ts: seq<nat>, which: seq<nat>) {
    && |which| == |ts| && (forall i :: 0 <= i < |ts| ==> which[i] < |q| && ts[i] == q[which[i]])
    && (forall i, j :: 0 <= i < j < |which| ==> which[i] < which[j])
    && forall k :: 0 <= k < |q| ==> (k in which <==> Get(s, q[k]).state == st)
  }

  lemma {:induction false} WaitingInOrder(s: State, q: seq<nat>, st: TState) returns (which: seq<nat>)
    ensures InOrder(s, q, st, Waiting(s, q, st), which)
  {
    hide Get, InOrder;
    which := [];
    if q == [] {
      NoneInOrder(s, st);
    } else {
      var n := |q| - 1;
      which := WaitingInOrder(s, q[..n], st);
      MoreInOrder(s, q, st, Waiting(s, q[..n], st), which);
      if Get(s, q[n]).state == st { which := which + [n]; } else { assert Waiting(s, q[..n], st) + [] == Waiting(s, q[..n], st); }
    }
  }

  lemma NoneInOrder(s: State, st: TState)
    ensures InOrder(s, [], st, Waiting(s, [], st), [])
  {
  }

  lemma MoreInOrder(s: State, q: seq<nat>, st: TState, ts: seq<nat>, which: seq<nat>)
    requires q != [] && InOrder(s, q[..|q| - 1], st, ts, which)
    ensures var n := |q| - 1;
            if Get(s, q[n]).state == st then InOrder(s, q, st, ts + [q[n]], which + [n]) else InOrder(s, q, st, ts, which)
  {
    hide Get;
    var n := |q| - 1;
    assert forall k :: 0 <= k < n ==> q[..n][k] == q[k];
    assert forall i :: 0 <= i < |which| ==> which[i] < n;
    forall k | 0 <= k < |q|
      ensures k in which + [n] <==> k in which || k == n
    {
    }
  }

  /** Exactly the sleeps of the threads that are still flagged as sleeping are left. */
  ghost predicate SleepersStay(s: State, r: State) {
    forall x :: x in multiset(r.sleepQ) <==> x in multiset(s.sleepQ) && x.who in r.threads && r.threads[x.who].onSleepQ
  }

  lemma ShrinksStay(s: State, r: State)
    requires HeapOk(s) && HeapOk(r) && Shrinks(s.sleepQ, r.sleepQ)
    ensures SleepersStay(s, r)
  {
    forall x
      ensures x in multiset(r.sleepQ) <==> x in multiset(s.sleepQ) && x.who in r.threads && r.threads[x.who].onSleepQ
    {
      if x in multiset(r.sleepQ) {
        AtMostOnce(r.sleepQ, x);
      } else if x in multiset(s.sleepQ) && x.who in r.threads && r.threads[x.who].onSleepQ {
        var i :| 0 <= i < |r.sleepQ| && r.sleepQ[i].who == x.who;
        assert r.sleepQ[i] in multiset(r.sleepQ);
        SameEntry(s.sleepQ, r.sleepQ[i], x);
      }
    }
  }

  lemma SameEntry(h: Image<nat>, x: Sleeper<nat>, y: Sleeper<nat>)
    requires DistinctWho(h) && x in multiset(h) && y in multiset(h) && x.who == y.who
    ensures x == y
  {
    var i :| 0 <= i < |h| && h[i] == x;
    var j :| 0 <= j < |h| && h[j] == y;
  }

  lemma HeapsOk(s: State, r: State)
    requires Good(s) && Good(r)
    ensures HeapOk(s) && HeapOk(r)
  {
  }

  lemma SignalLeaves(s: State, c: CondId, broadcast: bool)
    requires Good(s) && Enabled(s, DoSignal(c, broadcast))
    ensures SleepersStay(s, Signal(s, c, broadcast))
  {
    hide Good, Enabled, SleepersStay, Shrinks, Signalled, WakeAll;
    var r := Do(s, DoSignal(c, broadcast)).s;
    StepKeeps(s, DoSignal(c, broadcast));
    HeapsOk(s, r);
    WakeAllShrinks(s, Signalled(s, c, broadcast));
    ShrinksStay(s, r);
  }

  /** A signal makes the first waiter that still waits runnable, a broadcast all of them. */
  lemma SignalDoes(s: State, c: CondId, broadcast: bool, r: Result) returns (ts: seq<nat>, which: seq<nat>)
    requires Good(s) && Enabled(s, DoSignal(c, broadcast)) && r == Do(s, DoSignal(c, broadcast))
    ensures r.ret == Some(Zero) && InOrder(s, WaitQ(s, c), COND_WAIT, ts, which)
    ensures SleepersStay(s, r.s) && Woken(s, r.s, if broadcast || ts == [] then ts else [ts[0]])
  {
    hide Core, SleepersStay, Shrinks, Waiting, WakeAll, Woken, InOrder;
    ts := Waiting(s, s.conds[c], COND_WAIT);
    which := WaitingInOrder(s, s.conds[c], COND_WAIT);
    SignalLeaves(s, c, broadcast);
    SignalKeeps(s, Some(s.cur), None, c, broadcast);
    if ts != [] { assert ts[..1] == [ts[0]]; }
  }

  /** New and destroyed objects. */
  lemma ObjectsDo(s: State, step: Step, r: Result)
    requires Enabled(s, step) && r == Do(s, step)
    ensures step.DoCondNew? ==> r == Result(s.(conds := s.conds[User(s.nextId) := []], nextId := s.nextId + 1), Some(NewObject(s.nextId)))
    ensures step.DoMutexNew? ==>
              r == Result(s.(mutexes := s.mutexes[s.nextId := Mutex(None, [])], nextId := s.nextId + 1), Some(NewObject(s.nextId)))
    ensures step.DoCondDestroy? ==>
              r == if s.conds[step.c] == [] then Result(s.(conds := s.conds - {step.c}), Some(Zero)) else Result(s, Some(Fail(EBUSY)))
    ensures step.DoMutexDestroy? ==>
              r == if s.mutexes[step.m] == Mutex(None, []) then Result(s.(mutexes := s.mutexes - {step.m}), Some(Zero))
                   else Result(s, Some(Fail(EBUSY)))
  {
    hide Poll, Yield, Interrupt, Exit, Join, Create, Usleep, CondWait, Signal, Lock, Unlock, Trylock, Resume, IdleTurn;
  }

  // ---- joins and exits ----

  /** q2 is q without its element t. */
  ghost predicate Cut(q: seq<nat>, q2: seq<nat>, t: nat) {
    exists k :: 0 <= k < |q| && q[k] == t && q2 == q[..k] + q[k + 1..]
  }

  lemma Cuts(q: seq<nat>, t: nat)
    requires NoDup(q) && t in q
    ensures Cut(q, Without(q, t), t)
  {
    var k := WithoutCuts(q, t);
  }

  /** The zombie u is let go: it becomes runnable, last on the run queue. */
  ghost predicate LetGo(s: State, r: State, u: nat) {
    && u in s.threads
    && r == s.(threads := s.threads[u := s.threads[u].(state := RUNNABLE)], runQ := s.runQ + [u], zombieQ := r.zombieQ)
    && Cut(s.zombieQ, r.zombieQ, u)
  }

  lemma ZombieIsQueued(s: State, u: nat)
    requires Good(s) && Get(s, u).state == ZOMBIE
    ensures u in s.threads && NoDup(s.zombieQ) && u in s.zombieQ
  {
    hide ShapeOk, RunOk, IoOk, HeapOk, CondOk, MutexOk, JoinOk, StackOk, CountOk;
  }

  lemma TermIs(s: State, u: nat)
    requires Good(s) && u in s.threads && s.threads[u].term
    ensures Term(u) in s.conds && |s.conds[Term(u)]| <= 1
  {
    hide ShapeOk, RunOk, IoOk, HeapOk, CondOk, MutexOk, ZombieOk, StackOk, CountOk;
  }

  lemma JoinDoes(s: State, u: nat, r: Result) returns (m: State)
    requires Good(s) && Enabled(s, DoJoin(u)) && r == Do(s, DoJoin(u))
    ensures var h := Get(s, u);
            if !h.term then r == Result(s, Some(Fail(EINVAL)))
            else if u == s.cur then r == Result(s, Some(Fail(EDEADLK)))
            else
              && Term(u) in s.conds
              && if WaitQ(s, Term(u)) != [] then r == Result(s, Some(Fail(EINVAL)))
                 else if h.state == ZOMBIE then r.ret == Some(Retval(h.retval)) && LetGo(s, r.s, u)
                 else if Me(s).interrupt then Ends(s, r, Fail(EINTR), Me(s).(interrupt := false))
                 else r.ret == None && SwitchesTo(m, r.s)
                      && Leaves(s.(conds := s.conds[Term(u) := [s.cur]]), m, COND_WAIT, InCond(Term(u)), None)
  {
    hide Core, Schedule, Suspend, Good, Insert, Cut;
    Caller(s);
    var w := s.(conds := s.conds[Term(u) := [s.cur]]);
    m := Suspend(w, COND_WAIT, InCond(Term(u)), None);
    if s.threads[u].term && u != s.cur {
      TermIs(s, u);
      if s.conds[Term(u)] == [] {
        if s.threads[u].state == ZOMBIE {
          ZombieIsQueued(s, u);
          Cuts(s.zombieQ, u);
        } else if !Me(s).interrupt {
          assert s.conds[Term(u)] + [s.cur] == [s.cur];
          CondBlocks(s, Term(u), None, m);
          Switches(m);
          SuspendLeaves(w, COND_WAIT, InCond(Term(u)), None);
        }
      }
    }
  }

  /** A freed stack goes in before the last one. */
  ghost predicate Freed(q: seq<nat>, q2: seq<nat>, t: nat) {
    if q == [] then q2 == [t]
    else var n := |q| - 1; |q2| == n + 2 && q2[..n] == q[..n] && q2[n] == t && q2[n + 1] == q[n]
  }

  /** m is s with the running thread gone, but for its record h; its stack is free unless it
      is the primordial one. */
  ghost predicate IsGone(s: State, m: State, h: Thread) {
    && m == s.(threads := s.threads[s.cur := h.(state := RUNNING, at := Gone)], freeStacks := m.freeStacks, numFreeStacks := m.numFreeStacks)
    && if h.primordial then m.freeStacks == s.freeStacks && m.numFreeStacks == s.numFreeStacks
       else Freed(s.freeStacks, m.freeStacks, s.cur) && m.numFreeStacks == s.numFreeStacks + 1
  }

  lemma VanishIs(s: State, h: Thread)
    ensures IsGone(s, Vanish(s, h), h)
  {
  }

  /** The joiners of t that still wait: at most one. */
  function Joiners(s: State, t: nat): seq<nat> {
    var q := WaitQ(s, Term(t));
    if |q| == 1 && Get(s, q[0]).state == COND_WAIT then q else []
  }

  /** An exit: a thread that can be joined becomes a zombie with its value, and wakes the
      joiner that waits for it; any other is gone at once. */
  lemma ExitDoes(s: State, retval: int, r: Result) returns (z: State, m: State)
    requires Good(s) && Enabled(s, DoExit(retval)) && r == Do(s, DoExit(retval))
    ensures r.ret == None && SwitchesTo(m, r.s)
    ensures var h := Me(s).(retval := retval);
            if h.term then
              && z == s.(threads := s.threads[s.cur := h.(state := ZOMBIE, at := InExit)], zombieQ := s.zombieQ + [s.cur], activeCount := s.activeCount - 1)
              && Woken(z, m, Joiners(s, s.cur))
            else IsGone(s.(activeCount := s.activeCount - 1), m, h)
  {
    hide Core, Schedule, Good, Signal, Vanish, Woken, IsGone;
    Caller(s);
    var t, h := s.cur, s.threads[s.cur].(retval := retval);
    z := SetThread(s, t, h.(state := ZOMBIE, at := InExit)).(activeCount := s.activeCount - 1, zombieQ := s.zombieQ + [t]);
    if h.term {
      TermIs(s, t);
      ZombieBlocks(s, z, h.(state := ZOMBIE, at := InExit));
      m := Signal(z, Term(t), false);
      JoinerSignalled(z, t, m);
      SignalKeeps(z, None, Some(t), Term(t), false);
      SignalledJoiners(s, z, t);
      Switches(m);
    } else {
      m := Vanish(s.(activeCount := s.activeCount - 1), h);
      VanishBlocks(s, h, s.activeCount - 1, s.conds, m);
      VanishIs(s.(activeCount := s.activeCount - 1), h);
      Switches(m);
    }
  }

  lemma SignalledJoiners(s: State, z: State, t: nat)
    requires Good(s) && t == s.cur && InCall(s) && t in s.threads && s.threads[t].term
    requires z.conds == s.conds && forall u :: u != t ==> Get(z, u) == Get(s, u)
    ensures Signalled(z, Term(t), false) == Joiners(s, t)
  {
    TermIs(s, t);
    var q := WaitQ(s, Term(t));
    WaitingIs(z, q, COND_WAIT);
    if q != [] {
      NotOwnJoiner(s);
      assert q == [q[0]];
      assert q[..0] == [] && Waiting(z, [], COND_WAIT) == [];
      if Get(s, q[0]).state == COND_WAIT { SingleWaiter(z, Term(t), q[0]); }
    }
  }

  lemma NotOwnJoiner(s: State)
    requires Good(s) && InCall(s)
    ensures s.cur !in WaitQ(s, Term(s.cur))
  {
    hide ShapeOk, RunOk, IoOk, HeapOk, MutexOk, JoinOk, ZombieOk, StackOk, CountOk;
  }

  /** The end of the exit of a thread that has been joined. */
  lemma ExitDoneDoes(s: State, r: Result) returns (m: State)
    requires Good(s) && Enabled(s, DoResume) && Me(s).at.InExit? && r == Do(s, DoResume)
    ensures r.ret == None && SwitchesTo(m, r.s)
    ensures var c := Term(s.cur);
            IsGone(s.(conds := if WaitQ(s, c) == [] then s.conds - {c} else s.conds), m, Me(s).(term := false))
  {
    hide Core, Schedule, Good, Vanish, IsGone;
    var c := Term(s.cur);
    var conds := if WaitQ(s, c) == [] then s.conds - {c} else s.conds;
    var h := Me(s).(term := false);
    InvIs(s);
    m := Vanish(s.(conds := conds), h);
    assert s.(conds := conds) == s.(activeCount := s.activeCount, conds := conds);
    VanishBlocks(s, h, s.activeCount, conds, m);
    VanishIs(s.(conds := conds), h);
    Switches(m);
  }

  /** The free stacks are unmapped, and with them the records of the threads that had them. */
  ghost predicate Unmapped(s: State, u: State) {
    && u == s.(threads := u.threads, freeStacks := [], numFreeStacks := 0)
    && (forall t :: t in u.threads <==> t in s.threads && t !in s.freeStacks)
    && forall t :: t in u.threads ==> u.threads[t] == s.threads[t]
  }

  lemma Unmaps(s: State)
    requires Good(s)
    ensures Unmapped(s, Unmap(s))
  {
    hide ShapeOk, RunOk, IoOk, HeapOk, CondOk, MutexOk, JoinOk, ZombieOk, CountOk;
  }

  /** A creation: the new thread is last on the run queue, and has everything else blank. */
  lemma CreateDoes(s: State, joinable: bool, stackOk: bool, condOk: bool, r: Result) returns (u: State)
    requires Good(s) && Enabled(s, DoCreate(joinable, stackOk, condOk)) && r == Do(s, DoCreate(joinable, stackOk, condOk))
    ensures Unmapped(s, u)
    ensures var t := s.nextId;
            if !stackOk then r == Result(u, Some(Fail(ENOMEM)))
            else if joinable && !condOk then
              r == Result(u.(threads := u.threads[t := NOBODY], nextId := t + 1, freeStacks := [t], numFreeStacks := 1), Some(Fail(ENOMEM)))
            else
              r == Result(u.(threads := u.threads[t := Thread(RUNNABLE, Start, false, false, false, false, joinable, 0)], nextId := t + 1,
                             runQ := s.runQ + [t], activeCount := s.activeCount + 1,
                             conds := if joinable then s.conds[Term(t) := []] else s.conds), Some(NewThread(t)))
  {
    hide Good, Unmap;
    u := Unmap(s);
    Unmaps(s);
  }

  // ---- the clock and the idle thread ----

  /** c is s after a look at the clock.  The sleepers that are due, p, the earliest first,
      are awake, and stand before the others on the run queue, the latest first; those that
      waited for a condition are flagged. */
  ghost predicate Clocked(s: State, now: int, c: State, p: Image<nat>) {
    && c == s.(lastClock := now, threads := c.threads, runQ := c.runQ, sleepQ := c.sleepQ)
    && multiset(p) + multiset(c.sleepQ) == multiset(s.sleepQ)
    && (forall x :: x in multiset(p) ==> x.due <= now) && (forall x :: x in multiset(c.sleepQ) ==> x.due > now)
    && (forall i, j :: 0 <= i < j < |p| ==> p[i].due <= p[j].due)
    && |c.runQ| == |p| + |s.runQ| && c.runQ[|p|..] == s.runQ && (forall i :: 0 <= i < |p| ==> c.runQ[i] == p[|p| - 1 - i].who)
    && c.threads.Keys == s.threads.Keys
    && forall t :: t in s.threads ==>
         c.threads[t] == if OnHeap(p, t)
                         then s.threads[t].(state := RUNNABLE, onSleepQ := false, timedOut := s.threads[t].state == COND_WAIT)
                         else s.threads[t]
  }

  lemma Clocks(s: State, now: int) returns (p: Image<nat>)
    requires Inv(s)
    ensures Clocked(s, now, CheckClock(s, now), p)
  {
    hide Core, Popped;
    var c := CheckClock(s, now);
    p := Popped(s.sleepQ, now);
    ClockWakes(s, now, c);
    CheckClockKeeps(s, Some(s.cur), now, c);
    var b := Backwards(p);
    assert (b + s.runQ)[|p|..] == s.runQ;
  }

  /** A yield looks at the clock, and gives way to whoever is runnable then. */
  lemma YieldDoes(s: State, now: int, r: Result) returns (c: State, p: Image<nat>, m: State)
    requires Good(s) && Enabled(s, DoYield(now)) && r == Do(s, DoYield(now))
    ensures Clocked(s, now, c, p) && c.cur == s.cur && Get(c, s.cur) == Me(s) && s.cur in c.threads
    ensures if c.runQ == [] then r == Result(c, Some(Zero))
            else
              && m == c.(threads := c.threads[s.cur := Me(s).(state := RUNNABLE, at := InYield)], runQ := c.runQ + [s.cur])
              && r.ret == None && SwitchesTo(m, r.s)
  {
    hide Core, Schedule, CheckClock, Good, Clocked;
    Caller(s);
    c := CheckClock(s, now);
    p := Clocks(s, now);
    CheckClockKeeps(s, Some(s.cur), now, c);
    RunnerUntouched(s, c, Popped(s.sleepQ, now), now);
    m := Suspend(c, RUNNABLE, InYield, None).(runQ := c.runQ + [c.cur]);
    if c.runQ != [] {
      YieldBlocks(c, m);
      Switches(m);
    }
  }

  /** d is s after dispatch: exactly the requests with something to report, those at the
      positions mw, have been handed to their threads, in order; the others, at the
      positions kw, stay in order. */
  ghost predicate Dispatched(s: State, fired: Fired, d: State, moved: seq<Pollq>, mw: seq<nat>, kw: seq<nat>) {
    if fired == [] then d == s
    else
      var rev := Revents(s, fired);
      PicksOut(s.ioQ, rev, moved, mw, true) && PicksOut(s.ioQ, rev, d.ioQ, kw, false) && Delivered(s, d.(ioQ := s.ioQ), moved)
  }

  lemma Dispatches(s: State, fired: Fired) returns (moved: seq<Pollq>, mw: seq<nat>, kw: seq<nat>)
    requires Inv(s) && s.runQ == [] && s.cur == s.idle
    ensures Dispatched(s, fired, Dispatch(s, fired), moved, mw, kw)
  {
    hide Core, Dispatch, PicksOut, Delivered, Revents;
    moved, mw, kw := [], [], [];
    DispatchKeeps(s, fired, Dispatch(s, fired));
    if fired == [] {
      NothingFired(s);
    } else {
      moved := Moved(s.ioQ, Revents(s, fired));
      mw, kw := SplitIsExact(s.ioQ, Revents(s, fired));
    }
  }

  lemma NothingFired(s: State)
    ensures Dispatch(s, []) == s
  {
  }

  /** What is reported to entry k of a request is what it asked for, or an error, and what
      fired for its descriptor, where an error there counts as all that anybody asks for. */
  lemma ServedExactly(s: State, fired: Fired, p: Pollq, k: nat, e: Ev)
    requires Distinct(fired) && k < |p.pds|
    ensures var pd, served := p.pds[k], Served(p, Revents(s, fired));
            && served.thread == p.thread && |served.pds| == |p.pds| && served.pds[k].fd == pd.fd && served.pds[k].events == pd.events
            && (e in served.pds[k].revents <==>
                  && (e == Err || e == Hup || (e in pd.events && e in {In, Out, Pri}))
                  && exists i :: 0 <= i < |fired| && fired[i].0 == pd.fd && (e in fired[i].1 || (Asked(s, pd.fd, e) && (Err in fired[i].1 || Hup in fired[i].1))))
  {
    hide Reported, Recorded, Events, Tally, Report, Asked;
    var pd, awaited := p.pds[k], Events(Tally(AllPds(s.ioQ), p.pds[k].fd));
    var rec := Recorded(fired, pd.fd, awaited);
    assert Served(p, Revents(s, fired)).pds[k] == Report(pd, Revents(s, fired)(pd.fd)) && Revents(s, fired)(pd.fd) == rec;
    ReportHas(pd, rec, e);
    RecordedHas(fired, pd.fd, awaited, e);
    TallyAsks(AllPds(s.ioQ), pd.fd, e);
    AskedInQueue(s, pd.fd, e);
    assert e in awaited <==> Asked(s, pd.fd, e);
  }

  /** Some entry of a queued request for fd asks for e. */
  ghost predicate Asked(s: State, fd: int, e: Ev) {
    e in {In, Out, Pri} && exists i, j :: 0 <= i < |s.ioQ| && 0 <= j < |s.ioQ[i].pds| && s.ioQ[i].pds[j].fd == fd && e in s.ioQ[i].pds[j].events
  }

  lemma AskedInQueue(s: State, fd: int, e: Ev)
    ensures Asked(s, fd, e) <==> e in {In, Out, Pri} && exists i :: 0 <= i < |AllPds(s.ioQ)| && AllPds(s.ioQ)[i].fd == fd && e in AllPds(s.ioQ)[i].events
  {
    EntriesAre(s.ioQ, fd, e);
  }

  lemma {:induction false} EntriesAre(q: seq<Pollq>, fd: int, e: Ev)
    ensures (exists i :: 0 <= i < |AllPds(q)| && AllPds(q)[i].fd == fd && e in AllPds(q)[i].events)
            <==> exists i, j :: 0 <= i < |q| && 0 <= j < |q[i].pds| && q[i].pds[j].fd == fd && e in q[i].pds[j].events
  {
    if q != [] {
      var n := |q| - 1;
      EntriesAre(q[..n], fd, e);
      var a, b := AllPds(q[..n]), q[n].pds;
      assert AllPds(q) == a + b;
      if i :| 0 <= i < |AllPds(q)| && AllPds(q)[i].fd == fd && e in AllPds(q)[i].events {
        if i < |a| {
          assert a[i].fd == fd && e in a[i].events;
          var k, j :| 0 <= k < n && 0 <= j < |q[..n][k].pds| && q[..n][k].pds[j].fd == fd && e in q[..n][k].pds[j].events;
          assert q[k].pds[j].fd == fd && e in q[k].pds[j].events;
        } else {
          assert q[n].pds[i - |a|].fd == fd;
        }
      }
      if i, j :| 0 <= i < |q| && 0 <= j < |q[i].pds| && q[i].pds[j].fd == fd && e in q[i].pds[j].events {
        if i < n {
          assert q[..n][i].pds[j].fd == fd && e in q[..n][i].pds[j].events;
          var k :| 0 <= k < |a| && a[k].fd == fd && e in a[k].events;
          assert AllPds(q)[k].fd == fd && e in AllPds(q)[k].events;
        } else {
          assert AllPds(q)[|a| + j].fd == fd;
        }
      }
    }
  }

  /** A turn of the idle thread: dispatch, a look at the clock, and the processor to whoever
      is runnable then. */
  lemma IdleDoes(s: State, fired: Fired, now: int, r: Result)
      returns (d: State, moved: seq<Pollq>, mw: seq<nat>, kw: seq<nat>, c: State, p: Image<nat>, m: State)
    requires Good(s) && Enabled(s, DoIdle(fired, now)) && r == Do(s, DoIdle(fired, now))
    ensures s.cur == s.idle && s.runQ == [] && Dispatched(s, fired, d, moved, mw, kw) && Inv(d) && d.cur == s.cur && SleepersStay(s, d)
    ensures Clocked(d, now, c, p) && c.cur == s.cur && s.cur in c.threads && s.cur in s.threads && c.threads[s.cur] == s.threads[s.cur]
    ensures m == c.(threads := c.threads[s.cur := Me(s).(state := RUNNABLE, at := InIdle)])
    ensures r.ret == None && SwitchesTo(m, r.s)
  {
    hide Core, SleepersStay, Shrinks, Schedule, CheckClock, Dispatch, Clocked, Dispatched;
    IdleIsIdle(s, DoIdle(fired, now));
    d := Dispatch(s, fired);
    moved, mw, kw := Dispatches(s, fired);
    DispatchKeeps(s, fired, d);
    InvHeaps(s, d);
    DispatchShrinks(s, fired);
    ShrinksStay(s, d);
    c := CheckClock(d, now);
    p := Clocks(d, now);
    CheckClockKeeps(d, Some(d.cur), now, c);
    IdleUntouched(s, fired);
    SleepsNot(s);
    RunnerUntouched(d, c, Popped(d.sleepQ, now), now);
    m := Suspend(c, RUNNABLE, InIdle, None);
    IdleBlocks(c, m);
    Switches(m);
  }

  lemma InvHeaps(s: State, d: State)
    requires Inv(s) && Inv(d)
    ensures HeapOk(s) && HeapOk(d)
  {
  }

  lemma SleepsNot(s: State)
    requires Inv(s)
    ensures s.cur in s.threads && !s.threads[s.cur].onSleepQ
  {
    assert Fits(s.threads[s.cur], s.cur == s.idle, true);
  }

  // ---- the second halves of calls ----

  /** How many entries have events. */
  lemma {:induction false} CountReadyIs(pds: seq<PollFd>)
    ensures CountReady(pds) == |set k | 0 <= k < |pds| && pds[k].revents != {}|
  {
    var all := set k | 0 <= k < |pds| && pds[k].revents != {};
    if pds == [] {
      assert all == {};
    } else {
      var n := |pds| - 1;
      CountReadyIs(pds[..n]);
      var before := set k | 0 <= k < |pds[..n]| && pds[..n][k].revents != {};
      assert all == before + if pds[n].revents != {} then {n} else {};
    }
  }

  /** q2 is q without the request of t. */
  ghost predicate CutRequest(q: seq<Pollq>, q2: seq<Pollq>, t: nat) {
    exists k :: 0 <= k < |q| && q[k].thread == t && q2 == q[..k] + q[k + 1..]
  }

  /** What becomes of the caller when its call ends, with or without taking the interrupt. */
  function Returned(h: Thread, interrupted: bool): Thread {
    h.(at := InUser, interrupt := h.interrupt && !interrupted)
  }

  lemma SleepDoneDoes(s: State, r: Result)
    requires Good(s) && Enabled(s, DoResume) && r == Do(s, DoResume) && (Me(s).at.InSleep? || Me(s).at.InYield? || Me(s).at.Start?)
    ensures var eintr := Me(s).at.InSleep? && Me(s).interrupt;
            Ends(s, r, if eintr then Fail(EINTR) else Zero, Returned(Me(s), eintr))
  {
  }

  /** A poll returns the number of its entries with events, or EINTR; a request that is
      still queued has none, and leaves the queue. */
  lemma PollDoneDoes(s: State, r: Result)
    requires Good(s) && Enabled(s, DoResume) && r == Do(s, DoResume) && Me(s).at.InPoll?
    ensures var h, ready := Me(s), Me(s).at.ready;
            && r.s == s.(threads := s.threads[s.cur := Returned(h, h.interrupt)], ioQ := r.s.ioQ)
            && (if ready == None then CutRequest(s.ioQ, r.s.ioQ, s.cur) else r.s.ioQ == s.ioQ)
            && r.ret == Some(if h.interrupt then Fail(EINTR)
                             else if ready == None then Fds(0)
                             else Fds(|set k | 0 <= k < |ready.value| && ready.value[k].revents != {}|))
  {
    hide Good, WithoutPoll, CountReady, CutRequest;
    var ready := Me(s).at.ready;
    if ready == None {
      CutsRequest(s);
    } else {
      CountReadyIs(ready.value);
    }
  }

  lemma CutsRequest(s: State)
    requires Good(s) && Get(s, s.cur).at == InPoll(None)
    ensures CutRequest(s.ioQ, WithoutPoll(s.ioQ, s.cur), s.cur)
  {
    hide Good, WithoutPoll, Threads;
    QueuedPoller(s);
    var k := WithoutPollCuts(s.ioQ, s.cur);
  }

  lemma QueuedPoller(s: State)
    requires Good(s) && Get(s, s.cur).at == InPoll(None)
    ensures s.cur in Threads(s.ioQ) && NoDup(Threads(s.ioQ))
  {
    hide RunOk, ZombieOk, HeapOk, CondOk, MutexOk, JoinOk, StackOk, CountOk;
    NotIdle(s);
  }

  /** A wait for a condition is over: the thread leaves the wait queue, its flags go down,
      and the flags say what it returns; an interrupt counts first. */
  lemma CondDoneDoes(s: State, c: CondId, r: Result)
    requires Good(s) && Enabled(s, DoResume) && r == Do(s, DoResume) && Me(s).at == InCond(c) && c.User?
    ensures var h := Me(s);
            && c in s.conds && r.ret == Some(if h.interrupt then Fail(EINTR) else if h.timedOut then Fail(ETIME) else Zero)
            && r.s == s.(threads := s.threads[s.cur := Returned(h, h.interrupt).(timedOut := false)], conds := r.s.conds)
            && r.s.conds.Keys == s.conds.Keys && Cut(s.conds[c], r.s.conds[c], s.cur)
            && forall b :: b in s.conds && b != c ==> r.s.conds[b] == s.conds[b]
  {
    hide Good, Without, Cut;
    WaiterOn(s, c);
    Cuts(s.conds[c], s.cur);
  }

  lemma WaiterOn(s: State, c: CondId)
    requires Good(s) && Get(s, s.cur).at == InCond(c)
    ensures s.cur in s.threads && c in s.conds && NoDup(s.conds[c]) && s.cur in s.conds[c]
  {
    hide RunOk, ZombieOk, IoOk, HeapOk, MutexOk, JoinOk, StackOk, CountOk;
    NotIdle(s);
  }

  /** A join that is woken finds a zombie, and takes its value, unless it is interrupted. */
  lemma JoinDoneDoes(s: State, u: nat, r: Result)
    requires Good(s) && Enabled(s, DoResume) && r == Do(s, DoResume) && Me(s).at == InCond(Term(u))
    ensures var h := Me(s);
            && Term(u) in s.conds && s.conds[Term(u)] == [s.cur]
            && var w := s.(threads := s.threads[s.cur := Returned(h, h.interrupt)], conds := s.conds[Term(u) := []]);
               if h.interrupt then r == Result(w, Some(Fail(EINTR)))
               else u != s.cur && Get(s, u).state == ZOMBIE && r.ret == Some(Retval(Get(s, u).retval)) && LetGo(w, r.s, u)
  {
    hide Good, Cut, Without;
    SingleJoiner(s, u);
    if !Me(s).interrupt {
      JoinerGoesOn(s, u);
      ZombieIsQueued(s, u);
      Cuts(s.zombieQ, u);
    }
  }

  lemma SingleJoiner(s: State, u: nat)
    requires Good(s) && Get(s, s.cur).at == InCond(Term(u))
    ensures s.cur in s.threads && !s.threads[s.cur].timedOut
    ensures Term(u) in s.conds && s.conds[Term(u)] == [s.cur] && Without(s.conds[Term(u)], s.cur) == []
  {
    hide RunOk, ZombieOk, IoOk, HeapOk, MutexOk, StackOk, CountOk;
    NotIdle(s);
    assert Fits(s.threads[s.cur], false, true);
    OnlyJoiner(s, s.cur);
  }

  /** A lock that waited: the caller owns the mutex, or has been interrupted. */
  lemma LockDoneDoes(s: State, k: nat, r: Result)
    requires Good(s) && Enabled(s, DoResume) && r == Do(s, DoResume) && Me(s).at == InLock(k)
    ensures k in s.mutexes
    ensures var h, x, mine := Me(s), s.mutexes[k], s.mutexes[k].owner == Some(s.cur);
            && (mine || h.interrupt) && r.ret == Some(if mine then Zero else Fail(EINTR))
            && r.s == s.(threads := s.threads[s.cur := Returned(h, !mine)], mutexes := r.s.mutexes)
            && r.s.mutexes.Keys == s.mutexes.Keys && r.s.mutexes[k].owner == x.owner && Cut(x.waitQ, r.s.mutexes[k].waitQ, s.cur)
            && forall b :: b in s.mutexes && b != k ==> r.s.mutexes[b] == s.mutexes[b]
  {
    hide Good, Without, Cut;
    LockDoneOutcome(s, k);
    LockerOn(s, k);
    Cuts(s.mutexes[k].waitQ, s.cur);
  }

  lemma LockerOn(s: State, k: nat)
    requires Good(s) && Get(s, s.cur).at == InLock(k) && k in s.mutexes
    ensures s.cur in s.threads && NoDup(s.mutexes[k].waitQ) && s.cur in s.mutexes[k].waitQ
  {
    hide RunOk, ZombieOk, IoOk, HeapOk, CondOk, JoinOk, StackOk, CountOk;
    NotIdle(s);
  }
}
