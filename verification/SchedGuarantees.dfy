/** The guarantees of the scheduler that its callers rely on, over whole runs. */
module SchedGuarantees {
  import opened Basics
  import opened HeapModel
  import opened Epoll
  import opened SchedQueues
  import opened SchedModel
  import opened SchedInvariant
  import opened SchedSteps
  import opened SchedRuns
  import opened SchedTheorems
  import opened SchedJoin

  // ---- where threads are ----

  /** In every reachable state every thread is exactly where its state and flags say, and
      nowhere twice. */
  lemma ThreadsAreInPlace(ss: seq<State>, steps: seq<Step>, i: nat, t: nat)
    requires IsRun(ss, steps) && i < |ss| && t in ss[i].threads
    ensures var s, h := ss[i], ss[i].threads[t];
            && (h.state == RUNNING && !h.at.Gone? <==> t == s.cur)
            && (t in s.runQ <==> h.state == RUNNABLE && t != s.idle)
            && (t in s.zombieQ <==> h.state == ZOMBIE)
            && (OnHeap(s.sleepQ, t) <==> h.onSleepQ)
            && (h.state == IO_WAIT ==> t in Threads(s.ioQ))
            && (h.state == COND_WAIT ==> h.at.InCond? && h.at.c in s.conds && t in s.conds[h.at.c])
            && (h.state == LOCK_WAIT ==> h.at.InLock? && h.at.m in s.mutexes && t in s.mutexes[h.at.m].waitQ)
            && (forall c :: c in s.conds && t in s.conds[c] ==> h.at == InCond(c))
            && (forall m :: m in s.mutexes && t in s.mutexes[m].waitQ ==> h.at == InLock(m))
            && (t in s.freeStacks <==> h.at.Gone? && !h.primordial)
            && (h.timedOut ==> h.at.InCond? && h.at.c.User? && h.state != COND_WAIT)
  {
    hide IsRun, Do, JoinOk, CountOk;
    RunsAreGood(ss, steps, i);
    assert Fits(ss[i].threads[t], t == ss[i].idle, t == ss[i].cur);
  }

  lemma NothingIsQueuedTwice(ss: seq<State>, steps: seq<Step>, i: nat)
    requires IsRun(ss, steps) && i < |ss|
    ensures var s := ss[i];
            && NoDup(s.runQ) && NoDup(s.zombieQ) && NoDup(Threads(s.ioQ)) && DistinctWho(s.sleepQ) && NoDup(s.freeStacks)
            && (forall c :: c in s.conds ==> NoDup(s.conds[c])) && (forall m :: m in s.mutexes ==> NoDup(s.mutexes[m].waitQ))
            && (forall t :: t in s.runQ || t in s.zombieQ || t in Threads(s.ioQ) || t in s.freeStacks || OnHeap(s.sleepQ, t) ==> t in s.threads)
  {
    hide IsRun, Do;
    RunsAreGood(ss, steps, i);
  }

  // ---- dispatch ----

  lemma {:induction false} ReadyEntries(pds: seq<PollFd>)
    ensures CountReady(pds) > 0 <==> exists i :: 0 <= i < |pds| && pds[i].revents != {}
  {
    if pds != [] {
      var n := |pds| - 1;
      ReadyEntries(pds[..n]);
      if CountReady(pds[..n]) > 0 {
        var i :| 0 <= i < n && pds[..n][i].revents != {};
        assert pds[i].revents != {};
      }
      if i :| 0 <= i < |pds| && pds[i].revents != {} {
        if i < n { assert pds[..n][i].revents != {}; }
      }
    }
  }

  /** The events are reported to a request of the I/O queue. */
  function Served(p: Pollq, rev: int -> set<Ev>): Pollq {
    p.(pds := Reported(p.pds, rev))
  }

  ghost predicate HasEvents(p: Pollq) {
    exists i :: 0 <= i < |p.pds| && p.pds[i].revents != {}
  }

  /** `which` are the positions of the requests with something to report, in order. */
  ghost predicate PicksOut(q: seq<Pollq>, rev: int -> set<Ev>, picked: seq<Pollq>, which: seq<nat>, ready: bool) {
    && |which| == |picked| && (forall i :: 0 <= i < |which| ==> which[i] < |q| && picked[i] == Served(q[which[i]], rev))
    && (forall i, j :: 0 <= i < j < |which| ==> which[i] < which[j])
    && forall k :: 0 <= k < |q| ==> (k in which <==> HasEvents(Served(q[k], rev)) == ready)
  }

  lemma PickNext(q: seq<Pollq>, rev: int -> set<Ev>, picked: seq<Pollq>, which: seq<nat>, ready: bool, p: Pollq)
    requires PicksOut(q, rev, picked, which, ready)
    ensures var more := HasEvents(Served(p, rev)) == ready;
            PicksOut(q + [p], rev, if more then picked + [Served(p, rev)] else picked, if more then which + [|q|] else which, ready)
  {
    hide HasEvents, Served;
    assert forall k :: 0 <= k < |q| ==> (q + [p])[k] == q[k];
    var which2 := if HasEvents(Served(p, rev)) == ready then which + [|q|] else which;
    forall k | 0 <= k <= |q|
      ensures k in which2 <==> HasEvents(Served((q + [p])[k], rev)) == ready
    {
      assert k < |q| ==> (k in which2 <==> k in which);
    }
  }

  lemma {:induction false} SplitIsExact(q: seq<Pollq>, rev: int -> set<Ev>) returns (m: seq<nat>, k: seq<nat>)
    ensures PicksOut(q, rev, Moved(q, rev), m, true) && PicksOut(q, rev, Kept(q, rev), k, false)
  {
    hide PicksOut, HasEvents;
    if q == [] {
      m, k := [], [];
      NothingToPick(rev);
    } else {
      var n := |q| - 1;
      m, k := SplitIsExact(q[..n], rev);
      PickNext(q[..n], rev, Moved(q[..n], rev), m, true, q[n]);
      PickNext(q[..n], rev, Kept(q[..n], rev), k, false, q[n]);
      assert q[..n] + [q[n]] == q;
      ServedHasEvents(q[n], rev);
      if HasEvents(Served(q[n], rev)) {
        assert Moved(q, rev) == Moved(q[..n], rev) + [Served(q[n], rev)];
        assert Kept(q, rev) == Kept(q[..n], rev);
        m := m + [n];
      } else {
        assert Moved(q, rev) == Moved(q[..n], rev);
        assert Kept(q, rev) == Kept(q[..n], rev) + [Served(q[n], rev)];
        k := k + [n];
      }
    }
  }

  lemma NothingToPick(rev: int -> set<Ev>)
    ensures PicksOut([], rev, [], [], true) && PicksOut([], rev, [], [], false)
  {
  }

  lemma ServedHasEvents(p: Pollq, rev: int -> set<Ev>)
    ensures HasEvents(Served(p, rev)) <==> CountReady(Served(p, rev).pds) > 0
  {
    ReadyEntries(Served(p, rev).pds);
  }

  /** The idle thread dispatches only when no thread is runnable, so that every request
      on the I/O queue is one of a thread in IO_WAIT; exactly the requests with something
      to report leave the queue, those threads become runnable in the order of the queue,
      and the other requests stay in order. */
  lemma DispatchIsExact(ss: seq<State>, steps: seq<Step>, i: nat) returns (m: seq<nat>, k: seq<nat>)
    requires IsRun(ss, steps) && i < |steps| && steps[i].DoIdle? && steps[i].fired != []
    ensures var s, r, rev := ss[i], Dispatch(ss[i], steps[i].fired), Revents(ss[i], steps[i].fired);
            && s.runQ == [] && (forall t :: t in Threads(s.ioQ) ==> t in s.threads && s.threads[t].state == IO_WAIT)
            && PicksOut(s.ioQ, rev, Moved(s.ioQ, rev), m, true) && PicksOut(s.ioQ, rev, r.ioQ, k, false)
            && r.runQ == Threads(Moved(s.ioQ, rev))
  {
    hide Do, Good, PicksOut, Dispatch, Enabled;
    RunStep(ss, steps, i);
    m, k := DispatchSplits(ss[i], steps[i]);
  }

  lemma DispatchSplits(s: State, step: Step) returns (m: seq<nat>, k: seq<nat>)
    requires Good(s) && Enabled(s, step) && step.DoIdle? && step.fired != []
    ensures var r, rev := Dispatch(s, step.fired), Revents(s, step.fired);
            && s.runQ == [] && (forall t :: t in Threads(s.ioQ) ==> t in s.threads && s.threads[t].state == IO_WAIT)
            && PicksOut(s.ioQ, rev, Moved(s.ioQ, rev), m, true) && PicksOut(s.ioQ, rev, r.ioQ, k, false)
            && r.runQ == Threads(Moved(s.ioQ, rev))
  {
    hide PicksOut, Core, Dispatch;
    var rev := Revents(s, step.fired);
    IdleIsIdle(s, step);
    forall t | t in Threads(s.ioQ)
      ensures t in s.threads && s.threads[t].state == IO_WAIT
    {
      PollersWait(s, t);
    }
    DispatchKeeps(s, step.fired, Dispatch(s, step.fired));
    m, k := SplitIsExact(s.ioQ, rev);
    assert [] + Threads(Moved(s.ioQ, rev)) == Threads(Moved(s.ioQ, rev));
  }

  lemma IdleIsIdle(s: State, step: Step)
    requires Good(s) && Enabled(s, step) && step.DoIdle?
    ensures s.cur == s.idle && s.runQ == []
  {
    assert Fits(s.threads[s.cur], s.cur == s.idle, true);
  }

  // ---- mutexes ----

  /** A mutex that nobody owns keeps nobody waiting. */
  lemma FreeMutexHasNoWaiter(ss: seq<State>, steps: seq<Step>, i: nat, m: nat, t: nat)
    requires IsRun(ss, steps) && i < |ss| && m in ss[i].mutexes && ss[i].mutexes[m].owner == None && t in ss[i].mutexes[m].waitQ
    ensures t in ss[i].threads && ss[i].threads[t].state != LOCK_WAIT
  {
    hide IsRun, Do;
    RunsAreGood(ss, steps, i);
    Waiter(ss[i], m, t);
  }

  /** `st_mutex_lock` that had to wait returns 0 exactly if the caller owns the mutex, and
      EINTR exactly if it does not, whatever the order of interrupt and hand-over. */
  lemma LockOutcome(ss: seq<State>, steps: seq<Step>, i: nat, m: nat)
    requires IsRun(ss, steps) && i < |steps| && steps[i] == DoResume && Get(ss[i], ss[i].cur).at == InLock(m)
    ensures m in ss[i].mutexes && m in ss[i + 1].mutexes && ss[i + 1].mutexes[m].owner == ss[i].mutexes[m].owner
    ensures Enabled(ss[i], steps[i])
    ensures var ret, mine := Do(ss[i], steps[i]).ret, ss[i + 1].mutexes[m].owner == Some(ss[i].cur);
            && (ret == Some(Zero) <==> mine) && (ret == Some(Fail(EINTR)) <==> !mine)
            && (!mine ==> Get(ss[i], ss[i].cur).interrupt)
            && ss[i].cur !in ss[i + 1].mutexes[m].waitQ
  {
    hide Good, Do;
    RunStep(ss, steps, i);
    LockDoneOutcome(ss[i], m);
    ResumedLock(ss[i], steps[i], m);
  }

  lemma LockDoneOutcome(s: State, m: nat)
    requires Good(s) && Get(s, s.cur).at == InLock(m)
    ensures m in s.mutexes && s.mutexes[m].owner != Some(s.cur) ==> Get(s, s.cur).interrupt
    ensures m in s.mutexes
  {
    assert s.cur in s.threads && LockerOk(s, s.threads[s.cur], s.cur, None);
    assert Fits(s.threads[s.cur], s.cur == s.idle, true);
  }

  lemma ResumedLock(s: State, step: Step, m: nat)
    requires Enabled(s, step) && step.DoResume? && Get(s, s.cur).at == InLock(m) && m in s.mutexes
    ensures Do(s, step) == LockDone(s, m)
  {
  }

  /** A lock that returns 0 at once has given the mutex to the caller. */
  lemma LockAtOnce(s: State, m: nat)
    requires m in s.mutexes
    ensures var x, r := s.mutexes[m], Lock(s, m);
            && (r.ret == Some(Zero) <==> !Get(s, s.cur).interrupt && x.owner == None)
            && (r.ret == Some(Zero) ==> r.s == s.(mutexes := s.mutexes[m := x.(owner := Some(s.cur))]))
            && (r.ret == Some(Fail(EDEADLK)) <==> !Get(s, s.cur).interrupt && x.owner == Some(s.cur))
            && (r.ret.Some? && r.ret != Some(Zero) ==> r.s.mutexes == s.mutexes)
            && (r.ret == None ==> r.s.mutexes == s.mutexes[m := x.(waitQ := x.waitQ + [s.cur])])
  {
  }

  /** t is the first of q in the state st. */
  ghost predicate IsFirst(s: State, q: seq<nat>, st: TState, t: nat) {
    exists i :: 0 <= i < |q| && q[i] == t && Get(s, t).state == st && forall j :: 0 <= j < i ==> Get(s, q[j]).state != st
  }

  lemma FirstOfMore(s: State, q: seq<nat>, u: nat, st: TState, t: nat)
    ensures IsFirst(s, q, st, t) ==> IsFirst(s, q + [u], st, t)
    ensures (forall v :: v in q ==> Get(s, v).state != st) && Get(s, u).state == st ==> IsFirst(s, q + [u], st, u)
  {
    var more := q + [u];
    if IsFirst(s, q, st, t) {
      var i :| 0 <= i < |q| && q[i] == t && Get(s, t).state == st && forall j :: 0 <= j < i ==> Get(s, q[j]).state != st;
      assert more[i] == t && forall j :: 0 <= j < i ==> more[j] == q[j];
    }
    if (forall v :: v in q ==> Get(s, v).state != st) && Get(s, u).state == st {
      assert more[|q|] == u && forall j :: 0 <= j < |q| ==> more[j] == q[j] && q[j] in q;
    }
  }

  lemma {:induction false} WaitingFirst(s: State, q: seq<nat>, st: TState)
    ensures Waiting(s, q, st) == [] <==> forall t :: t in q ==> Get(s, t).state != st
    ensures Waiting(s, q, st) != [] ==> IsFirst(s, q, st, Waiting(s, q, st)[0])
  {
    hide IsFirst, Get;
    if q != [] {
      var n := |q| - 1;
      var w := Waiting(s, q[..n], st);
      WaitingFirst(s, q[..n], st);
      assert q == q[..n] + [q[n]];
      FirstOfMore(s, q[..n], q[n], st, if w == [] then 0 else w[0]);
    }
  }

  /** `st_mutex_unlock` by the owner gives the mutex straight to the first waiter still in
      LOCK_WAIT, and frees it only if there is none. */
  lemma UnlockHandsOver(s: State, m: nat)
    requires Good(s) && InCall(s) && m in s.mutexes && s.mutexes[m].owner == Some(s.cur)
    ensures var q, r := s.mutexes[m].waitQ, Unlock(s, m).s;
            if forall t :: t in q ==> Get(s, t).state != LOCK_WAIT
            then r == s.(mutexes := s.mutexes[m := Mutex(None, q)])
            else
              exists t :: IsFirst(s, q, LOCK_WAIT, t) && t in s.threads
                && r == s.(mutexes := s.mutexes[m := Mutex(Some(t), q)], runQ := s.runQ + [t],
                           threads := s.threads[t := s.threads[t].(state := RUNNABLE)])
  {
    hide IsFirst, CondOk, JoinOk, CountOk, StackOk, RunOk, ZombieOk, IoOk, HeapOk;
    var x := s.mutexes[m];
    var w := Waiting(s, x.waitQ, LOCK_WAIT);
    WaitingFirst(s, x.waitQ, LOCK_WAIT);
    if w != [] {
      WaitingIs(s, x.waitQ, LOCK_WAIT);
      assert w[0] in w;
      Waiter(s, m, w[0]);
      assert Fits(s.threads[w[0]], w[0] == s.idle, w[0] == s.cur);
      assert s.threads[w[0]].(state := RUNNABLE, onSleepQ := false) == s.threads[w[0]].(state := RUNNABLE);
    }
  }

  // ---- who changes the owner of a mutex ----

  /** The mutexes of both states have the same owners. */
  ghost predicate SameOwners(s: State, r: State) {
    forall m :: m in s.mutexes && m in r.mutexes ==> r.mutexes[m].owner == s.mutexes[m].owner
  }

  lemma CallOwners(s: State, step: Step, r: State)
    requires Follows(s, step, r) && !step.DoLock? && !step.DoUnlock? && !step.DoTrylock? && !step.DoResume? && !step.DoExit?
    ensures SameOwners(s, r) || step.DoMutexNew?
  {
    hide Poll, Usleep, CondWait, Join, Yield, IdleTurn, WakeAll, Unmap;
    if IsLong(step) { LongSame(s, step, r); }
    UnmapIs(s);
  }

  /** Ownership changes only when a free mutex is taken by the running thread, and when
      its owner unlocks it, in favour of the first waiter. */
  lemma OwnerChanges(s: State, step: Step, r: State, m: nat)
    requires Good(s) && Follows(s, step, r) && m in s.mutexes && m in r.mutexes && r.mutexes[m].owner != s.mutexes[m].owner
    ensures || (s.mutexes[m].owner == None && r.mutexes[m].owner == Some(s.cur) && (step == DoLock(m) || step == DoTrylock(m)))
            || (s.mutexes[m].owner == Some(s.cur) && step == DoUnlock(m)
                && (r.mutexes[m].owner.Some? ==> IsFirst(s, s.mutexes[m].waitQ, LOCK_WAIT, r.mutexes[m].owner.value)))
  {
    hide IsFirst, Good, Fits, Resume, Exit, Unlock, Lock;
    if step.DoLock? {
      LockAtOnce(s, step.m);
    } else if step.DoUnlock? {
      UnlockOwner(s, step.m);
    } else if step.DoResume? {
      ResumeSame(s, r);
    } else if step.DoExit? {
      ExitSame(s, step.retval);
    } else if step.DoMutexNew? {
      NewMutexIsNew(s);
    } else if !step.DoTrylock? {
      CallOwners(s, step, r);
    }
  }

  lemma UnlockOwner(s: State, m: nat)
    requires m in s.mutexes
    ensures var r, x := Unlock(s, m).s, s.mutexes[m];
            && r.mutexes.Keys == s.mutexes.Keys && (forall k :: k in s.mutexes && k != m ==> r.mutexes[k] == s.mutexes[k])
            && (r.mutexes[m].owner != x.owner ==> x.owner == Some(s.cur))
            && (r.mutexes[m].owner != x.owner && r.mutexes[m].owner.Some? ==> IsFirst(s, x.waitQ, LOCK_WAIT, r.mutexes[m].owner.value))
  {
    hide IsFirst, Waiting;
    WaitingFirst(s, s.mutexes[m].waitQ, LOCK_WAIT);
  }

  lemma NewMutexIsNew(s: State)
    requires Good(s)
    ensures s.nextId !in s.mutexes
  {
  }

  /** While a thread owns a mutex nobody else can take it away: it stays the owner until
      it unlocks the mutex itself. */
  lemma {:induction false} OwnershipLasts(ss: seq<State>, steps: seq<Step>, i: nat, j: nat, m: nat, t: nat)
    requires IsRun(ss, steps) && i <= j < |ss| && m in ss[i].mutexes && ss[i].mutexes[m].owner == Some(t)
    requires forall k :: i <= k < j ==> !(ss[k].cur == t && steps[k] == DoUnlock(m))
    ensures m in ss[j].mutexes && ss[j].mutexes[m].owner == Some(t)
  {
    hide Do, Good, Follows;
    if i < j {
      OwnershipLasts(ss, steps, i, j - 1, m, t);
      RunStep(ss, steps, j - 1);
      OwnedStays(ss[j - 1], steps[j - 1], ss[j], m, t);
    }
  }

  lemma OwnedStays(s: State, step: Step, r: State, m: nat, t: nat)
    requires Good(s) && Follows(s, step, r) && m in s.mutexes && s.mutexes[m].owner == Some(t)
    requires !(s.cur == t && step == DoUnlock(m))
    ensures m in r.mutexes && r.mutexes[m].owner == Some(t)
  {
    hide Good;
    MutexesStay(s, step, r, m);
    if r.mutexes[m].owner != Some(t) {
      OwnerChanges(s, step, r, m);
      assert false;
    }
  }

  /** Only a free mutex is destroyed. */
  lemma MutexesStay(s: State, step: Step, r: State, m: nat)
    requires Follows(s, step, r) && m in s.mutexes && s.mutexes[m].owner != None
    ensures m in r.mutexes
  {
    hide Resume, Exit;
    if step.DoExit? {
      ExitSame(s, step.retval);
    } else if step.DoResume? {
      ResumeSame(s, r);
    } else {
      CallMutexes(s, step, r, m);
    }
  }

  lemma CallMutexes(s: State, step: Step, r: State, m: nat)
    requires Follows(s, step, r) && !step.DoResume? && !step.DoExit? && m in s.mutexes && s.mutexes[m].owner != None
    ensures m in r.mutexes
  {
    hide Poll, Usleep, CondWait, Join, Yield, IdleTurn, WakeAll, Unmap, Suspend;
    if IsLong(step) { LongSame(s, step, r); }
    UnmapIs(s);
    if step.DoLock? { LockAtOnce(s, step.m); }
  }

  // ---- signals ----

  /** `st_cond_signal` makes runnable exactly the first waiter still in COND_WAIT and
      `st_cond_broadcast` exactly all of them, in order. */
  lemma SignalWakes(s: State, c: CondId, broadcast: bool)
    requires Good(s) && c in s.conds && c.User?
    ensures var q, r := s.conds[c], Signal(s, c, broadcast);
            && (broadcast ==> Woken(s, r, Waiting(s, q, COND_WAIT)))
            && (!broadcast && (forall t :: t in q ==> Get(s, t).state != COND_WAIT) ==> Woken(s, r, []))
            && (!broadcast && (exists t :: t in q && Get(s, t).state == COND_WAIT) ==>
                  exists t :: IsFirst(s, q, COND_WAIT, t) && Woken(s, r, [t]))
  {
    hide IsFirst, Woken, Waiting, WakeAll, RunOk, ZombieOk, IoOk, HeapOk, CondOk, MutexOk, JoinOk, StackOk, CountOk;
    var w := Waiting(s, s.conds[c], COND_WAIT);
    SignalKeeps(s, Some(s.cur), None, c, broadcast);
    WaitingFirst(s, s.conds[c], COND_WAIT);
    if !broadcast && w != [] { assert w[..1] == [w[0]]; }
  }

  // ---- stacks and counts ----

  /** When `st_thread_create` unmaps the free stacks none of them belongs to a thread that
      runs, is runnable, sleeps, polls or waits, and the counter of free stacks is right. */
  lemma UnmappedStacksAreDead(ss: seq<State>, steps: seq<Step>, i: nat, t: nat)
    requires IsRun(ss, steps) && i < |steps| && steps[i].DoCreate? && t in ss[i].freeStacks
    ensures var s := ss[i];
            && s.numFreeStacks == |s.freeStacks| && t in s.threads && s.threads[t].at.Gone? && t != s.cur && t != s.idle
            && t !in s.runQ && t !in s.zombieQ && t !in Threads(s.ioQ) && !OnHeap(s.sleepQ, t)
            && (forall c :: c in s.conds ==> t !in s.conds[c]) && (forall m :: m in s.mutexes ==> t !in s.mutexes[m].waitQ)
  {
    hide Do, Follows;
    RunsAreGood(ss, steps, i);
    FreedIsNowhere(ss[i], t);
  }

  /** The threads created, the first one included, less the exits begun. */
  ghost function Started(ss: seq<State>, steps: seq<Step>): int
    requires IsRun(ss, steps)
  {
    if steps == [] then 1
    else
      var n := |steps| - 1;
      Started(ss[..n + 1], steps[..n])
      - (if steps[n].DoExit? then 1 else 0)
      + (if steps[n].DoCreate? && Do(ss[n], steps[n]).ret.value.NewThread? then 1 else 0)
  }

  /** The count of active threads is right: it is what was started and has not begun its
      exit, and just as many threads are in that condition. */
  lemma {:induction false} ActiveCountIsRight(ss: seq<State>, steps: seq<Step>)
    requires IsRun(ss, steps)
    ensures var s := ss[|steps|];
            && s.activeCount == Started(ss, steps)
            && s.activeCount == |set t | t in s.threads && t != s.idle && !s.threads[t].at.InExit? && !s.threads[t].at.Gone?|
  {
    hide ShapeOk, RunOk, ZombieOk, IoOk, HeapOk, CondOk, MutexOk, JoinOk, StackOk;
    hide Do;
    RunsAreGood(ss, steps, |steps|);
    var s := ss[|steps|];
    assert Active(s) == set t | t in s.threads && t != s.idle && !s.threads[t].at.InExit? && !s.threads[t].at.Gone?;
    if steps != [] {
      var n := |steps| - 1;
      ActiveCountIsRight(ss[..n + 1], steps[..n]);
      CountsChange(ss[n], steps[n]);
    }
  }
}
