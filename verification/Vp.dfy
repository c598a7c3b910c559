/** The virtual processor: the global state of sched.c, sync.c and stk.c, changed in place.
    The sleep queue is the heap of real nodes.  Each call is a method that is proved to do
    what the state machine of SchedModel says, and to keep its invariant and that of the
    epoll layer. */
module Vp {
  import opened Basics
  import opened HeapModel
  import opened Epoll
  import opened SchedQueues
  import opened SleepQueue
  import Model = SchedModel
  import opened SchedModel
  import opened SchedInvariant
  import opened SchedRuns
  import opened SchedTheorems

  // ---- poll requests and the entries they contribute to the epoll counts ----

  /** What is reported to an entry does not matter for the counts. */
  lemma {:induction false} TallyReported(pds: seq<PollFd>, rev: int -> set<Ev>, fd: int)
    ensures Tally(Reported(pds, rev), fd) == Tally(pds, fd)
  {
    if pds != [] {
      var n := |pds| - 1;
      TallyReported(pds[..n], rev, fd);
      assert Reported(pds, rev)[..n] == Reported(pds[..n], rev);
    }
  }

  lemma TallySwap(a: seq<PollFd>, b: seq<PollFd>, c: seq<PollFd>, fd: int)
    ensures Tally(a + b + c, fd) == Tally(a + c + b, fd)
  {
    hide Tally;
    TallyConcat(a + b, c, fd);
    TallyConcat(a, b, fd);
    TallyConcat(a + c, b, fd);
    TallyConcat(a, c, fd);
  }

  lemma AllPdsParts(a: seq<Pollq>, p: Pollq, c: seq<Pollq>)
    ensures AllPds(a + [p] + c) == AllPds(a) + p.pds + AllPds(c)
  {
    hide AllPds;
    AllPdsConcat(a + [p], c);
    AllPdsAdd(a, p);
  }

  lemma Parts(q: seq<Pollq>, k: nat)
    requires k < |q|
    ensures q[..k] + [q[k]] + q[k + 1..] == q
  {
  }

  /** One request of the queue, at position k. */
  lemma RequestAt(q: seq<Pollq>, k: nat)
    requires k < |q|
    ensures AllPds(q) == AllPds(q[..k]) + q[k].pds + AllPds(q[k + 1..])
  {
    hide AllPds;
    Parts(q, k);
    AllPdsParts(q[..k], q[k], q[k + 1..]);
  }

  /** The records of the idle and of the primordial thread. */
  method FirstRecords() returns (q: Sleepers)
    ensures q.Valid() && q.contents == [] && q.nodes.Keys == {0, 1} && q.top == 2
    ensures fresh(q) && fresh(q.parts) && q !in q.parts
  {
    q := new Sleepers();
    q.Enlist(0);
    assert fresh(q.parts);
    q.Enlist(1);
  }

  class Vp {
    var cur: nat
    var idle: nat
    var threads: map<nat, Thread>
    var nextId: nat
    var runQ: seq<nat>
    var ioQ: seq<Pollq>
    var zombieQ: seq<nat>
    var conds: map<CondId, seq<nat>>
    var mutexes: map<nat, Mutex>
    var freeStacks: seq<nat>
    var numFreeStacks: int
    var activeCount: int
    var lastClock: int
    const sleepers: Sleepers
    const ep: EpollSys

    /** The state as a value. */
    ghost function Abs(): State
      reads this, sleepers
    {
      State(cur, idle, threads, nextId, runQ, ioQ, zombieQ, sleepers.contents, conds, mutexes, freeStacks, numFreeStacks, activeCount, lastClock)
    }

    /** Every thread has a record that can go to the heap. */
    ghost predicate Recorded()
      reads this, sleepers, sleepers.parts
    {
      && sleepers.Valid() && this !in sleepers.parts && ep !in sleepers.parts && sleepers !in sleepers.parts
      && threads.Keys <= sleepers.nodes.Keys && sleepers.top <= nextId
    }

    lemma Apart()
      requires Recorded()
      ensures this !in sleepers.parts && ep !in sleepers.parts && sleepers !in sleepers.parts
    {
    }

    /** Changes to threads that have a record leave every record where it is. */
    twostate lemma StillRecorded()
      requires old(Recorded()) && unchanged(sleepers, old(sleepers.parts))
      requires (forall t :: t in threads ==> t in old(threads) || t in sleepers.nodes) && old(nextId) <= nextId
      ensures Recorded()
    {
    }

    ghost predicate Valid()
      reads this, ep, sleepers, sleepers.parts
    {
      Good(Abs()) && ep.Valid(AllPds(ioQ)) && Recorded()
    }

    /** The tree of nodes links the records of exactly the threads that sleep, none of which
        has been unmapped, and its root is due first. */
    lemma TreeOfSleepers(t: nat)
      requires Valid() && t in sleepers.nodes
      ensures sleepers.nodes[t].onSleepQ <==> t in threads && threads[t].onSleepQ
      ensures t in threads && threads[t].onSleepQ ==>
                sleepers.heap.root != null && sleepers.heap.root.due <= sleepers.nodes[t].due
    {
      sleepers.Listed(t);
      assert HeapOk(Abs());
      if sleepers.nodes[t].onSleepQ { sleepers.heap.RootIsEarliest(sleepers.nodes[t]); }
    }

    /** `st_init` */
    constructor (fdHint: nat)
      requires fdHint > 0
      ensures Valid() && Abs() == INIT && fresh(ep) && fresh(sleepers) && fresh(sleepers.parts)
    {
      hide Good, Sleepers.Valid, EpollSys.Valid;
      cur, idle, nextId := 1, 0, 2;
      threads := map[0 := NOBODY.(state := RUNNABLE, at := InIdle), 1 := NOBODY.(at := InUser, primordial := true)];
      runQ, ioQ, zombieQ, conds, mutexes := [], [], [], map[], map[];
      freeStacks, numFreeStacks, activeCount, lastClock := [], 0, 1, 0;
      ep := new EpollSys(fdHint);
      var records := FirstRecords();
      sleepers := records;
      new;
      InitIsGood();
    }

    function Me(): Thread
      reads this
    {
      if cur in threads then threads[cur] else NOBODY
    }

    // ---- moving threads between queues ----

    /** `_st_del_sleep_q` */
    method DelSleepQ(t: nat)
      requires Recorded() && t in threads
      modifies sleepers`contents, sleepers.parts, this`threads
      ensures Recorded() && sleepers.contents == HeapWithout(old(sleepers.contents), t)
      ensures threads == old(threads)[t := old(threads)[t].(onSleepQ := false)]
    {
      hide Sleepers.Valid;
      sleepers.Del(t);
      threads := threads[t := threads[t].(onSleepQ := false)];
    }

    /** `_st_add_sleep_q` */
    method AddSleepQ(timeout: int)
      requires Recorded() && cur in threads && !OnHeap(sleepers.contents, cur)
      modifies sleepers`contents, sleepers.parts, this`threads
      ensures Recorded() && sleepers.contents == Insert(old(sleepers.contents), Sleeper(cur, lastClock + timeout))
      ensures threads == old(threads)[cur := old(threads)[cur].(onSleepQ := true)]
    {
      hide Sleepers.Valid;
      threads := threads[cur := threads[cur].(onSleepQ := true)];
      sleepers.Add(cur, lastClock, timeout);
    }

    /** A waiting thread becomes runnable. */
    method MakeReady(t: nat)
      requires Recorded() && t in threads
      modifies this`threads, sleepers`contents, sleepers.parts, this`runQ
      ensures Recorded() && Abs() == Wake(old(Abs()), t)
    {
      hide Recorded, HeapWithout;
      ghost var h := threads[t];
      LastWrite(threads, t, h.(onSleepQ := false), h.(state := RUNNABLE, onSleepQ := false));
      SameFlag(h);
      Apart();
      if threads[t].onSleepQ {
        DelSleepQ(t);
      }
      label L:
      threads := threads[t := threads[t].(state := RUNNABLE)];
      runQ := runQ + [t];
      StillRecorded@L();
    }

    /** The running thread prepares to leave the processor. */
    method Prepare(st: TState, at: Place, timeout: Option<int>)
      requires Recorded() && cur in threads && (timeout.Some? ==> !OnHeap(sleepers.contents, cur))
      modifies this`threads, sleepers`contents, sleepers.parts
      ensures Recorded() && Abs() == Suspend(old(Abs()), st, at, timeout)
    {
      hide Sleepers.Valid;
      threads := threads[cur := threads[cur].(state := st, at := at)];
      if timeout.Some? {
        AddSleepQ(timeout.value);
      }
    }

    /** `_st_vp_schedule` */
    method SwitchContext()
      requires Recorded() && idle in threads && forall t :: t in runQ ==> t in threads
      modifies this`cur, this`runQ, this`threads
      ensures Recorded() && Abs() == Schedule(old(Abs()))
    {
      hide Sleepers.Valid;
      var t := idle;
      if runQ != [] {
        t := runQ[0];
        assert t in runQ;
        runQ := runQ[1..];
      }
      threads := threads[t := threads[t].(state := RUNNING)];
      cur := t;
    }

    /** A pending interrupt ends the call. */
    method TakeInterrupt() returns (ret: Option<Ret>)
      requires Recorded() && cur in threads
      modifies this`threads
      ensures Recorded() && Result(Abs(), ret) == Interrupted(old(Abs()))
    {
      hide Sleepers.Valid;
      threads := threads[cur := threads[cur].(at := InUser, interrupt := false)];
      ret := Some(Fail(EINTR));
    }

    /** A call that had blocked ends, with r or by an interrupt. */
    method EndCall(r: Ret) returns (ret: Option<Ret>)
      requires Recorded() && cur in threads
      modifies this`threads
      ensures Recorded()
      ensures var s := old(Abs()); Result(Abs(), ret) == if Get(s, s.cur).interrupt then Interrupted(s) else Return(s, r)
    {
      hide Recorded;
      if threads[cur].interrupt {
        ret := TakeInterrupt();
      } else {
        Apart();
        threads := threads[cur := threads[cur].(at := InUser)];
        ret := Some(r);
        StillRecorded();
      }
    }

    // ---- sched.c ----

    /** The thread due first has slept long enough. */
    method WakeFirst(t: nat)
      requires Recorded() && t in threads && sleepers.contents != [] && t == sleepers.contents[0].who
      requires HeapWithout(sleepers.contents, t) == Delete(sleepers.contents, 1)
      modifies this`threads, sleepers`contents, sleepers.parts, this`runQ
      ensures Recorded() && Abs() == ExpireOne(old(Abs()))
    {
      hide Delete, HeapWithout, Sleepers.Valid;
      sleepers.Del(t);
      var h := threads[t].(onSleepQ := false);
      if h.state == COND_WAIT {
        h := h.(timedOut := true);
      }
      threads := threads[t := h.(state := RUNNABLE)];
      runQ := [t] + runQ;
    }

    /** `_st_vp_check_clock` */
    method CheckClock(now: int)
      requires Inv(Abs()) && Recorded()
      modifies this`lastClock, this`threads, sleepers`contents, sleepers.parts, this`runQ
      ensures Recorded() && Abs() == Model.CheckClock(old(Abs()), now)
    {
      hide Core, Insert, Delete, HeapWithout, Expire, ExpireOne, Expired, Sleepers.Valid;
      ghost var run := Some(cur);
      ClockIsFree(Abs(), run, Abs().(lastClock := now));
      lastClock := now;
      var some, t, due := sleepers.First();
      while some
        invariant Core(Abs(), run, None) && Recorded()
        invariant some == (sleepers.contents != []) && (some ==> sleepers.contents[0] == Sleeper(t, due))
        invariant Expire(Abs(), now) == Model.CheckClock(old(Abs()), now)
        decreases |sleepers.contents|
      {
        ghost var before := Abs();
        RootIsThread(Abs(), run);
        ExpireTurn(before, now);
        if due > now {
          return;
        }
        WakeFirst(t);
        ExpireOneKeeps(before, run, Abs());
        ExpireShortens(before);
        some, t, due := sleepers.First();
      }
      ExpireDone(Abs(), now);
    }

    // ---- sync.c ----

    /** `_st_cond_signal` */
    method Signal(c: CondId, broadcast: bool)
      requires Recorded() && c in conds && NoDup(conds[c]) && forall t :: t in conds[c] || t in runQ ==> t in threads
      modifies this`threads, sleepers`contents, sleepers.parts, this`runQ
      ensures Recorded() && Abs() == Model.Signal(old(Abs()), c, broadcast)
      ensures threads.Keys == old(threads).Keys && forall t :: t in runQ ==> t in threads
    {
      hide Recorded, Signalled, Wake, WakeAll, Waiting, NoDup;
      ghost var s := Abs();
      Apart();
      var q, i := conds[c], 0;
      ghost var ts: seq<nat> := [];
      NothingWoken(s, q);
      while i < |q|
        invariant i <= |q| && ts == Waiting(s, q[..i], COND_WAIT)
        invariant Abs() == WakeAll(s, ts) && Woken(s, Abs(), ts)
        invariant forall t :: t in runQ ==> t in threads
        invariant Recorded() && (!broadcast ==> ts == [])
      {
        var t := q[i];
        NextWaiting(s, q, i, COND_WAIT);
        assert t in q;
        if threads[t].state == COND_WAIT {
          WakeNext(s, Abs(), ts, t);
          MakeReady(t);
          ts := ts + [t];
          if !broadcast {
            FirstSignalled(s, c, i, t);
            assert ts == [t];
            return;
          }
        }
        i := i + 1;
      }
      AllSignalled(s, c, broadcast, ts);
    }

    /** `st_mutex_unlock` */
    method Unlock(m: nat) returns (ret: Option<Ret>)
      requires Valid() && Me().at.InUser? && m in mutexes
      modifies this`threads, this`mutexes, this`runQ
      ensures Result(Abs(), ret) == Model.Unlock(old(Abs()), m) && Valid()
    {
      hide Recorded, Waiting, Wake, Good, EpollSys.Valid;
      ghost var s := Abs();
      Apart();
      UnlockStep(s, m);
      if mutexes[m].owner != Some(cur) {
        return Some(Fail(EPERM));
      }
      var q, i := mutexes[m].waitQ, 0;
      assert q[..0] == [];
      NoneWaiting(s, LOCK_WAIT);
      while i < |q|
        invariant i <= |q| && Abs() == s && Waiting(s, q[..i], LOCK_WAIT) == []
      {
        var t := q[i];
        NextWaiting(s, q, i, LOCK_WAIT);
        LockerIsThread(s, m, t);
        if threads[t].state == LOCK_WAIT {
          FirstWaiting(s, q, i + 1, LOCK_WAIT);
          HandOver(m, t);
          return Some(Zero);
        }
        i := i + 1;
      }
      assert q[..|q|] == q;
      mutexes := mutexes[m := mutexes[m].(owner := None)];
      StillRecorded();
      return Some(Zero);
    }

    /** The mutex goes to t, which becomes runnable. */
    method HandOver(m: nat, t: nat)
      requires Recorded() && m in mutexes && t in threads && !threads[t].onSleepQ
      modifies this`threads, this`mutexes, this`runQ
      ensures var s := old(Abs());
              Recorded() && Abs() == Wake(s.(mutexes := s.mutexes[m := s.mutexes[m].(owner := Some(t))]), t)
    {
      hide Recorded, Wake;
      ghost var s := Abs();
      Apart();
      mutexes := mutexes[m := mutexes[m].(owner := Some(t))];
      threads := threads[t := threads[t].(state := RUNNABLE)];
      runQ := runQ + [t];
      WakeLocker(s.(mutexes := mutexes), t);
      StillRecorded();
    }

    /** `st_mutex_lock`, up to the context switch. */
    method Lock(m: nat) returns (ret: Option<Ret>)
      requires Valid() && Me().at.InUser? && m in mutexes
      modifies this, sleepers`contents, sleepers.parts
      ensures Result(Abs(), ret) == Model.Lock(old(Abs()), m) && Valid()
    {
      hide Core, Schedule, Sleepers.Valid;
      LockStep(Abs(), m);
      RunnerIsThread(Abs());
      if threads[cur].interrupt {
        ret := TakeInterrupt();
      } else if mutexes[m].owner == None {
        mutexes := mutexes[m := mutexes[m].(owner := Some(cur))];
        ret := Some(Zero);
      } else if mutexes[m].owner == Some(cur) {
        ret := Some(Fail(EDEADLK));
      } else {
        mutexes := mutexes[m := mutexes[m].(waitQ := mutexes[m].waitQ + [cur])];
        Prepare(LOCK_WAIT, InLock(m), None);
        SwitchContext();
        ret := None;
      }
    }

    /** `st_mutex_lock`, after the context switch. */
    method LockDone(m: nat) returns (ret: Option<Ret>)
      requires Valid() && Me().at == InLock(m)
      modifies this`threads, this`mutexes
      ensures old(m in mutexes) && Result(Abs(), ret) == Model.LockDone(old(Abs()), m) && Valid()
    {
      hide Recorded, Good, Without, EpollSys.Valid;
      Apart();
      LockDoneStep(Abs(), m);
      RunnerIsThread(Abs());
      mutexes := mutexes[m := mutexes[m].(waitQ := Without(mutexes[m].waitQ, cur))];
      StillRecorded();
      if threads[cur].interrupt && mutexes[m].owner != Some(cur) {
        ret := TakeInterrupt();
      } else {
        threads := threads[cur := threads[cur].(at := InUser)];
        ret := Some(Zero);
      }
      StillRecorded();
    }

    /** `st_mutex_trylock` */
    method Trylock(m: nat) returns (ret: Option<Ret>)
      requires Valid() && Me().at.InUser? && m in mutexes
      modifies this`mutexes
      ensures Result(Abs(), ret) == Model.Trylock(old(Abs()), m) && Valid()
    {
      hide Core, Sleepers.Valid;
      TrylockStep(Abs(), m);
      if mutexes[m].owner != None {
        return Some(Fail(EBUSY));
      }
      mutexes := mutexes[m := mutexes[m].(owner := Some(cur))];
      ret := Some(Zero);
    }

    /** `st_usleep`, up to the context switch. */
    method Usleep(timeout: Option<int>) returns (ret: Option<Ret>)
      requires Valid() && Me().at.InUser?
      modifies this, sleepers`contents, sleepers.parts
      ensures Result(Abs(), ret) == Model.Usleep(old(Abs()), timeout) && Valid()
    {
      hide Core, Schedule, Insert, Sleepers.Valid;
      UsleepStep(Abs(), timeout);
      RunnerIsThread(Abs());
      if threads[cur].interrupt {
        ret := TakeInterrupt();
      } else {
        Prepare(if timeout.Some? then SLEEPING else SUSPENDED, InSleep, timeout);
        SwitchContext();
        ret := None;
      }
    }

    /** `st_usleep`, after the context switch. */
    method SleepDone() returns (ret: Option<Ret>)
      requires Valid() && Me().at.InSleep?
      modifies this`threads
      ensures Result(Abs(), ret) == Model.SleepDone(old(Abs())) && Valid()
    {
      hide Core, Sleepers.Valid;
      ResumeStep(Abs());
      RunnerIsThread(Abs());
      ret := EndCall(Zero);
    }

    /** `st_cond_timedwait`, up to the context switch. */
    method CondWait(c: CondId, timeout: Option<int>) returns (ret: Option<Ret>)
      requires Valid() && Me().at.InUser? && c in conds && c.User?
      modifies this, sleepers`contents, sleepers.parts
      ensures Result(Abs(), ret) == Model.CondWait(old(Abs()), c, timeout) && Valid()
    {
      hide Core, Schedule, Insert, Sleepers.Valid;
      CondWaitStep(Abs(), c, timeout);
      RunnerIsThread(Abs());
      ret := WaitFor(c, timeout);
    }

    /** The same, for the user and for a join. */
    method WaitFor(c: CondId, timeout: Option<int>) returns (ret: Option<Ret>)
      requires Recorded() && cur in threads && idle in threads && (forall t :: t in runQ ==> t in threads) && c in conds && (timeout.Some? ==> !OnHeap(sleepers.contents, cur))
      modifies this`cur, this`threads, sleepers`contents, sleepers.parts, this`runQ, this`conds
      ensures Recorded() && Result(Abs(), ret) == Model.CondWait(old(Abs()), c, timeout)
    {
      hide Schedule, Insert, Sleepers.Valid;
      if threads[cur].interrupt {
        ret := TakeInterrupt();
      } else {
        conds := conds[c := conds[c] + [cur]];
        Prepare(COND_WAIT, InCond(c), timeout);
        SwitchContext();
        ret := None;
      }
    }

    /** `st_cond_timedwait`, after the context switch; a join goes on with its loop. */
    method CondDone(c: CondId) returns (ret: Option<Ret>)
      requires Valid() && Me().at == InCond(c)
      modifies this, sleepers`contents, sleepers.parts
      ensures Result(Abs(), ret) == Model.CondDone(old(Abs()), c) && Valid()
    {
      hide Recorded, Good, Model.EndWait, Model.JoinLoop, EpollSys.Valid;
      ghost var s := Abs();
      Apart();
      CondDoneStep(s, c);
      RunnerIsThread(s);
      WaiterIsQueued(s, c);
      EndWaitFrame(s, c);
      JoinLoopFrame(Model.EndWait(s, c), c);
      var h := EndWait(c);
      if h.interrupt {
        ret := Some(Fail(EINTR));
      } else if h.timedOut {
        ret := Some(Fail(ETIME));
      } else if c.User? {
        ret := Some(Zero);
      } else {
        ret := JoinLoop(c.t);
      }
    }

    /** The thread leaves the wait queue, and its flags are taken down. */
    method EndWait(c: CondId) returns (h: Thread)
      requires Recorded() && cur in threads && c in conds
      modifies this`threads, this`conds
      ensures h == old(Me()) && Recorded() && Abs() == Model.EndWait(old(Abs()), c)
    {
      hide Recorded, Without;
      Apart();
      h := threads[cur];
      conds := conds[c := Without(conds[c], cur)];
      threads := threads[cur := h.(at := InUser, timedOut := false, interrupt := false)];
      StillRecorded();
    }

    // ---- sched.c ----

    /** The loop of `st_thread_join`. */
    method JoinLoop(u: nat) returns (ret: Option<Ret>)
      requires Recorded() && cur in threads && idle in threads && (forall t :: t in runQ ==> t in threads)
      requires u in threads && Term(u) in conds
      modifies this`cur, this`threads, sleepers`contents, sleepers.parts, this`runQ, this`conds, this`zombieQ
      ensures Recorded() && Result(Abs(), ret) == Model.JoinLoop(old(Abs()), u)
    {
      hide Schedule, Sleepers.Valid;
      if threads[u].state != ZOMBIE {
        ret := WaitFor(Term(u), None);
      } else {
        ret := Some(Retval(threads[u].retval));
        threads := threads[u := threads[u].(state := RUNNABLE)];
        zombieQ := Without(zombieQ, u);
        runQ := runQ + [u];
      }
    }

    /** `st_thread_join`, up to the context switch. */
    method Join(u: nat) returns (ret: Option<Ret>)
      requires Valid() && Me().at.InUser? && u in threads
      modifies this, sleepers`contents, sleepers.parts
      ensures Result(Abs(), ret) == Model.Join(old(Abs()), u) && Valid()
    {
      hide Core, Schedule, Sleepers.Valid;
      JoinStep(Abs(), u);
      RunnerIsThread(Abs());
      if !threads[u].term {
        ret := Some(Fail(EINVAL));
      } else if cur == u {
        ret := Some(Fail(EDEADLK));
      } else {
        TermIsThere(Abs(), u);
        if conds[Term(u)] != [] {
          ret := Some(Fail(EINVAL));
        } else {
          ret := JoinLoop(u);
        }
      }
    }

    /** `st_thread_yield` */
    method Yield(now: int) returns (ret: Option<Ret>)
      requires Valid() && Me().at.InUser?
      modifies this, sleepers`contents, sleepers.parts
      ensures Result(Abs(), ret) == Model.Yield(old(Abs()), now) && Valid()
    {
      hide Recorded, Core, Schedule, Model.CheckClock, EpollSys.Valid;
      Apart();
      YieldStep(Abs(), now);
      ClockFrame(Abs(), now);
      CheckClock(now);
      if runQ == [] {
        return Some(Zero);
      }
      GiveWay();
      ret := None;
    }

    /** The running thread goes to the end of the run queue. */
    method GiveWay()
      requires Recorded() && cur in threads && idle in threads && forall t :: t in runQ ==> t in threads
      modifies this`threads, this`runQ, this`cur
      ensures var s := old(Abs());
              Recorded() && Abs() == Schedule(Suspend(s, RUNNABLE, InYield, None).(runQ := s.runQ + [s.cur]))
    {
      hide Recorded, Schedule;
      Apart();
      threads := threads[cur := threads[cur].(state := RUNNABLE, at := InYield)];
      runQ := runQ + [cur];
      StillRecorded();
      SwitchContext();
    }

    /** `st_thread_interrupt` */
    method Interrupt(t: nat) returns (ret: Option<Ret>)
      requires Valid() && Me().at.InUser? && t in threads
      modifies this`threads, sleepers`contents, sleepers.parts, this`runQ
      ensures Result(Abs(), ret) == Model.Interrupt(old(Abs()), t) && Valid()
    {
      hide Recorded, Good, Wake, EpollSys.Valid;
      ghost var s := Abs();
      Apart();
      InterruptStep(s, t);
      InterruptIs(s, t);
      ret := Some(Zero);
      if threads[t].state == ZOMBIE {
        return;
      }
      threads := threads[t := threads[t].(interrupt := true)];
      StillRecorded();
      if threads[t].state == RUNNING || threads[t].state == RUNNABLE {
        return;
      }
      MakeReady(t);
    }

    /** `_st_stack_free` */
    method FreeStack(t: nat)
      modifies this`freeStacks, this`numFreeStacks
      ensures Abs() == Model.FreeStack(old(Abs()), t)
    {
      if freeStacks == [] {
        freeStacks := [t];
      } else {
        var n := |freeStacks| - 1;
        freeStacks := freeStacks[..n] + [t, freeStacks[n]];
      }
      numFreeStacks := numFreeStacks + 1;
    }

    /** The end of `st_thread_exit`. */
    method Vanish()
      requires cur in threads
      modifies this`threads, this`freeStacks, this`numFreeStacks
      ensures Abs() == Model.Vanish(old(Abs()), old(threads)[cur])
    {
      if !threads[cur].primordial {
        FreeStack(cur);
      }
      threads := threads[cur := threads[cur].(state := RUNNING, at := Gone)];
    }

    /** The thread vanishes, and another one runs. */
    method Leave()
      requires Recorded() && cur in threads && idle in threads && forall t :: t in runQ ==> t in threads
      modifies this
      ensures Recorded() && Abs() == Schedule(Model.Vanish(old(Abs()), old(threads[cur]))) && ioQ == old(ioQ)
    {
      hide Recorded, Schedule, Model.Vanish;
      Apart();
      VanishFrame(Abs(), threads[cur]);
      Vanish();
      StillRecorded();
      SwitchContext();
    }

    /** `st_thread_exit`, up to its first context switch. */
    method Exit(retval: int) returns (ret: Option<Ret>)
      requires Valid() && Me().at.InUser?
      modifies this, sleepers`contents, sleepers.parts
      ensures Result(Abs(), ret) == Model.Exit(old(Abs()), retval) && Valid()
    {
      hide Recorded, Good, Schedule, Model.Signal, Model.Vanish, Model.Exit, EpollSys.Valid;
      Apart();
      ghost var s := Abs();
      ExitStep(s, retval);
      RunnerIsThread(s);
      threads := threads[cur := threads[cur].(retval := retval)];
      activeCount := activeCount - 1;
      StillRecorded();
      if threads[cur].term {
        TermIsThere(s, cur);
        BecomeZombie();
        ZombieIs(s, retval, Abs());
        Signal(Term(cur), false);
        SwitchContext();
      } else {
        PlainExitIs(s, retval, Abs());
        Leave();
      }
      ret := None;
    }

    method BecomeZombie()
      requires Recorded() && cur in threads
      modifies this`threads, this`zombieQ
      ensures var s := old(Abs());
              && Recorded()
              && Abs() == SetThread(s, s.cur, s.threads[s.cur].(state := ZOMBIE, at := InExit)).(zombieQ := s.zombieQ + [s.cur])
    {
      hide Recorded;
      Apart();
      threads := threads[cur := threads[cur].(state := ZOMBIE, at := InExit)];
      zombieQ := zombieQ + [cur];
      StillRecorded();
    }

    /** `st_thread_exit`, after its first context switch. */
    method ExitDone() returns (ret: Option<Ret>)
      requires Valid() && Me().at.InExit?
      modifies this
      ensures Result(Abs(), ret) == Model.ExitDone(old(Abs())) && Valid()
    {
      hide Recorded, Good, Model.ExitDone, EpollSys.Valid;
      hide Schedule, Model.Vanish;
      ghost var s := Abs();
      ExitDoneStep(s);
      RunnerIsThread(s);
      ExitingHasTerm(s);
      ExitDoneIs(s, TermDropped(s));
      DropTerm();
      Leave();
      ret := None;
    }

    /** The termination variable goes, unless somebody waits for it still. */
    method DropTerm()
      requires Recorded() && cur in threads && Term(cur) in conds
      modifies this`threads, this`conds
      ensures Recorded() && Abs() == TermDropped(old(Abs()))
    {
      hide Recorded;
      Apart();
      if conds[Term(cur)] == [] {
        conds := conds - {Term(cur)};
      }
      threads := threads[cur := threads[cur].(term := false)];
      StillRecorded();
    }

    /** A thread begins, or comes back from `st_thread_yield`. */
    method GoOn() returns (ret: Option<Ret>)
      requires Valid() && (Me().at.Start? || Me().at.InYield?)
      modifies this`threads
      ensures Result(Abs(), ret) == Model.Resume(old(Abs())) && Valid()
    {
      hide Core, Sleepers.Valid;
      ResumeStep(Abs());
      RunnerIsThread(Abs());
      threads := threads[cur := threads[cur].(at := InUser)];
      ret := Some(Zero);
    }

    /** The part of `_st_stack_new` that unmaps the stacks freed before. */
    method UnmapStacks()
      modifies this`threads, this`freeStacks, this`numFreeStacks
      ensures Abs() == Unmap(old(Abs()))
    {
      hide Unmap;
      while freeStacks != []
        invariant Unmap(Abs()) == Unmap(old(Abs()))
        decreases |freeStacks|
      {
        UnmapFirst(Abs());
        threads := threads - {freeStacks[0]};
        freeStacks := freeStacks[1..];
        numFreeStacks := numFreeStacks - 1;
      }
      UnmapNone(Abs());
    }

    /** The number and the record of a new thread. */
    method NewRecord() returns (t: nat)
      requires Recorded()
      modifies this`nextId, sleepers`nodes, sleepers`top, sleepers`parts, sleepers.heap`pool
      ensures Recorded() && t == old(nextId) && nextId == t + 1 && t in sleepers.nodes
      ensures old(sleepers.parts) <= sleepers.parts && fresh(sleepers.parts - old(sleepers.parts))
    {
      hide Sleepers.Valid;
      t := nextId;
      sleepers.Enlist(t);
      nextId := nextId + 1;
    }

    /** `st_thread_create` */
    method Create(joinable: bool, stackOk: bool, condOk: bool) returns (ret: Option<Ret>)
      requires Valid() && Me().at.InUser?
      modifies this, sleepers`nodes, sleepers`top, sleepers`parts, sleepers.heap`pool
      ensures old(sleepers.parts) <= sleepers.parts && fresh(sleepers.parts - old(sleepers.parts))
      ensures Result(Abs(), ret) == Model.Create(old(Abs()), joinable, stackOk, condOk) && Valid()
    {
      hide Recorded, Good, Unmap, Model.Begin, EpollSys.Valid;
      Apart();
      ghost var s := Abs();
      CreateStep(s, joinable, stackOk, condOk);
      UnmapFrame(s);
      BeginFrame(Unmap(s), joinable, condOk);
      UnmapStacks();
      StillRecorded();
      if stackOk {
        ret := Begin(joinable, condOk);
      } else {
        ret := Some(Fail(ENOMEM));
      }
    }

    /** The stack of a thread that cannot be made is freed again. */
    method Abandon(t: nat)
      requires Recorded() && t in sleepers.nodes
      modifies this`threads, this`freeStacks, this`numFreeStacks
      ensures Recorded() && Abs() == Model.FreeStack(SetThread(old(Abs()), t, NOBODY), t)
    {
      hide Recorded;
      Apart();
      threads := threads[t := NOBODY];
      FreeStack(t);
      StillRecorded();
    }

    /** The rest of `st_thread_create`, once there is a stack. */
    method Begin(joinable: bool, condOk: bool) returns (ret: Option<Ret>)
      requires Recorded()
      modifies this, sleepers`nodes, sleepers`top, sleepers`parts, sleepers.heap`pool
      ensures Recorded() && old(sleepers.parts) <= sleepers.parts && fresh(sleepers.parts - old(sleepers.parts))
      ensures Result(Abs(), ret) == Model.Begin(old(Abs()), joinable, condOk)
    {
      hide Recorded, Model.FreeStack;
      var t := NewRecord();
      var h := NOBODY;
      Apart();
      label L:
      if joinable {
        if !condOk {
          Abandon(t);
          return Some(Fail(ENOMEM));
        }
        conds := conds[Term(t) := []];
        h := h.(term := true);
      }
      StillRecorded@L();
      Enrol(t, h.(at := Start, state := RUNNABLE));
      ret := Some(NewThread(t));
    }

    /** The new thread is one of the active and of the runnable ones. */
    method Enrol(t: nat, h: Thread)
      requires Recorded() && t in sleepers.nodes
      modifies this`threads, this`runQ, this`activeCount
      ensures Recorded()
      ensures Abs() == SetThread(old(Abs()), t, h).(runQ := old(runQ) + [t], activeCount := old(activeCount) + 1)
    {
      hide Recorded;
      Apart();
      threads := threads[t := h];
      activeCount := activeCount + 1;
      runQ := runQ + [t];
      StillRecorded();
    }

    // ---- polling ----

    /** `st_poll`, up to the context switch; `added` is what the epoll layer answered. */
    method Poll(pds: seq<PollFd>, timeout: Option<int>, memOk: nat -> bool, ctlOk: nat -> bool)
        returns (ret: Option<Ret>, added: Errno)
      requires Valid() && Me().at.InUser?
      modifies this, ep, sleepers`contents, sleepers.parts
      ensures Result(Abs(), ret) == Model.Poll(old(Abs()), pds, timeout, added) && Valid()
      ensures added == Ok || added == EINVAL || added == ENOMEM
      ensures added == EINVAL ==> exists i :: 0 <= i < |pds| && !ValidEntry(pds[i])
      ensures added == ENOMEM ==> exists i :: 0 <= i < |pds| && !(memOk(i) && ctlOk(i))
      ensures !old(Me()).interrupt && added == Ok ==> forall i :: 0 <= i < |pds| ==> ValidEntry(pds[i])
      ensures (forall i :: 0 <= i < |pds| ==> ValidEntry(pds[i]) && memOk(i) && ctlOk(i)) ==> added == Ok
    {
      hide Good, Schedule, Suspend, AllPds, EpollSys.Valid, Sleepers.Valid;
      added := Ok;
      RunnerIsThread(Abs());
      if threads[cur].interrupt {
        PollStep(Abs(), pds, timeout, added);
        ret := TakeInterrupt();
        return;
      }
      added := ep.PollsetAdd(pds, memOk, ctlOk, AllPds(ioQ));
      PollStep(Abs(), pds, timeout, added);
      if added != Ok {
        ret := Some(Fail(added));
        return;
      }
      Await(pds, timeout);
      ret := None;
    }

    /** The request joins the I/O queue, and another thread runs. */
    method Await(pds: seq<PollFd>, timeout: Option<int>)
      requires Recorded() && cur in threads && !OnHeap(sleepers.contents, cur)
      requires idle in threads && forall t :: t in runQ ==> t in threads
      modifies this, sleepers`contents, sleepers.parts
      ensures Recorded() && AllPds(ioQ) == old(AllPds(ioQ)) + pds
      ensures var s := old(Abs());
              Abs() == Schedule(Suspend(s.(ioQ := s.ioQ + [Pollq(s.cur, pds)]), IO_WAIT, InPoll(None), timeout))
    {
      hide Schedule, Suspend, AllPds, Insert, Sleepers.Valid;
      AllPdsAdd(ioQ, Pollq(cur, pds));
      ioQ := ioQ + [Pollq(cur, pds)];
      SuspendFrame(Abs(), IO_WAIT, InPoll(None), timeout);
      Prepare(IO_WAIT, InPoll(None), timeout);
      SwitchContext();
    }

    /** The count of ready descriptors at the end of `st_poll`. */
    static method ReadyFds(pds: seq<PollFd>) returns (n: nat)
      ensures n == CountReady(pds)
    {
      n := 0;
      for i := 0 to |pds|
        invariant n == CountReady(pds[..i])
      {
        assert pds[..i + 1][..i] == pds[..i];
        if pds[i].revents != {} {
          n := n + 1;
        }
      }
      assert pds[..|pds|] == pds;
    }

    /** The request at position k leaves the I/O queue, with these events reported to it. */
    method Withdraw(k: nat, pds: seq<PollFd>)
      requires k < |ioQ| && ep.Firing(AllPds(ioQ)) && SameEvents(ioQ[k].pds, pds)
      modifies this`ioQ, ep`fdData, ep`kernel, ep`evtlistCnt
      ensures ioQ == old(ioQ[..k] + ioQ[k + 1..]) && ep.Firing(AllPds(ioQ)) && |ep.fdData| == old(|ep.fdData|)
      ensures forall fd :: 0 <= fd < |ep.fdData| ==> ep.fdData[fd].revents == old(ep.fdData)[fd].revents
    {
      hide AllPds, SameEvents;
      RequestAt(ioQ, k);
      AllPdsConcat(ioQ[..k], ioQ[k + 1..]);
      Recount(ep, AllPds(ioQ[..k]), ioQ[k].pds, pds, AllPds(ioQ[k + 1..]));
      ioQ := ioQ[..k] + ioQ[k + 1..];
      ep.PollsetDel(pds, AllPds(ioQ), -1);
    }

    /** `st_poll`, after the context switch. */
    method PollDone() returns (ret: Option<Ret>)
      requires Valid() && Me().at.InPoll?
      modifies this`threads, this`ioQ, ep
      ensures Result(Abs(), ret) == Model.PollDone(old(Abs()), old(Me()).at.ready) && Valid()
    {
      hide Recorded, Good, WithoutPoll, CountReady, AllPds, EpollSys.Valid;
      ghost var s := Abs();
      var ready, n := Me().at.ready, 0;
      Apart();
      PollDoneStep(s, ready);
      RunnerIsThread(s);
      if ready == None {
        PollerIsQueued(s);
        LeaveIo();
      } else {
        n := ReadyFds(ready.value);
      }
      StillRecorded();
      ret := EndCall(Fds(n));
    }

    /** The request of the running thread leaves the I/O queue. */
    method LeaveIo()
      requires cur in Threads(ioQ) && NoDup(Threads(ioQ)) && ep.Valid(AllPds(ioQ))
      modifies this`ioQ, ep
      ensures ioQ == WithoutPoll(old(ioQ), cur) && ep.Valid(AllPds(ioQ))
    {
      hide WithoutPoll, Threads, AllPds, NoDup, SameEvents, Tally;
      ghost var j := WithoutPollCuts(ioQ, cur);
      var k :| 0 <= k < |ioQ| && ioQ[k].thread == cur;
      SameRequest(ioQ, j, k);
      Withdraw(k, ioQ[k].pds);
    }

    // ---- the idle thread ----

    /** The events that fired and that an entry asks for; errors are always reported. */
    static method ServeEntry(pd: PollFd, fired: set<Ev>) returns (r: PollFd)
      ensures r == Report(pd, fired)
    {
      var revents: set<Ev> := {};
      if fired != {} {
        if In in pd.events && In in fired { revents := revents + {In}; }
        if Out in pd.events && Out in fired { revents := revents + {Out}; }
        if Pri in pd.events && Pri in fired { revents := revents + {Pri}; }
        if Err in fired { revents := revents + {Err}; }
        if Hup in fired { revents := revents + {Hup}; }
      }
      assert forall e :: e in revents <==> e in Report(pd, fired).revents;
      r := pd.(revents := revents);
    }

    /** The inner loop of `_st_epoll_dispatch`: the events that fired for the entries of one
        request; `notify` tells if there are any. */
    method Serve(pds: seq<PollFd>, ghost rev: int -> set<Ev>) returns (served: seq<PollFd>, notify: bool)
      requires forall i :: 0 <= i < |pds| ==> 0 <= pds[i].fd < |ep.fdData| && ep.fdData[pds[i].fd].revents == rev(pds[i].fd)
      ensures served == Reported(pds, rev) && notify == (CountReady(served) > 0)
    {
      served, notify := [], false;
      for i := 0 to |pds|
        invariant served == Reported(pds[..i], rev) && notify == (CountReady(served) > 0)
      {
        var pd := ServeEntry(pds[i], ep.fdData[pds[i].fd].revents);
        ServeNext(pds, i, rev, served, pd);
        served := served + [pd];
        notify := notify || pd.revents != {};
      }
      assert pds[..|pds|] == pds;
    }

    /** The body of the middle loop of `_st_epoll_dispatch`: a request with something to
        report leaves the queue, and its thread becomes runnable. */
    method ServeRequest(k: nat, ghost rev: int -> set<Ev>) returns (notify: bool)
      requires Recorded() && k < |ioQ| && ioQ[k].thread in threads && ep.Firing(AllPds(ioQ))
      requires forall fd :: 0 <= fd < |ep.fdData| ==> ep.fdData[fd].revents == rev(fd)
      modifies this`threads, sleepers`contents, sleepers.parts, this`runQ, this`ioQ, ep`fdData, ep`kernel, ep`evtlistCnt
      ensures Recorded() && ep.Firing(AllPds(ioQ)) && |ep.fdData| == old(|ep.fdData|)
      ensures forall fd :: 0 <= fd < |ep.fdData| ==> ep.fdData[fd].revents == rev(fd)
      ensures ServedOne(old(Abs()), rev, Abs(), k, notify)
    {
      hide AllPds, Tally, SameEvents, WakeAs, EpollSys.Firing, Sleepers.Valid;
      ghost var s := Abs();
      var p := ioQ[k];
      RequestAt(ioQ, k);
      RequestEntries(ep, AllPds(ioQ[..k]), p.pds, AllPds(ioQ[k + 1..]));
      var served;
      served, notify := Serve(p.pds, rev);
      ReportedSame(p.pds, rev);
      if notify {
        Notify(k, served);
      } else {
        Rewrite(k, served);
      }
    }

    /** The request at position k leaves the queue, and its thread becomes runnable. */
    method Notify(k: nat, served: seq<PollFd>)
      requires Recorded() && k < |ioQ| && ioQ[k].thread in threads
      requires ep.Firing(AllPds(ioQ)) && SameEvents(ioQ[k].pds, served)
      modifies this`threads, sleepers`contents, sleepers.parts, this`runQ, this`ioQ, ep`fdData, ep`kernel, ep`evtlistCnt
      ensures Recorded() && ep.Firing(AllPds(ioQ)) && |ep.fdData| == old(|ep.fdData|)
      ensures forall fd :: 0 <= fd < |ep.fdData| ==> ep.fdData[fd].revents == old(ep.fdData)[fd].revents
      ensures var s := old(Abs()); var t := s.ioQ[k].thread;
              Abs() == WakeAs(s, t, Get(s, t).(at := InPoll(Some(served)))).(ioQ := s.ioQ[..k] + s.ioQ[k + 1..])
    {
      hide AllPds, SameEvents, WakeAs, EpollSys.Firing, Sleepers.Valid;
      ghost var s := Abs();
      var t := ioQ[k].thread;
      Withdraw(k, served);
      threads := threads[t := threads[t].(at := InPoll(Some(served)))];
      Awaken(s, ioQ, t, served);
      MakeReady(t);
    }

    /** The middle loop of `_st_epoll_dispatch`. */
    method ServeRequests(ghost rev: int -> set<Ev>)
      requires Recorded() && ep.Firing(AllPds(ioQ)) && forall p :: p in ioQ ==> p.thread in threads
      requires forall fd :: 0 <= fd < |ep.fdData| ==> ep.fdData[fd].revents == rev(fd)
      modifies this`threads, sleepers`contents, sleepers.parts, this`runQ, this`ioQ, ep`fdData, ep`kernel, ep`evtlistCnt
      ensures Recorded() && ep.Firing(AllPds(ioQ)) && |ep.fdData| == old(|ep.fdData|)
      ensures forall fd :: 0 <= fd < |ep.fdData| ==> ep.fdData[fd].revents == rev(fd)
      ensures var s := old(Abs());
              ioQ == Kept(s.ioQ, rev) && Abs() == Deliver(s, Moved(s.ioQ, rev)).(ioQ := ioQ)
    {
      hide Served, ServedOne, AllPds, EpollSys.Firing, Sleepers.Valid;
      ghost var s, n := Abs(), 0;
      var k: nat := 0;
      ServedNone(s, rev);
      while k < |ioQ|
        invariant Served(s, n, rev, Abs(), k)
        invariant ep.Firing(AllPds(ioQ)) && forall fd :: 0 <= fd < |ep.fdData| ==> ep.fdData[fd].revents == rev(fd)
        invariant Recorded() && |ep.fdData| == old(|ep.fdData|)
        decreases |s.ioQ| - n
      {
        ghost var before := Abs();
        ServedSome(s, n, rev, before, k);
        var notify := ServeRequest(k, rev);
        ServedMore(s, n, rev, before, Abs(), k, notify);
        if !notify {
          k := k + 1;
        }
        n := n + 1;
      }
      ServedAll(s, n, rev, Abs(), k);
    }

    /** `_st_epoll_dispatch`; `fired` is what `epoll_wait` returned. */
    method Dispatch(fired: Fired)
      requires Valid() && Me().at.InIdle? && Distinct(fired)
      requires forall i :: 0 <= i < |fired| ==> Events(Tally(AllPds(ioQ), fired[i].0)) != {}
      modifies this`threads, sleepers`contents, sleepers.parts, this`runQ, this`ioQ, ep`fdData, ep`kernel, ep`evtlistCnt
      ensures Recorded() && Abs() == Model.Dispatch(old(Abs()), fired) && Inv(Abs()) && ep.Valid(AllPds(ioQ))
    {
      hide Core, Moved, Kept, Deliver, AllPds, Tally, Threads, Sleepers.Valid;
      hide EpollSys.Firing, EpollSys.Counted, EpollSys.InStep, EpollSys.Valid;
      ghost var s, rev := Abs(), Revents(Abs(), fired);
      IdlePolls(s, fired);
      if fired == [] {
        return;
      }
      WatchedFire(ep, AllPds(ioQ), fired);
      ep.Fire(fired, AllPds(ioQ));
      ServeRequests(rev);
      forall i | 0 <= i < |fired|
        ensures 0 <= fired[i].0 < |ep.fdData| && ep.fdData[fired[i].0].revents != {}
      {
        RecordedIff(fired, fired[i].0, Events(Tally(AllPds(s.ioQ), fired[i].0)));
      }
      forall fd | 0 <= fd < |ep.fdData| && ep.fdData[fd].revents != {}
        ensures exists i :: 0 <= i < |fired| && fired[i].0 == fd
      {
        RecordedIff(fired, fd, Events(Tally(AllPds(s.ioQ), fd)));
      }
      ep.Settle(fired, AllPds(ioQ));
    }

    /** The entries of the request at position k get new events reported. */
    method Rewrite(k: nat, pds: seq<PollFd>)
      requires k < |ioQ| && ep.Firing(AllPds(ioQ)) && SameEvents(ioQ[k].pds, pds)
      modifies this`ioQ
      ensures ioQ == old(ioQ[k := ioQ[k].(pds := pds)]) && ep.Firing(AllPds(ioQ))
    {
      hide AllPds, SameEvents;
      RequestAt(ioQ, k);
      Recount(ep, AllPds(ioQ[..k]), ioQ[k].pds, pds, AllPds(ioQ[k + 1..]));
      ghost var q := ioQ;
      ioQ := ioQ[k := ioQ[k].(pds := pds)];
      assert ioQ[..k] == q[..k] && ioQ[k + 1..] == q[k + 1..];
      RequestAt(ioQ, k);
    }

    /** One turn of the idle thread. */
    method IdleTurn(fired: Fired, now: int)
      requires Valid() && Me().at.InIdle? && Distinct(fired)
      requires forall i :: 0 <= i < |fired| ==> Events(Tally(AllPds(ioQ), fired[i].0)) != {}
      modifies this, ep`fdData, ep`kernel, ep`evtlistCnt, sleepers`contents, sleepers.parts
      ensures Result(Abs(), None) == Model.IdleTurn(old(Abs()), fired, now) && Valid()
    {
      hide Recorded, Core, Schedule, Suspend, Model.Dispatch, Model.CheckClock, EpollSys.Valid, Tally;
      Apart();
      IdleStep(Abs(), fired, now);
      IdleFrame(Abs(), fired, now);
      Dispatch(fired);
      CheckClock(now);
      SuspendFrame(Abs(), RUNNABLE, InIdle, None);
      Prepare(RUNNABLE, InIdle, None);
      SwitchContext();
    }

    // ---- objects ----

    /** `st_cond_new` */
    method CondNew() returns (ret: Option<Ret>)
      requires Valid() && Me().at.InUser?
      modifies this`conds, this`nextId
      ensures Result(Abs(), ret) == Model.CondNew(old(Abs())) && Valid()
    {
      hide Core, Sleepers.Valid;
      CondStep(Abs(), User(nextId));
      ret := Some(NewObject(nextId));
      conds := conds[User(nextId) := []];
      nextId := nextId + 1;
    }

    /** `st_cond_destroy` */
    method CondDestroy(c: CondId) returns (ret: Option<Ret>)
      requires Valid() && Me().at.InUser? && c in conds && c.User?
      modifies this`conds
      ensures Result(Abs(), ret) == Model.CondDestroy(old(Abs()), c) && Valid()
    {
      hide Core, Sleepers.Valid;
      CondStep(Abs(), c);
      if conds[c] != [] {
        return Some(Fail(EBUSY));
      }
      conds := conds - {c};
      ret := Some(Zero);
    }

    /** `st_mutex_new` */
    method MutexNew() returns (ret: Option<Ret>)
      requires Valid() && Me().at.InUser?
      modifies this`mutexes, this`nextId
      ensures Result(Abs(), ret) == Model.MutexNew(old(Abs())) && Valid()
    {
      hide Core, Sleepers.Valid;
      MutexStep(Abs(), nextId);
      ret := Some(NewObject(nextId));
      mutexes := mutexes[nextId := Mutex(None, [])];
      nextId := nextId + 1;
    }

    /** `st_mutex_destroy` */
    method MutexDestroy(m: nat) returns (ret: Option<Ret>)
      requires Valid() && Me().at.InUser? && m in mutexes
      modifies this`mutexes
      ensures Result(Abs(), ret) == Model.MutexDestroy(old(Abs()), m) && Valid()
    {
      hide Core, Sleepers.Valid;
      MutexStep(Abs(), m);
      if mutexes[m].owner != None || mutexes[m].waitQ != [] {
        return Some(Fail(EBUSY));
      }
      mutexes := mutexes - {m};
      ret := Some(Zero);
    }

    /** Whatever a thread that gets the processor was doing, it goes on with it: only the
        idle thread, and one that is not inside a call, have nothing to finish. */
    method Resume() returns (ret: Option<Ret>)
      requires Valid() && !Me().at.InUser? && !Me().at.InIdle?
      modifies this, ep, sleepers`contents, sleepers.parts
      ensures Result(Abs(), ret) == Model.Resume(old(Abs())) && Valid()
    {
      hide Good, EpollSys.Valid, Model.PollDone, Model.CondDone, Model.LockDone, Model.ExitDone, Model.SleepDone, Sleepers.Valid;
      RunnerHasPlace(Abs());
      var at := Me().at;
      if at.InPoll? {
        ret := PollDone();
      } else if at.InSleep? {
        ret := SleepDone();
      } else if at.InCond? {
        ret := CondDone(at.c);
      } else if at.InLock? {
        ret := LockDone(at.m);
      } else if at.InExit? {
        ret := ExitDone();
      } else {
        ret := GoOn();
      }
    }

    /** `st_netfd_open`, as far as the scheduler is concerned: the table covers the new
        descriptor; `recordOk` is the outcome of what follows. */
    method NetfdNew(osfd: nat, grown: bool, recordOk: bool) returns (ok: bool)
      requires Valid()
      modifies ep`fdData
      ensures Valid() && Abs() == old(Abs()) && old(ep.fdData) <= ep.fdData
      ensures ok == ((osfd < |old(ep.fdData)| || grown) && recordOk) && (ok ==> osfd < |ep.fdData|)
    {
      hide Good, EpollSys.Valid, Sleepers.Valid;
      ok := ep.FdNew(osfd, grown, AllPds(ioQ));
      ok := ok && recordOk;
    }

    /** `st_netfd_close`, as far as the scheduler is concerned: it refuses exactly the
        descriptors that some request on the I/O queue names. */
    method NetfdClose(osfd: int) returns (ret: Ret)
      requires Valid() && 0 <= osfd < |ep.fdData|
      ensures ret == (if exists p :: p in ioQ && Names(p.pds, osfd) then Fail(EBUSY) else Zero)
    {
      hide Sleepers.Valid;
      var busy := ep.FdClose(osfd, AllPds(ioQ));
      EntriesOfQueue(ioQ, osfd);
      ret := if busy then Fail(EBUSY) else Zero;
    }
  }

  lemma RootIsThread(s: State, run: Option<nat>)
    requires Core(s, run, None) && s.sleepQ != []
    ensures s.sleepQ[0].who in s.threads && s.threads[s.sleepQ[0].who].onSleepQ && s.sleepQ[0].who != s.idle
    ensures HeapWithout(s.sleepQ, s.sleepQ[0].who) == Delete(s.sleepQ, 1)
  {
    RootWaits(s, run, s.sleepQ[0].who);
  }

  lemma ExpireTurn(s: State, now: int)
    requires s.sleepQ != []
    ensures Expire(s, now) == if s.sleepQ[0].due > now then s else Expire(ExpireOne(s), now)
  {
  }

  lemma ExpireDone(s: State, now: int)
    requires s.sleepQ == []
    ensures Expire(s, now) == s
  {
  }

  lemma ExpireShortens(s: State)
    requires s.sleepQ != []
    ensures |ExpireOne(s).sleepQ| < |s.sleepQ|
  {
  }

  /** To interrupt a waiting thread is to flag and then to wake it. */
  lemma InterruptIs(s: State, t: nat)
    requires t in s.threads
    ensures var h := s.threads[t];
            var r := Wake(SetThread(s, t, h.(interrupt := true)), t);
            r.ioQ == s.ioQ
            && (h.state != ZOMBIE && h.state != RUNNING && h.state != RUNNABLE ==> Model.Interrupt(s, t) == Done(r, Zero))
  {
    var h := s.threads[t];
    LastWrite(s.threads, t, h.(interrupt := true), h.(interrupt := true, state := RUNNABLE, onSleepQ := false));
  }

  lemma EndWaitFrame(s: State, c: CondId)
    requires s.cur in s.threads && c in s.conds
    ensures var r := Model.EndWait(s, c);
            && r.threads.Keys == s.threads.Keys && r.conds.Keys == s.conds.Keys && r.runQ == s.runQ && r.ioQ == s.ioQ
            && r.cur == s.cur && r.idle == s.idle
  {
  }

  lemma JoinLoopFrame(s: State, c: CondId)
    ensures c.Term? ==> Model.JoinLoop(s, c.t).s.ioQ == s.ioQ
  {
  }

  lemma SameFlag(h: Thread)
    ensures !h.onSleepQ ==> h.(state := RUNNABLE, onSleepQ := false) == h.(state := RUNNABLE)
  {
  }

  lemma LastWrite<K, V>(m: map<K, V>, k: K, a: V, b: V)
    ensures m[k := a][k := b] == m[k := b]
  {
  }

  lemma RunnerIsThread(s: State)
    requires Good(s)
    ensures s.cur in s.threads && s.idle in s.threads && forall t :: t in s.runQ ==> t in s.threads
    ensures !OnHeap(s.sleepQ, s.cur)
  {
    assert Fits(s.threads[s.cur], s.cur == s.idle, true);
  }

  lemma RunnerHasPlace(s: State)
    requires Good(s)
    ensures s.cur in s.threads && !s.threads[s.cur].at.Gone?
  {
    assert Fits(s.threads[s.cur], s.cur == s.idle, true);
  }

  lemma NoneWaiting(s: State, st: TState)
    ensures Waiting(s, [], st) == []
  {
  }

  lemma NothingWoken(s: State, q: seq<nat>)
    ensures q[..0] == [] && Waiting(s, [], COND_WAIT) == [] && WakeAll(s, []) == s && Woken(s, s, [])
  {
    assert s.runQ + [] == s.runQ;
  }

  lemma NextWaiting(s: State, q: seq<nat>, i: nat, st: TState)
    requires i < |q|
    ensures Waiting(s, q[..i + 1], st) == Waiting(s, q[..i], st) + if Get(s, q[i]).state == st then [q[i]] else []
    ensures NoDup(q) ==> q[i] !in Waiting(s, q[..i], st)
  {
    assert q[..i + 1][..i] == q[..i];
    WaitingIs(s, q[..i], st);
  }

  /** Once there is a first waiter, looking further does not change which it is. */
  lemma {:induction false} FirstWaiting(s: State, q: seq<nat>, i: nat, st: TState)
    requires i <= |q| && Waiting(s, q[..i], st) != []
    ensures Waiting(s, q, st) != [] && Waiting(s, q, st)[0] == Waiting(s, q[..i], st)[0]
    decreases |q| - i
  {
    if i < |q| {
      NextWaiting(s, q, i, st);
      FirstWaiting(s, q, i + 1, st);
    } else {
      assert q[..i] == q;
    }
  }

  lemma FirstSignalled(s: State, c: CondId, i: nat, t: nat)
    requires c in s.conds && i < |s.conds[c]| && Waiting(s, s.conds[c][..i + 1], COND_WAIT) == [t]
    ensures Signalled(s, c, false) == [t]
  {
    hide Waiting;
    FirstWaiting(s, s.conds[c], i + 1, COND_WAIT);
  }

  lemma AllSignalled(s: State, c: CondId, broadcast: bool, ts: seq<nat>)
    requires c in s.conds && ts == Waiting(s, s.conds[c][..|s.conds[c]|], COND_WAIT) && (!broadcast ==> ts == [])
    ensures Signalled(s, c, broadcast) == ts
  {
    assert s.conds[c][..|s.conds[c]|] == s.conds[c];
  }

  lemma WakeNext(s: State, m: State, ts: seq<nat>, t: nat)
    requires m == WakeAll(s, ts) && Woken(s, m, ts) && t in s.threads && t !in ts
    ensures Wake(m, t) == WakeAll(s, ts + [t]) && Woken(s, Wake(m, t), ts + [t]) && m.threads[t] == s.threads[t]
  {
    assert (ts + [t])[..|ts|] == ts;
    WokenMore(s, m, ts, t, Wake(m, t));
  }

  /** Nobody sleeps in LOCK_WAIT, so the sleep queue need not be looked at. */
  lemma LockerIsThread(s: State, m: nat, t: nat)
    requires Good(s) && m in s.mutexes && t in s.mutexes[m].waitQ
    ensures t in s.threads && (s.threads[t].state == LOCK_WAIT ==> !s.threads[t].onSleepQ)
  {
    assert Fits(s.threads[t], t == s.idle, t == s.cur);
  }

  lemma WakeLocker(s: State, t: nat)
    requires t in s.threads && !s.threads[t].onSleepQ
    ensures Wake(s, t) == s.(threads := s.threads[t := s.threads[t].(state := RUNNABLE)], runQ := s.runQ + [t])
  {
    assert s.threads[t].(state := RUNNABLE, onSleepQ := false) == s.threads[t].(state := RUNNABLE);
  }

  lemma WaiterIsQueued(s: State, c: CondId)
    requires Good(s) && Get(s, s.cur).at == InCond(c)
    ensures c in s.conds && (c.Term? && !s.threads[s.cur].interrupt && !s.threads[s.cur].timedOut ==> c.t in s.threads && c.t != s.cur)
  {
    assert c.Term? ==> JoinerOk(s, s.threads[s.cur], None);
  }

  lemma TermIsThere(s: State, u: nat)
    requires Good(s) && u in s.threads && s.threads[u].term
    ensures Term(u) in s.conds && NoDup(s.conds[Term(u)]) && forall t :: t in s.conds[Term(u)] ==> t in s.threads
  {
  }

  lemma ExitingHasTerm(s: State)
    requires Good(s) && Get(s, s.cur).at.InExit?
    ensures Term(s.cur) in s.conds
  {
    assert Fits(s.threads[s.cur], s.cur == s.idle, true);
    TermIsThere(s, s.cur);
  }

  lemma ClockFrame(s: State, now: int)
    requires Good(s) && Get(s, s.cur).at.InUser?
    ensures var c := Model.CheckClock(s, now);
            && c.cur == s.cur && c.ioQ == s.ioQ && s.cur in c.threads && s.idle in c.threads
            && forall t :: t in c.runQ ==> t in c.threads
  {
    NotIdle(s);
    var c := Model.CheckClock(s, now);
    CheckClockKeeps(s, Some(s.cur), now, c);
    RunnerUntouched(s, c, Popped(s.sleepQ, now), now);
  }

  lemma SuspendFrame(s: State, st: TState, at: Place, timeout: Option<int>)
    requires s.cur in s.threads
    ensures var r := Suspend(s, st, at, timeout);
            r.threads.Keys == s.threads.Keys && r.runQ == s.runQ && r.ioQ == s.ioQ && r.idle == s.idle && r.cur == s.cur
  {
  }

  lemma VanishFrame(s: State, h: Thread)
    requires s.cur in s.threads
    ensures var r := Model.Vanish(s, h);
            && r == Model.Vanish(SetThread(s, s.cur, h), h)
            && r.threads.Keys == s.threads.Keys && r.runQ == s.runQ && r.ioQ == s.ioQ && r.idle == s.idle && r.cur == s.cur
  {
    var g := h.(state := RUNNING, at := Gone);
    assert s.threads[s.cur := h][s.cur := g] == s.threads[s.cur := g];
  }

  /** z is s with the exiting thread a zombie. */
  lemma ZombieIs(s: State, retval: int, z: State)
    requires s.cur in s.threads && s.threads[s.cur].term
    requires var h := s.threads[s.cur].(retval := retval);
             z == s.(threads := s.threads[s.cur := h][s.cur := h.(state := ZOMBIE, at := InExit)],
                     activeCount := s.activeCount - 1, zombieQ := s.zombieQ + [s.cur])
    ensures Model.Exit(s, retval) == Result(Schedule(Model.Signal(z, Term(s.cur), false)), None)
  {
    hide Schedule, Model.Signal;
    var h := s.threads[s.cur].(retval := retval);
    var g := h.(state := ZOMBIE, at := InExit);
    assert s.threads[s.cur := h][s.cur := g] == s.threads[s.cur := g];
  }

  lemma PlainExitIs(s: State, retval: int, m: State)
    requires s.cur in s.threads && !s.threads[s.cur].term
    requires m == SetThread(s.(activeCount := s.activeCount - 1), s.cur, s.threads[s.cur].(retval := retval))
    ensures var v := Model.Vanish(m, m.threads[s.cur]);
            && Model.Exit(s, retval) == Result(Schedule(v), None)
            && v.threads.Keys == s.threads.Keys && v.runQ == s.runQ && v.ioQ == s.ioQ && v.idle == s.idle && v.cur == s.cur
  {
    hide Schedule, Model.Vanish;
    VanishFrame(s.(activeCount := s.activeCount - 1), s.threads[s.cur].(retval := retval));
  }

  ghost function TermDropped(s: State): State {
    var c := Term(s.cur);
    SetThread(s.(conds := if WaitQ(s, c) == [] then s.conds - {c} else s.conds), s.cur, Get(s, s.cur).(term := false))
  }

  lemma ExitDoneIs(s: State, m: State)
    requires s.cur in s.threads
    requires m == TermDropped(s)
    ensures var v := Model.Vanish(m, m.threads[s.cur]);
            && Model.ExitDone(s) == Result(Schedule(v), None)
            && v.threads.Keys == s.threads.Keys && v.runQ == s.runQ && v.ioQ == s.ioQ && v.idle == s.idle && v.cur == s.cur
  {
    hide Schedule, Model.Vanish;
    VanishFrame(s.(conds := m.conds), s.threads[s.cur].(term := false));
  }

  lemma BeginFrame(s: State, joinable: bool, condOk: bool)
    ensures Model.Begin(s, joinable, condOk).s.ioQ == s.ioQ
  {
  }

  lemma UnmapFirst(s: State)
    requires s.freeStacks != []
    ensures var t := s.freeStacks[0];
            Unmap(s.(threads := s.threads - {t}, freeStacks := s.freeStacks[1..], numFreeStacks := s.numFreeStacks - 1)) == Unmap(s)
  {
    var t := s.freeStacks[0];
    assert s.freeStacks == [t] + s.freeStacks[1..];
    assert s.threads - {t} - (set u | u in s.freeStacks[1..]) == s.threads - (set u | u in s.freeStacks);
  }

  lemma UnmapNone(s: State)
    requires s.freeStacks == []
    ensures Unmap(s) == s
  {
    assert s.threads - (set u | u in s.freeStacks) == s.threads;
  }

  lemma UnmapFrame(s: State)
    ensures var r := Unmap(s);
            r == s.(threads := r.threads, numFreeStacks := r.numFreeStacks, freeStacks := r.freeStacks) && r.threads.Keys <= s.threads.Keys
  {
  }

  lemma PollerIsQueued(s: State)
    requires Good(s) && Get(s, s.cur).at == InPoll(None)
    ensures s.cur in Threads(s.ioQ) && NoDup(Threads(s.ioQ))
  {
    NotIdle(s);
  }

  lemma SameRequest(q: seq<Pollq>, j: nat, k: nat)
    requires NoDup(Threads(q)) && j < |q| && k < |q| && q[j].thread == q[k].thread
    ensures j == k && SameEvents(q[k].pds, q[k].pds)
  {
    ThreadsAt(q);
  }

  /** The counts do not depend on the order of the entries, or on what was reported. */
  ghost predicate SameEvents(b: seq<PollFd>, b2: seq<PollFd>) {
    && |b2| == |b| && (forall i :: 0 <= i < |b| ==> b2[i].fd == b[i].fd && b2[i].events == b[i].events)
    && forall fd :: Tally(b2, fd) == Tally(b, fd)
  }

  ghost predicate Entries(pds: seq<PollFd>, n: int) {
    forall i :: 0 <= i < |pds| ==> ValidEntry(pds[i]) && pds[i].fd < n
  }

  lemma EntriesSplit(a: seq<PollFd>, b: seq<PollFd>, n: int)
    ensures Entries(a + b, n) <==> Entries(a, n) && Entries(b, n)
  {
    if Entries(a + b, n) {
      assert forall i :: 0 <= i < |a| ==> (a + b)[i] == a[i];
      assert forall i :: 0 <= i < |b| ==> (a + b)[i + |a|] == b[i];
    }
  }

  lemma Recounted(ep: EpollSys, x: seq<PollFd>, y: seq<PollFd>)
    requires ep.Counted(x) && Entries(y, |ep.fdData|) && forall fd :: Tally(y, fd) == Tally(x, fd)
    ensures ep.Counted(y)
  {
    hide Tally;
  }

  lemma Recount(ep: EpollSys, a: seq<PollFd>, b: seq<PollFd>, b2: seq<PollFd>, c: seq<PollFd>)
    requires ep.Counted(a + b + c) && SameEvents(b, b2)
    ensures ep.Counted(a + c + b2) && ep.Counted(a + b2 + c)
  {
    hide Tally;
    var n := |ep.fdData|;
    assert Entries(a + b + c, n);
    EntriesSplit(a + b, c, n);
    EntriesSplit(a, b, n);
    EntriesSplit(a + b2, c, n);
    EntriesSplit(a, b2, n);
    EntriesSplit(a + c, b2, n);
    EntriesSplit(a, c, n);
    forall fd
      ensures Tally(a + b2 + c, fd) == Tally(a + b + c, fd) == Tally(a + c + b2, fd)
    {
      TallyConcat(a + b, c, fd);
      TallyConcat(a, b, fd);
      TallyConcat(a + b2, c, fd);
      TallyConcat(a, b2, fd);
      TallySwap(a, b2, c, fd);
    }
    Recounted(ep, a + b + c, a + b2 + c);
    Recounted(ep, a + b + c, a + c + b2);
  }

  lemma ServeNext(pds: seq<PollFd>, i: nat, rev: int -> set<Ev>, r: seq<PollFd>, p: PollFd)
    requires i < |pds|
    ensures Reported(pds[..i + 1], rev) == Reported(pds[..i], rev) + [Report(pds[i], rev(pds[i].fd))]
    ensures CountReady(r + [p]) == CountReady(r) + if p.revents != {} then 1 else 0
  {
    assert pds[..i + 1][..i] == pds[..i];
    assert (r + [p])[..|r|] == r;
  }

  /** The idle thread runs with an empty run queue; dispatch keeps the invariant. */
  lemma IdlePolls(s: State, fired: Fired)
    requires Good(s) && Get(s, s.cur).at.InIdle?
    ensures s.cur == s.idle && s.runQ == [] && Inv(Model.Dispatch(s, fired))
    ensures forall p :: p in s.ioQ ==> p.thread in s.threads
  {
    assert Fits(s.threads[s.cur], s.cur == s.idle, true);
    PollersAreThreads(s);
    hide Model.Dispatch, ShapeOk, RunOk, ZombieOk, IoOk, HeapOk, CondOk, MutexOk, JoinOk, StackOk, CountOk;
    DispatchKeeps(s, fired, Model.Dispatch(s, fired));
  }

  lemma PollersAreThreads(s: State)
    requires IoOk(s)
    ensures forall p :: p in s.ioQ ==> p.thread in s.threads
  {
    ThreadsAt(s.ioQ);
    forall p | p in s.ioQ
      ensures p.thread in s.threads
    {
      var i :| 0 <= i < |s.ioQ| && s.ioQ[i] == p;
      assert Threads(s.ioQ)[i] in Threads(s.ioQ);
    }
  }

  /** What fires has been watched. */
  lemma WatchedFire(ep: EpollSys, pds: seq<PollFd>, fired: Fired)
    requires ep.Valid(pds) && forall i :: 0 <= i < |fired| ==> Events(Tally(pds, fired[i].0)) != {}
    ensures forall i :: 0 <= i < |fired| ==> fired[i].0 in ep.kernel && 0 <= fired[i].0 < |ep.fdData|
    ensures forall fd :: 0 <= fd < |ep.fdData| ==> Events(ep.fdData[fd]) == Events(Tally(pds, fd))
  {
    forall i | 0 <= i < |fired|
      ensures fired[i].0 in ep.kernel && 0 <= fired[i].0 < |ep.fdData|
    {
      TallyNames(pds, fired[i].0);
      assert ep.InStep(fired[i].0);
    }
  }

  lemma RequestEntries(ep: EpollSys, a: seq<PollFd>, b: seq<PollFd>, c: seq<PollFd>)
    requires ep.Firing(a + b + c)
    ensures forall i :: 0 <= i < |b| ==> 0 <= b[i].fd < |ep.fdData|
  {
    assert Entries(a + b + c, |ep.fdData|);
    EntriesSplit(a + b, c, |ep.fdData|);
    EntriesSplit(a, b, |ep.fdData|);
  }

  lemma ReportedSame(pds: seq<PollFd>, rev: int -> set<Ev>)
    ensures SameEvents(pds, Reported(pds, rev))
  {
    forall fd
      ensures Tally(Reported(pds, rev), fd) == Tally(pds, fd)
    {
      TallyReported(pds, rev, fd);
    }
  }

  lemma Awaken(s: State, q: seq<Pollq>, t: nat, pds: seq<PollFd>)
    requires t in s.threads
    ensures var h := s.threads[t].(at := InPoll(Some(pds)));
            Wake(SetThread(s, t, h).(ioQ := q), t) == WakeAs(s, t, Get(s, t).(at := InPoll(Some(pds)))).(ioQ := q)
  {
    var h := s.threads[t].(at := InPoll(Some(pds)));
    var g := h.(state := RUNNABLE, onSleepQ := false);
    assert s.threads[t := h][t := g] == s.threads[t := g];
  }

  /** b is a after the request at position k of the I/O queue has been served. */
  ghost predicate ServedOne(a: State, rev: int -> set<Ev>, b: State, k: nat, notify: bool) {
    && k < |a.ioQ|
    && var p, served := a.ioQ[k], Reported(a.ioQ[k].pds, rev);
       && notify == (CountReady(served) > 0)
       && b.ioQ == (if notify then a.ioQ[..k] + a.ioQ[k + 1..] else a.ioQ[k := p.(pds := served)])
       && b == (if notify then WakeAs(a, p.thread, Get(a, p.thread).(at := InPoll(Some(served)))) else a).(ioQ := b.ioQ)
  }

  /** r is s after its first n requests have been served; k of them stay. */
  ghost predicate Served(s: State, n: nat, rev: int -> set<Ev>, r: State, k: nat) {
    && n <= |s.ioQ| && r.ioQ == Kept(s.ioQ[..n], rev) + s.ioQ[n..] && k == |Kept(s.ioQ[..n], rev)|
    && r == Deliver(s, Moved(s.ioQ[..n], rev)).(ioQ := r.ioQ) && r.threads.Keys == s.threads.Keys
  }

  lemma ServedNone(s: State, rev: int -> set<Ev>)
    ensures Served(s, 0, rev, s, 0)
  {
    assert s.ioQ[..0] == [] && Kept([], rev) == [] && Moved([], rev) == [] && [] + s.ioQ[0..] == s.ioQ;
  }

  lemma ServedSome(s: State, n: nat, rev: int -> set<Ev>, a: State, k: nat)
    requires Served(s, n, rev, a, k) && k < |a.ioQ|
    ensures n < |s.ioQ| && a.ioQ[k] == s.ioQ[n] && s.ioQ[n] in s.ioQ && a.threads.Keys == s.threads.Keys
  {
  }

  lemma ServedAll(s: State, n: nat, rev: int -> set<Ev>, a: State, k: nat)
    requires Served(s, n, rev, a, k) && k >= |a.ioQ|
    ensures a.ioQ == Kept(s.ioQ, rev) && a == Deliver(s, Moved(s.ioQ, rev)).(ioQ := a.ioQ)
  {
    assert n == |s.ioQ| && s.ioQ[..n] == s.ioQ && s.ioQ[n..] == [];
  }

  lemma QueueNext(kept: seq<Pollq>, q: seq<Pollq>, n: nat, p: Pollq)
    requires n < |q|
    ensures var io, k := kept + q[n..], |kept|;
            io[k] == q[n] && io[..k] + io[k + 1..] == kept + q[n + 1..] && io[k := p] == kept + [p] + q[n + 1..]
  {
  }

  /** The next request either leaves the queue or stays. */
  lemma SplitNext(s: State, q: seq<Pollq>, n: nat, rev: int -> set<Ev>)
    requires n < |q|
    ensures var p, m, k := q[n].(pds := Reported(q[n].pds, rev)), Moved(q[..n], rev), Kept(q[..n], rev);
            if CountReady(p.pds) > 0
            then Moved(q[..n + 1], rev) == m + [p] && Kept(q[..n + 1], rev) == k
                 && Deliver(s, m + [p]) == (var b := Deliver(s, m); WakeAs(b, p.thread, Get(b, p.thread).(at := InPoll(Some(p.pds)))))
            else Moved(q[..n + 1], rev) == m && Kept(q[..n + 1], rev) == k + [p]
  {
    var p, m, k := q[n].(pds := Reported(q[n].pds, rev)), Moved(q[..n], rev), Kept(q[..n], rev);
    assert q[..n + 1][..n] == q[..n];
    assert (m + [p])[..|m|] == m && m + [] == m && k + [] == k;
  }

  lemma ServedMore(s: State, n: nat, rev: int -> set<Ev>, a: State, b: State, k: nat, notify: bool)
    requires Served(s, n, rev, a, k) && ServedOne(a, rev, b, k, notify) && a.ioQ[k].thread in a.threads
    ensures Served(s, n + 1, rev, b, if notify then k else k + 1)
  {
    hide Moved, Kept, Deliver;
    ServedSome(s, n, rev, a, k);
    QueueNext(Kept(s.ioQ[..n], rev), s.ioQ, n, s.ioQ[n].(pds := Reported(s.ioQ[n].pds, rev)));
    SplitNext(s, s.ioQ, n, rev);
  }

  lemma IdleFrame(s: State, fired: Fired, now: int)
    requires Good(s) && Get(s, s.cur).at.InIdle?
    ensures var c := Model.CheckClock(Model.Dispatch(s, fired), now);
            c.cur in c.threads && c.idle in c.threads && forall t :: t in c.runQ ==> t in c.threads
  {
    var d := Model.Dispatch(s, fired);
    IdlePolls(s, fired);
    CheckClockKeeps(d, Some(d.cur), now, Model.CheckClock(d, now));
    ExpireCur(d.(lastClock := now), now);
  }

  lemma {:induction false} ExpireCur(s: State, now: int)
    ensures Expire(s, now).cur == s.cur && Expire(s, now).ioQ == s.ioQ
    decreases |s.sleepQ|
  {
    if s.sleepQ != [] && s.sleepQ[0].due <= now { ExpireCur(ExpireOne(s), now); }
  }

  ghost predicate Names(pds: seq<PollFd>, osfd: int) {
    exists i :: 0 <= i < |pds| && pds[i].fd == osfd
  }

  lemma NamesEither(a: seq<PollFd>, b: seq<PollFd>, osfd: int)
    ensures Names(a + b, osfd) <==> Names(a, osfd) || Names(b, osfd)
  {
    if Names(a, osfd) {
      var i :| 0 <= i < |a| && a[i].fd == osfd;
      assert (a + b)[i].fd == osfd;
    }
    if Names(b, osfd) {
      var i :| 0 <= i < |b| && b[i].fd == osfd;
      assert (a + b)[|a| + i].fd == osfd;
    }
  }

  lemma {:induction false} EntriesOfQueue(q: seq<Pollq>, osfd: int)
    ensures Names(AllPds(q), osfd) <==> exists p :: p in q && Names(p.pds, osfd)
  {
    hide Names;
    if q != [] {
      var n := |q| - 1;
      EntriesOfQueue(q[..n], osfd);
      NamesEither(AllPds(q[..n]), q[n].pds, osfd);
      assert q == q[..n] + [q[n]];
    } else {
      NoNames(osfd);
    }
  }

  lemma NoNames(osfd: int)
    ensures !Names([], osfd)
  {
  }
}
