/** What holds in every reachable state of the scheduler, and why each step keeps it. */
module SchedInvariant {
  import opened Basics
  import opened HeapModel
  import opened SchedQueues
  import opened SchedModel

  // ---- the invariant ----

  /** The state, place and flags of one thread fit each other. */
  ghost predicate Fits(h: Thread, idle: bool, running: bool) {
    && (h.state == RUNNING <==> running || h.at.Gone?)
    && (running ==> !h.at.Gone?)
    && (h.at.InUser? ==> running)
    && (idle <==> h.at.InIdle?)
    && (idle ==> h.state == RUNNABLE || h.state == RUNNING)
    && (h.state == IO_WAIT ==> h.at == InPoll(None))
    && (h.state == LOCK_WAIT ==> h.at.InLock?)
    && (h.state == COND_WAIT ==> h.at.InCond?)
    && (h.state == SLEEPING ==> h.at.InSleep? && h.onSleepQ)
    && (h.state == SUSPENDED ==> h.at.InSleep? && !h.onSleepQ)
    && (h.state == ZOMBIE ==> h.at.InExit?)
    && (h.onSleepQ ==> h.state == IO_WAIT || h.state == COND_WAIT || h.state == SLEEPING)
    && (h.timedOut ==> h.at.InCond? && h.at.c.User? && (h.state == RUNNABLE || h.state == RUNNING))
    && (h.at.InCond? && h.at.c.Term? ==> !h.onSleepQ)
    && (h.at.InExit? ==> h.term)
    && (h.primordial ==> !h.term)
  }

  /** `run` is the thread that has the processor, if one has. */
  ghost predicate ShapeOk(s: State, run: Option<nat>) {
    && s.idle in s.threads && (run.Some? ==> run.value in s.threads)
    && forall t :: t in s.threads ==> t < s.nextId && Fits(s.threads[t], t == s.idle, run == Some(t))
  }

  /** The run queue holds exactly the runnable threads but the idle one. */
  ghost predicate RunOk(s: State) {
    && NoDup(s.runQ)
    && forall t :: t in s.runQ <==> t in s.threads && s.threads[t].state == RUNNABLE && t != s.idle
  }

  ghost predicate ZombieOk(s: State) {
    && NoDup(s.zombieQ)
    && forall t :: t in s.zombieQ <==> t in s.threads && s.threads[t].state == ZOMBIE
  }

  /** The I/O queue holds exactly one request of each thread whose request is not served. */
  ghost predicate IoOk(s: State) {
    && NoDup(Threads(s.ioQ))
    && (forall t :: t in Threads(s.ioQ) <==> t in s.threads && s.threads[t].at == InPoll(None))
  }

  /** The timeout heap is a heap of exactly the threads flagged as sleeping. */
  ghost predicate HeapOk(s: State) {
    && Ordered(s.sleepQ) && DistinctWho(s.sleepQ)
    && forall t :: OnHeap(s.sleepQ, t) <==> t in s.threads && s.threads[t].onSleepQ
  }

  /** Each wait queue holds exactly the threads inside a wait on it, each once. */
  ghost predicate CondOk(s: State) {
    && (forall c :: c in s.conds ==> NoDup(s.conds[c]) && match c case User(n) => n < s.nextId case Term(t) => t < s.nextId)
    && (forall c, t {:trigger t in s.conds[c]} :: c in s.conds && t in s.conds[c] ==>
          t in s.threads && s.threads[t].at == InCond(c))
    && (forall t :: t in s.threads && s.threads[t].at.InCond? ==>
          s.threads[t].at.c in s.conds && t in s.conds[s.threads[t].at.c])
  }

  /** Mutexes: the wait queues, and that a thread waits only for a mutex that another one
      owns, and is woken only as its owner or by an interrupt. */
  ghost predicate MutexOk(s: State, pending: Option<nat>) {
    && (forall m :: m in s.mutexes ==> m < s.nextId && NoDup(s.mutexes[m].waitQ))
    && (forall m, t {:trigger t in s.mutexes[m].waitQ} :: m in s.mutexes && t in s.mutexes[m].waitQ ==>
          t in s.threads && s.threads[t].at == InLock(m))
    && (forall t :: t in s.threads && s.threads[t].at.InLock? ==>
          LockerOk(s, s.threads[t], t, pending) && t in s.mutexes[s.threads[t].at.m].waitQ)
  }

  /** `pending` may own the mutex already and be about to be woken. */
  ghost predicate LockerOk(s: State, h: Thread, t: nat, pending: Option<nat>)
    requires h.at.InLock?
  {
    && h.at.m in s.mutexes
    && var owner := s.mutexes[h.at.m].owner;
       if h.state == LOCK_WAIT then owner != None && (owner != Some(t) || pending == Some(t))
       else h.interrupt || owner == Some(t)
  }

  /** Joins: a thread not yet joined has its termination variable; at most one thread
      waits on it; the waiter is woken by an interrupt or by the target's exit, and the
      target stays a zombie until the waiter has gone on. */
  ghost predicate JoinOk(s: State, pending: Option<nat>) {
    && (forall t :: t in s.threads && s.threads[t].term ==> Term(t) in s.conds)
    && (forall c :: c in s.conds && c.Term? ==> |s.conds[c]| <= 1)
    && (forall t :: t in s.threads && s.threads[t].at.InCond? && s.threads[t].at.c.Term? ==>
          s.threads[t].at.c.t != t && JoinerOk(s, s.threads[t], pending))
  }

  /** `pending` may be a zombie that has yet to signal its joiner. */
  ghost predicate JoinerOk(s: State, h: Thread, pending: Option<nat>)
    requires h.at.InCond? && h.at.c.Term?
  {
    var u := Get(s, h.at.c.t);
    if h.state == COND_WAIT then u.state != ZOMBIE || pending == Some(h.at.c.t) else h.interrupt || u.state == ZOMBIE
  }

  /** The free list holds exactly the stacks of the threads that have gone. */
  ghost predicate StackOk(s: State) {
    && NoDup(s.freeStacks) && s.numFreeStacks == |s.freeStacks|
    && forall t :: t in s.freeStacks <==> t in s.threads && s.threads[t].at.Gone? && !s.threads[t].primordial
  }

  ghost function Active(s: State): set<nat> {
    set t | t in s.threads && t != s.idle && !s.threads[t].at.InExit? && !s.threads[t].at.Gone?
  }

  ghost predicate CountOk(s: State) {
    s.activeCount == |Active(s)|
  }

  /** Everything, while `run` has the processor and one step about `pending` is open. */
  ghost predicate Core(s: State, run: Option<nat>, pending: Option<nat>) {
    && ShapeOk(s, run) && RunOk(s) && ZombieOk(s) && IoOk(s) && HeapOk(s)
    && CondOk(s) && MutexOk(s, pending) && JoinOk(s, pending) && StackOk(s) && CountOk(s)
  }

  ghost predicate Inv(s: State) {
    Core(s, Some(s.cur), None)
  }

  // ---- the turn of one thread ----

  /** q2 is q with t a member or not, the others staying. */
  ghost predicate Moves(q: seq<nat>, q2: seq<nat>, t: nat, member: bool) {
    NoDup(q2) && forall u :: u in q2 <==> if u == t then member else u in q
  }

  /** s2 differs from s in the record of t, which is h now. */
  ghost predicate Changed(s: State, s2: State, t: nat, h: Thread) {
    && s2.threads == s.threads[t := h] && s2.idle == s.idle && s.nextId <= s2.nextId && t < s2.nextId
  }

  ghost predicate IsActive(s: State, t: nat, h: Thread) {
    t != s.idle && !h.at.InExit? && !h.at.Gone?
  }

  ghost predicate HeapMoves(s: State, s2: State, t: nat, h: Thread) {
    && Ordered(s2.sleepQ) && DistinctWho(s2.sleepQ)
    && forall u :: OnHeap(s2.sleepQ, u) <==> if u == t then h.onSleepQ else OnHeap(s.sleepQ, u)
  }

  ghost predicate CondMoves(s: State, s2: State, t: nat, h: Thread) {
    && (forall c :: c in s2.conds ==> match c case User(n) => n < s2.nextId case Term(u) => u < s2.nextId)
    && (forall c :: c in s2.conds ==> Moves(WaitQ(s, c), s2.conds[c], t, h.at == InCond(c)))
    && (forall c, u :: c in s.conds && c !in s2.conds && u in s.conds[c] ==> u == t)
    && (h.at.InCond? ==> h.at.c in s2.conds)
  }

  ghost predicate MutexMoves(s: State, s2: State, t: nat, h: Thread, pending: Option<nat>, pending2: Option<nat>) {
    && (forall m :: m in s2.mutexes ==>
          m < s2.nextId && Moves(if m in s.mutexes then s.mutexes[m].waitQ else [], s2.mutexes[m].waitQ, t, h.at == InLock(m)))
    && (forall m, u :: m in s.mutexes && m !in s2.mutexes && u in s.mutexes[m].waitQ ==> u == t)
    && (forall m :: m in s.mutexes && m in s2.mutexes ==> s2.mutexes[m].owner == s.mutexes[m].owner)
    && (h.at.InLock? ==> LockerOk(s2, h, t, pending2))
    && (pending == pending2 || pending == None || pending == Some(t))
  }

  /** Nobody waits to join t. */
  ghost predicate NoJoiner(s: State, t: nat) {
    forall u :: u in WaitQ(s, Term(t)) ==> u == t
  }

  ghost predicate JoinMoves(s: State, s2: State, t: nat, h: Thread, pending: Option<nat>, pending2: Option<nat>) {
    && (forall u :: u in s.threads && u != t && s.threads[u].term && Term(u) in s.conds ==> Term(u) in s2.conds)
    && (h.term ==> Term(t) in s2.conds)
    && (forall c :: c in s2.conds && c.Term? ==> |s2.conds[c]| <= 1)
    && (h.at.InCond? && h.at.c.Term? ==> h.at.c.t != t && JoinerOk(s2, h, pending2))
    && (pending == pending2 || pending == None || (pending == Some(t) && h.state != ZOMBIE))
    && (Get(s, t).state == ZOMBIE && h.state != ZOMBIE ==> NoJoiner(s, t))
    && (Get(s, t).state != ZOMBIE && h.state == ZOMBIE ==> pending2 == Some(t))
  }

  lemma ShapeTurn(s: State, s2: State, t: nat, h: Thread, run: Option<nat>, run2: Option<nat>)
    requires ShapeOk(s, run) && Changed(s, s2, t, h) && Fits(h, t == s.idle, run2 == Some(t))
    requires forall u :: u != t ==> (run2 == Some(u) <==> run == Some(u))
    ensures ShapeOk(s2, run2)
  {
  }

  lemma RunTurn(s: State, s2: State, t: nat, h: Thread)
    requires RunOk(s) && Changed(s, s2, t, h) && Moves(s.runQ, s2.runQ, t, h.state == RUNNABLE && t != s.idle)
    ensures RunOk(s2)
  {
  }

  lemma ZombieTurn(s: State, s2: State, t: nat, h: Thread)
    requires ZombieOk(s) && Changed(s, s2, t, h) && Moves(s.zombieQ, s2.zombieQ, t, h.state == ZOMBIE)
    ensures ZombieOk(s2)
  {
  }

  lemma IoTurn(s: State, s2: State, t: nat, h: Thread)
    requires IoOk(s) && Changed(s, s2, t, h) && Moves(Threads(s.ioQ), Threads(s2.ioQ), t, h.at == InPoll(None))
    ensures IoOk(s2)
  {
  }

  lemma HeapTurn(s: State, s2: State, t: nat, h: Thread)
    requires HeapOk(s) && Changed(s, s2, t, h) && HeapMoves(s, s2, t, h)
    ensures HeapOk(s2)
  {
  }

  lemma CondTurn(s: State, s2: State, t: nat, h: Thread)
    requires CondOk(s) && Changed(s, s2, t, h) && CondMoves(s, s2, t, h)
    ensures CondOk(s2)
  {
  }

  lemma MutexTurn(s: State, s2: State, t: nat, h: Thread, pending: Option<nat>, pending2: Option<nat>)
    requires MutexOk(s, pending) && Changed(s, s2, t, h) && MutexMoves(s, s2, t, h, pending, pending2)
    ensures MutexOk(s2, pending2)
  {
    forall u | u in s2.threads && s2.threads[u].at.InLock?
      ensures LockerOk(s2, s2.threads[u], u, pending2) && u in s2.mutexes[s2.threads[u].at.m].waitQ
    {
      if u != t { LockerTurn(s, s2, t, h, u, pending, pending2); }
    }
  }

  lemma LockerTurn(s: State, s2: State, t: nat, h: Thread, u: nat, pending: Option<nat>, pending2: Option<nat>)
    requires MutexOk(s, pending) && Changed(s, s2, t, h) && MutexMoves(s, s2, t, h, pending, pending2)
    requires u in s.threads && u != t && s.threads[u].at.InLock?
    ensures LockerOk(s2, s.threads[u], u, pending2) && u in s2.mutexes[s.threads[u].at.m].waitQ
  {
    assert u in s.mutexes[s.threads[u].at.m].waitQ;
  }

  lemma JoinerTurn(s: State, s2: State, t: nat, h: Thread, u: nat, pending: Option<nat>, pending2: Option<nat>)
    requires CondOk(s) && Changed(s, s2, t, h) && JoinMoves(s, s2, t, h, pending, pending2)
    requires u in s.threads && u != t && s.threads[u].at.InCond? && s.threads[u].at.c.Term?
    requires JoinerOk(s, s.threads[u], pending)
    ensures JoinerOk(s2, s.threads[u], pending2)
  {
    assert u in WaitQ(s, s.threads[u].at.c);
  }

  lemma JoinTurn(s: State, s2: State, t: nat, h: Thread, pending: Option<nat>, pending2: Option<nat>)
    requires CondOk(s) && JoinOk(s, pending) && Changed(s, s2, t, h) && JoinMoves(s, s2, t, h, pending, pending2)
    ensures JoinOk(s2, pending2)
  {
    forall u | u in s2.threads && s2.threads[u].at.InCond? && s2.threads[u].at.c.Term?
      ensures s2.threads[u].at.c.t != u && JoinerOk(s2, s2.threads[u], pending2)
    {
      if u != t { JoinerTurn(s, s2, t, h, u, pending, pending2); }
    }
  }

  lemma StackTurn(s: State, s2: State, t: nat, h: Thread)
    requires StackOk(s) && Changed(s, s2, t, h) && s2.numFreeStacks == |s2.freeStacks|
    requires Moves(s.freeStacks, s2.freeStacks, t, h.at.Gone? && !h.primordial)
    ensures StackOk(s2)
  {
  }

  lemma CountTurn(s: State, s2: State, t: nat, h: Thread)
    requires CountOk(s) && Changed(s, s2, t, h)
    requires s2.activeCount == s.activeCount + (if IsActive(s, t, h) then 1 else 0) - (if IsActive(s, t, Get(s, t)) then 1 else 0)
    ensures CountOk(s2)
  {
    assert Active(s2) == if IsActive(s, t, h) then Active(s) + {t} else Active(s) - {t};
  }

  /** The whole turn of t: every queue moves as the new record asks. */
  ghost predicate Turned(s: State, s2: State, t: nat, h: Thread, pending: Option<nat>, pending2: Option<nat>) {
    && Changed(s, s2, t, h)
    && Moves(s.runQ, s2.runQ, t, h.state == RUNNABLE && t != s.idle)
    && Moves(s.zombieQ, s2.zombieQ, t, h.state == ZOMBIE)
    && Moves(Threads(s.ioQ), Threads(s2.ioQ), t, h.at == InPoll(None))
    && Moves(s.freeStacks, s2.freeStacks, t, h.at.Gone? && !h.primordial)
    && s2.numFreeStacks == |s2.freeStacks|
    && HeapMoves(s, s2, t, h) && CondMoves(s, s2, t, h) && MutexMoves(s, s2, t, h, pending, pending2)
    && JoinMoves(s, s2, t, h, pending, pending2)
    && s2.activeCount == s.activeCount + (if IsActive(s, t, h) then 1 else 0) - (if IsActive(s, t, Get(s, t)) then 1 else 0)
  }

  lemma Turn(s: State, s2: State, t: nat, h: Thread, run: Option<nat>, run2: Option<nat>,
             pending: Option<nat>, pending2: Option<nat>)
    requires Core(s, run, pending) && Turned(s, s2, t, h, pending, pending2)
    requires Fits(h, t == s.idle, run2 == Some(t)) && forall u :: u != t ==> (run2 == Some(u) <==> run == Some(u))
    ensures Core(s2, run2, pending2)
  {
    ShapeTurn(s, s2, t, h, run, run2);
    RunTurn(s, s2, t, h);
    ZombieTurn(s, s2, t, h);
    IoTurn(s, s2, t, h);
    HeapTurn(s, s2, t, h);
    CondTurn(s, s2, t, h);
    MutexTurn(s, s2, t, h, pending, pending2);
    JoinTurn(s, s2, t, h, pending, pending2);
    StackTurn(s, s2, t, h);
    CountTurn(s, s2, t, h);
  }

  // ---- queues that a turn leaves alone ----

  lemma AppendMoves(q: seq<nat>, t: nat)
    requires NoDup(q) && t !in q
    ensures Moves(q, q + [t], t, true) && Moves(q, [t] + q, t, true)
  {
  }

  lemma ListsStay(s: State, s2: State, t: nat, h: Thread)
    requires ZombieOk(s) && IoOk(s) && StackOk(s) && t in s.threads
    ensures s2.zombieQ == s.zombieQ && (s.threads[t].state == ZOMBIE <==> h.state == ZOMBIE) ==>
              Moves(s.zombieQ, s2.zombieQ, t, h.state == ZOMBIE)
    ensures s2.ioQ == s.ioQ && (s.threads[t].at == InPoll(None) <==> h.at == InPoll(None)) ==>
              Moves(Threads(s.ioQ), Threads(s2.ioQ), t, h.at == InPoll(None))
    ensures s2.freeStacks == s.freeStacks && !s.threads[t].at.Gone? && !h.at.Gone? ==>
              Moves(s.freeStacks, s2.freeStacks, t, h.at.Gone? && !h.primordial)
    ensures s.numFreeStacks == |s.freeStacks|
  {
  }

  lemma RunStay(s: State, s2: State, t: nat, h: Thread)
    requires RunOk(s) && t in s.threads && s2.runQ == s.runQ
    requires t == s.idle || (s.threads[t].state == RUNNABLE <==> h.state == RUNNABLE)
    ensures Moves(s.runQ, s2.runQ, t, h.state == RUNNABLE && t != s.idle)
  {
  }

  lemma HeapStay(s: State, s2: State, t: nat, h: Thread)
    requires HeapOk(s) && t in s.threads && s2.sleepQ == s.sleepQ && h.onSleepQ == s.threads[t].onSleepQ
    ensures HeapMoves(s, s2, t, h)
  {
  }

  lemma HeapLeave(s: State, s2: State, t: nat, h: Thread)
    requires HeapOk(s) && t in s.threads && !h.onSleepQ
    requires s2.sleepQ == if s.threads[t].onSleepQ then HeapWithout(s.sleepQ, t) else s.sleepQ
    ensures HeapMoves(s, s2, t, h)
  {
    if s.threads[t].onSleepQ { HeapDel(s.sleepQ, IndexOf(s.sleepQ, t)); }
  }

  lemma CondStay(s: State, s2: State, t: nat, h: Thread)
    requires CondOk(s) && t in s.threads && s2.conds == s.conds && s.nextId <= s2.nextId
    requires s.threads[t].at.InCond? || h.at.InCond? ==> h.at == s.threads[t].at
    ensures CondMoves(s, s2, t, h)
  {
  }

  lemma MutexStay(s: State, s2: State, t: nat, h: Thread, pending: Option<nat>)
    requires MutexOk(s, pending) && t in s.threads && s2.mutexes == s.mutexes && s.nextId <= s2.nextId
    requires s.threads[t].at.InLock? || h.at.InLock? ==> h.at == s.threads[t].at
    requires h.at.InLock? ==> LockerOk(s2, h, t, pending)
    ensures MutexMoves(s, s2, t, h, pending, pending)
  {
  }

  /** What the invariant says about a thread that waits for a mutex or a join. */
  lemma Waits(s: State, t: nat, pending: Option<nat>)
    requires MutexOk(s, pending) && JoinOk(s, pending) && t in s.threads
    ensures var h := s.threads[t];
            && (h.at.InLock? ==> LockerOk(s, h, t, pending))
            && (h.at.InCond? && h.at.c.Term? ==> h.at.c.t != t && JoinerOk(s, h, pending))
  {
  }

  /** Nothing about joining changes. */
  lemma JoinStay(s: State, s2: State, t: nat, h: Thread, pending: Option<nat>)
    requires JoinOk(s, pending) && t in s.threads && s2.conds == s.conds && h.term == s.threads[t].term
    requires h.state == ZOMBIE <==> s.threads[t].state == ZOMBIE
    requires h.at.InCond? && h.at.c.Term? ==> h.at.c.t != t && JoinerOk(s2, h, pending)
    ensures JoinMoves(s, s2, t, h, pending, pending)
  {
  }

  // ---- queues that a turn enters or leaves ----

  lemma RunEnter(s: State, t: nat)
    requires RunOk(s) && (t in s.threads ==> s.threads[t].state != RUNNABLE)
    ensures Moves(s.runQ, s.runQ + [t], t, true) && Moves(s.runQ, [t] + s.runQ, t, true)
  {
    AppendMoves(s.runQ, t);
  }

  /** The head of the run queue, or else the idle thread, leaves it. */
  lemma RunLeave(s: State, t: nat, q: seq<nat>)
    requires RunOk(s) && if s.runQ == [] then t == s.idle && q == [] else t == s.runQ[0] && q == s.runQ[1..]
    ensures Moves(s.runQ, q, t, false) && (s.runQ != [] ==> t in s.threads && s.threads[t].state == RUNNABLE && t != s.idle)
  {
    assert s.runQ != [] ==> t in s.runQ && s.runQ == [t] + q;
  }

  lemma CondEnter(s: State, s2: State, t: nat, h: Thread, c: CondId)
    requires CondOk(s) && t in s.threads && !s.threads[t].at.InCond? && c in s.conds && h.at == InCond(c)
    requires s2.conds == s.conds[c := s.conds[c] + [t]] && s.nextId <= s2.nextId
    ensures CondMoves(s, s2, t, h)
  {
    AppendMoves(s.conds[c], t);
  }

  lemma CondLeave(s: State, s2: State, t: nat, h: Thread, c: CondId)
    requires CondOk(s) && t in s.threads && s.threads[t].at == InCond(c) && !h.at.InCond?
    requires c in s.conds && s2.conds == s.conds[c := Without(s.conds[c], t)] && s.nextId <= s2.nextId
    ensures CondMoves(s, s2, t, h)
  {
  }

  lemma MutexEnter(s: State, s2: State, t: nat, h: Thread, m: nat)
    requires MutexOk(s, None) && t in s.threads && !s.threads[t].at.InLock? && m in s.mutexes
    requires h.at == InLock(m) && h.state == LOCK_WAIT && s.nextId <= s2.nextId
    requires var x := s.mutexes[m];
             x.owner != None && x.owner != Some(t) && s2.mutexes == s.mutexes[m := x.(waitQ := x.waitQ + [t])]
    ensures MutexMoves(s, s2, t, h, None, None)
  {
    AppendMoves(s.mutexes[m].waitQ, t);
  }

  lemma MutexLeave(s: State, s2: State, t: nat, h: Thread, m: nat)
    requires MutexOk(s, None) && t in s.threads && s.threads[t].at == InLock(m) && !h.at.InLock?
    requires m in s.mutexes && s.nextId <= s2.nextId
    requires s2.mutexes == s.mutexes[m := s.mutexes[m].(waitQ := Without(s.mutexes[m].waitQ, t))]
    ensures MutexMoves(s, s2, t, h, None, None)
  {
  }

  /** No thread becomes or stops being a zombie, and no termination variable is lost. */
  lemma JoinKeep(s: State, s2: State, t: nat, h: Thread)
    requires JoinOk(s, None) && t in s.threads && s.conds.Keys <= s2.conds.Keys && h.term == s.threads[t].term
    requires h.state == ZOMBIE <==> s.threads[t].state == ZOMBIE
    requires forall c :: c in s2.conds && c.Term? ==> |s2.conds[c]| <= 1
    requires h.at.InCond? && h.at.c.Term? ==> h.at.c.t != t && JoinerOk(s2, h, None)
    ensures JoinMoves(s, s2, t, h, None, None)
  {
  }

  /** A number not used yet is on no queue. */
  lemma NewOnLists(s: State, run: Option<nat>)
    requires ShapeOk(s, run) && RunOk(s) && ZombieOk(s) && IoOk(s) && StackOk(s)
    ensures var t := s.nextId;
            && t !in s.threads && t !in s.runQ && t !in s.freeStacks
            && Moves(s.zombieQ, s.zombieQ, t, false) && Moves(Threads(s.ioQ), Threads(s.ioQ), t, false)
            && Moves(s.runQ, s.runQ, t, false) && Moves(s.freeStacks, s.freeStacks, t, false)
  {
  }

  lemma NewOnHeap(s: State, s2: State, h: Thread)
    requires HeapOk(s) && s.nextId !in s.threads && !h.onSleepQ && s2.sleepQ == s.sleepQ
    ensures HeapMoves(s, s2, s.nextId, h)
  {
  }

  lemma NewOnConds(s: State, s2: State, h: Thread)
    requires CondOk(s) && s.nextId !in s.threads && !h.at.InCond? && s2.nextId == s.nextId + 1
    requires s2.conds == if h.term then s.conds[Term(s.nextId) := []] else s.conds
    ensures CondMoves(s, s2, s.nextId, h)
  {
  }

  lemma NewOnMutexes(s: State, s2: State, h: Thread)
    requires MutexOk(s, None) && s.nextId !in s.threads && !h.at.InLock? && s2.nextId == s.nextId + 1
    requires s2.mutexes == s.mutexes
    ensures MutexMoves(s, s2, s.nextId, h, None, None)
  {
  }

  lemma NewJoin(s: State, s2: State, h: Thread)
    requires JoinOk(s, None) && s.nextId !in s.threads && !h.at.InCond? && h.state != ZOMBIE
    requires s2.conds == if h.term then s.conds[Term(s.nextId) := []] else s.conds
    ensures JoinMoves(s, s2, s.nextId, h, None, None)
  {
  }

  // ---- making threads runnable ----

  /** h is the record of t made ready to run: only flags and, for a served poll, the place
      have changed, and there is a reason for waking a waiter for a mutex or a join. */
  ghost predicate Readied(s: State, t: nat, h: Thread) {
    && t in s.threads && t != s.idle
    && var o := s.threads[t];
       && o.state != RUNNING && o.state != RUNNABLE && o.state != ZOMBIE
       && h.state == RUNNABLE && !h.onSleepQ && (o.interrupt ==> h.interrupt)
       && h.term == o.term && h.primordial == o.primordial
       && (h.timedOut ==> o.at.InCond? && o.at.c.User?)
       && (h.at == o.at || (o.state == IO_WAIT && h.at.InPoll? && h.at.ready.Some?))
       && (o.at.InLock? ==> h.interrupt || (o.at.m in s.mutexes && Some(t) == s.mutexes[o.at.m].owner))
       && (o.at.InCond? && o.at.c.Term? ==> h.interrupt || Get(s, o.at.c.t).state == ZOMBIE)
  }

  /** The state after t has been made ready as h. */
  ghost function Ready(s: State, t: nat, h: Thread, front: bool): State {
    var o := Get(s, t);
    SetThread(s, t, h).(
      runQ := if front then [t] + s.runQ else s.runQ + [t],
      sleepQ := if o.onSleepQ then HeapWithout(s.sleepQ, t) else s.sleepQ,
      ioQ := if h.at == o.at then s.ioQ else WithoutPoll(s.ioQ, t))
  }

  /** The record made ready is right for its thread, which nobody else counts on. */
  lemma ReadyFits(s: State, run: Option<nat>, t: nat, h: Thread)
    requires ShapeOk(s, run) && Readied(s, t, h)
    ensures Fits(h, t == s.idle, run == Some(t)) && t < s.nextId && !s.threads[t].at.Gone? && !h.at.Gone?
    ensures h.at == s.threads[t].at || (s.threads[t].at.InPoll? && h.at.InPoll?)
    ensures !h.at.InExit? && !s.threads[t].at.InExit? && (h.at == InPoll(None) ==> s.threads[t].at == InPoll(None))
  {
    assert Fits(s.threads[t], t == s.idle, run == Some(t));
  }

  lemma ReadyTurn(s: State, run: Option<nat>, pending: Option<nat>, t: nat, h: Thread, r: State)
    requires Core(s, run, pending) && Readied(s, t, h)
    requires HeapMoves(s, r, t, h) && Moves(s.runQ, r.runQ, t, true)
    requires Moves(Threads(s.ioQ), Threads(r.ioQ), t, h.at == InPoll(None))
    requires r == SetThread(s, t, h).(runQ := r.runQ, sleepQ := r.sleepQ, ioQ := r.ioQ)
    ensures Core(r, run, pending)
  {
    hide ShapeOk, Fits, LockerOk, RunOk, ZombieOk, IoOk, HeapOk, CondOk, MutexOk, JoinOk, StackOk, CountOk, Moves, HeapMoves, CondMoves, MutexMoves, JoinMoves;
    ReadyFits(s, run, t, h);
    Waits(s, t, pending);
    ListsStay(s, r, t, h);
    CondStay(s, r, t, h);
    MutexStay(s, r, t, h, pending);
    JoinStay(s, r, t, h, pending);
    Turn(s, r, t, h, run, run, pending, pending);
  }

  lemma ReadyKeeps(s: State, run: Option<nat>, pending: Option<nat>, t: nat, h: Thread, front: bool, r: State)
    requires Core(s, run, pending) && Readied(s, t, h) && r == Ready(s, t, h, front)
    ensures Core(r, run, pending)
  {
    assert Fits(s.threads[t], false, run == Some(t));
    RunEnter(s, t);
    HeapLeave(s, r, t, h);
    ReadyTurn(s, run, pending, t, h, r);
  }

  lemma ScheduleIs(s: State)
    ensures var r := Schedule(s);
            && r == SetThread(s, r.cur, Get(s, r.cur).(state := RUNNING)).(cur := r.cur, runQ := r.runQ)
            && if s.runQ == [] then r.cur == s.idle && r.runQ == [] else r.cur == s.runQ[0] && r.runQ == s.runQ[1..]
  {
  }

  lemma ChosenFits(s: State, t: nat)
    requires ShapeOk(s, None) && (t == s.idle || (t in s.threads && s.threads[t].state == RUNNABLE))
    ensures t in s.threads && t < s.nextId && s.threads[t].state == RUNNABLE && !s.threads[t].at.Gone? && !s.threads[t].at.InUser?
    ensures Fits(s.threads[t].(state := RUNNING), t == s.idle, true)
  {
    assert Fits(s.threads[t], t == s.idle, false);
  }

  /** `_st_vp_schedule` finds a runnable thread, so its assertion holds. */
  lemma ScheduleKeeps(s: State, r: State)
    requires Core(s, None, None) && r == Schedule(s)
    ensures Inv(r)
    ensures r.cur in s.threads && s.threads[r.cur].state == RUNNABLE && (r.cur == s.idle <==> s.runQ == [])
  {
    hide ShapeOk, Fits, LockerOk, RunOk, ZombieOk, IoOk, HeapOk, CondOk, MutexOk, JoinOk, StackOk, CountOk, Moves, HeapMoves, CondMoves, MutexMoves, JoinMoves;
    ScheduleIs(s);
    hide Schedule;
    var t := r.cur;
    RunLeave(s, t, r.runQ);
    ChosenFits(s, t);
    Waits(s, t, None);
    var h := s.threads[t].(state := RUNNING);
    ListsStay(s, r, t, h);
    HeapStay(s, r, t, h);
    CondStay(s, r, t, h);
    MutexStay(s, r, t, h, None);
    JoinStay(s, r, t, h, None);
    Turn(s, r, t, h, None, Some(t), None, None);
  }
}
