/** The scheduler of sched.c, sync.c and stk.c as a state machine.  A state is what the
    program holds between two calls of the running thread, or at a context switch; the
    `at` of a thread says where in the source it will go on. */
module SchedModel {
  import opened Basics
  import opened HeapModel
  import opened Epoll
  import opened SchedQueues

  datatype TState = RUNNING | RUNNABLE | IO_WAIT | LOCK_WAIT | COND_WAIT | SLEEPING | ZOMBIE | SUSPENDED

  /** A condition variable: one of the user's, or the termination variable of a thread. */
  datatype CondId = User(n: nat) | Term(t: nat)

  /** The place where a thread goes on.  InPoll carries the poll descriptors once the
      request has left the I/O queue; waiting on Term(u) is st_thread_join(u). */
  datatype Place =
    | Start | InUser | InIdle | InSleep | InYield
    | InPoll(ready: Option<seq<PollFd>>)
    | InCond(c: CondId)
    | InLock(m: nat)
    | InExit | Gone

  /** A thread record; the bits of the flags word are fields. */
  datatype Thread = Thread(
    state: TState, at: Place,
    onSleepQ: bool, interrupt: bool, timedOut: bool, primordial: bool,
    term: bool, retval: int)

  /** What memory looks like where there is no thread record any more. */
  const NOBODY := Thread(RUNNING, Gone, false, false, false, false, false, 0)

  datatype Mutex = Mutex(owner: Option<nat>, waitQ: seq<nat>)

  datatype State = State(
    cur: nat, idle: nat, threads: map<nat, Thread>, nextId: nat,
    runQ: seq<nat>, ioQ: seq<Pollq>, zombieQ: seq<nat>, sleepQ: Image<nat>,
    conds: map<CondId, seq<nat>>, mutexes: map<nat, Mutex>,
    freeStacks: seq<nat>, numFreeStacks: int,
    activeCount: int, lastClock: int)

  /** What a call returns to its caller. */
  datatype Ret =
    | Zero | Fds(n: nat) | Retval(v: int) | NewThread(t: nat) | NewObject(n: nat) | Fail(e: Errno)

  /** `ret` is None while the call is still under way. */
  datatype Result = Result(s: State, ret: Option<Ret>)

  // ---- records and queues ----

  function Get(s: State, t: nat): Thread {
    if t in s.threads then s.threads[t] else NOBODY
  }

  function SetThread(s: State, t: nat, h: Thread): State {
    s.(threads := s.threads[t := h])
  }

  function WaitQ(s: State, c: CondId): seq<nat> {
    if c in s.conds then s.conds[c] else []
  }

  /** t, with the record h, is taken off the sleep queue if it is there and made runnable. */
  function WakeAs(s: State, t: nat, h: Thread): State {
    SetThread(s, t, h.(state := RUNNABLE, onSleepQ := false)).(
      runQ := s.runQ + [t],
      sleepQ := if h.onSleepQ then HeapWithout(s.sleepQ, t) else s.sleepQ)
  }

  function Wake(s: State, t: nat): State { WakeAs(s, t, Get(s, t)) }

  function WakeAll(s: State, ts: seq<nat>): State {
    if ts == [] then s else Wake(WakeAll(s, ts[..|ts| - 1]), ts[|ts| - 1])
  }

  /** The running thread takes a state and place and, with a timeout, enters the sleep
      queue. */
  function Suspend(s: State, st: TState, at: Place, timeout: Option<int>): State {
    var h := Get(s, s.cur).(state := st, at := at);
    match timeout
    case None => SetThread(s, s.cur, h)
    case Some(d) =>
      SetThread(s, s.cur, h.(onSleepQ := true)).(sleepQ := Insert(s.sleepQ, Sleeper(s.cur, s.lastClock + d)))
  }

  /** `_st_vp_schedule`: the head of the run queue, or else the idle thread, runs. */
  function Schedule(s: State): State {
    if s.runQ != [] then
      var t := s.runQ[0];
      SetThread(s, t, Get(s, t).(state := RUNNING)).(cur := t, runQ := s.runQ[1..])
    else
      SetThread(s, s.idle, Get(s, s.idle).(state := RUNNING)).(cur := s.idle)
  }

  function Blocked(s: State): Result { Result(Schedule(s), None) }

  function Done(s: State, r: Ret): Result { Result(s, Some(r)) }

  /** A call that had blocked ends. */
  function Return(s: State, r: Ret): Result {
    Done(SetThread(s, s.cur, Get(s, s.cur).(at := InUser)), r)
  }

  /** A call ends with EINTR; the interrupt is forgotten. */
  function Interrupted(s: State): Result {
    Done(SetThread(s, s.cur, Get(s, s.cur).(at := InUser, interrupt := false)), Fail(EINTR))
  }

  // ---- sched.c ----

  /** One turn of the loop of `_st_vp_check_clock`: the root leaves the heap and goes to
      the head of the run queue. */
  function ExpireOne(s: State): State
    requires s.sleepQ != []
  {
    var t := s.sleepQ[0].who;
    var h := Get(s, t);
    SetThread(s, t, h.(onSleepQ := false, timedOut := h.timedOut || h.state == COND_WAIT, state := RUNNABLE)).(
      sleepQ := Delete(s.sleepQ, 1), runQ := [t] + s.runQ)
  }

  /** The sleepers whose time has come, the earliest first. */
  function Expire(s: State, now: int): State
    decreases |s.sleepQ|
  {
    if s.sleepQ == [] || s.sleepQ[0].due > now then s else Expire(ExpireOne(s), now)
  }

  function CheckClock(s: State, now: int): State { Expire(s.(lastClock := now), now) }

  /** The poll descriptors of a request with the events reported to it. */
  function Reported(pds: seq<PollFd>, rev: int -> set<Ev>): (r: seq<PollFd>)
    ensures |r| == |pds| && forall i :: 0 <= i < |pds| ==> r[i] == Report(pds[i], rev(pds[i].fd))
  {
    if pds == [] then [] else
      var n := |pds| - 1;
      Reported(pds[..n], rev) + [Report(pds[n], rev(pds[n].fd))]
  }

  function CountReady(pds: seq<PollFd>): nat {
    if pds == [] then 0
    else CountReady(pds[..|pds| - 1]) + if pds[|pds| - 1].revents != {} then 1 else 0
  }

  /** The requests that dispatch takes off the I/O queue, and those that it leaves. */
  function Moved(q: seq<Pollq>, rev: int -> set<Ev>): seq<Pollq> {
    if q == [] then [] else
      var p := q[|q| - 1].(pds := Reported(q[|q| - 1].pds, rev));
      Moved(q[..|q| - 1], rev) + if CountReady(p.pds) > 0 then [p] else []
  }

  function Kept(q: seq<Pollq>, rev: int -> set<Ev>): seq<Pollq> {
    if q == [] then [] else
      var p := q[|q| - 1].(pds := Reported(q[|q| - 1].pds, rev));
      Kept(q[..|q| - 1], rev) + if CountReady(p.pds) > 0 then [] else [p]
  }

  /** Hand the moved requests to their threads, which become runnable. */
  function Deliver(s: State, moved: seq<Pollq>): State {
    if moved == [] then s
    else
      var before, p := Deliver(s, moved[..|moved| - 1]), moved[|moved| - 1];
      WakeAs(before, p.thread, Get(before, p.thread).(at := InPoll(Some(p.pds))))
  }

  /** The events that `epoll_wait` leaves recorded for each descriptor. */
  function Revents(s: State, fired: Fired): int -> set<Ev> {
    fd => Recorded(fired, fd, Events(Tally(AllPds(s.ioQ), fd)))
  }

  /** `_st_epoll_dispatch` */
  function Dispatch(s: State, fired: Fired): State {
    if fired == [] then s
    else
      var rev := Revents(s, fired);
      Deliver(s, Moved(s.ioQ, rev)).(ioQ := Kept(s.ioQ, rev))
  }

  /** One turn of the idle thread, from one context switch to the next. */
  function IdleTurn(s: State, fired: Fired, now: int): Result {
    Blocked(Suspend(CheckClock(Dispatch(s, fired), now), RUNNABLE, InIdle, None))
  }

  /** `st_poll`; `added` is the outcome of adding the descriptors to the poll set. */
  function Poll(s: State, pds: seq<PollFd>, timeout: Option<int>, added: Errno): Result {
    if Get(s, s.cur).interrupt then Interrupted(s)
    else if added != Ok then Done(s, Fail(added))
    else Blocked(Suspend(s.(ioQ := s.ioQ + [Pollq(s.cur, pds)]), IO_WAIT, InPoll(None), timeout))
  }

  function PollDone(s: State, ready: Option<seq<PollFd>>): Result {
    var s1 := if ready.None? then s.(ioQ := WithoutPoll(s.ioQ, s.cur)) else s;
    if Get(s, s.cur).interrupt then Interrupted(s1)
    else Return(s1, Fds(match ready case None => 0 case Some(pds) => CountReady(pds)))
  }

  function Yield(s: State, now: int): Result {
    var c := CheckClock(s, now);
    if c.runQ == [] then Done(c, Zero)
    else Blocked(Suspend(c, RUNNABLE, InYield, None).(runQ := c.runQ + [c.cur]))
  }

  function Interrupt(s: State, t: nat): Result {
    var h := Get(s, t);
    if h.state == ZOMBIE then Done(s, Zero)
    else if h.state == RUNNING || h.state == RUNNABLE then Done(SetThread(s, t, h.(interrupt := true)), Zero)
    else Done(WakeAs(s, t, h.(interrupt := true)), Zero)
  }

  /** `_st_stack_free`: the stack goes in before the last one of the free list. */
  function FreeStack(s: State, t: nat): State {
    var q := s.freeStacks;
    s.(freeStacks := if q == [] then [t] else q[..|q| - 1] + [t, q[|q| - 1]],
       numFreeStacks := s.numFreeStacks + 1)
  }

  /** The end of `st_thread_exit` with the record h: it lives on in its stack until that is
      unmapped, still marked running. */
  function Vanish(s: State, h: Thread): State {
    var g := SetThread(s, s.cur, h.(state := RUNNING, at := Gone));
    if h.primordial then g else FreeStack(g, s.cur)
  }

  function Exit(s: State, retval: int): Result {
    var h := Get(s, s.cur).(retval := retval);
    if h.term then
      Blocked(Signal(SetThread(s, s.cur, h.(state := ZOMBIE, at := InExit)).(
                       activeCount := s.activeCount - 1, zombieQ := s.zombieQ + [s.cur]), Term(s.cur), false))
    else Blocked(Vanish(s.(activeCount := s.activeCount - 1), h))
  }

  function ExitDone(s: State): Result {
    var c := Term(s.cur);
    Blocked(Vanish(s.(conds := if WaitQ(s, c) == [] then s.conds - {c} else s.conds), Get(s, s.cur).(term := false)))
  }

  /** The loop of `st_thread_join`. */
  function JoinLoop(s: State, u: nat): Result {
    var h := Get(s, u);
    if h.state == ZOMBIE then
      Done(SetThread(s, u, h.(state := RUNNABLE)).(zombieQ := Without(s.zombieQ, u), runQ := s.runQ + [u]),
           Retval(h.retval))
    else CondWait(s, Term(u), None)
  }

  function Join(s: State, u: nat): Result {
    if !Get(s, u).term then Done(s, Fail(EINVAL))
    else if s.cur == u then Done(s, Fail(EDEADLK))
    else if WaitQ(s, Term(u)) != [] then Done(s, Fail(EINVAL))
    else JoinLoop(s, u)
  }

  /** `_st_stack_new`: every stack of the free list is unmapped. */
  function Unmap(s: State): State {
    s.(threads := s.threads - (set t | t in s.freeStacks),
       numFreeStacks := s.numFreeStacks - |s.freeStacks|, freeStacks := [])
  }

  /** `st_thread_create`; the flags are the outcomes of the two allocations. */
  function Create(s: State, joinable: bool, stackOk: bool, condOk: bool): Result {
    if stackOk then Begin(Unmap(s), joinable, condOk) else Done(Unmap(s), Fail(ENOMEM))
  }

  /** The rest of `st_thread_create`, once there is a stack. */
  function Begin(u: State, joinable: bool, condOk: bool): Result {
    var t, h := u.nextId, NOBODY.(at := Start, state := RUNNABLE, term := joinable);
    if joinable && !condOk then
      Done(FreeStack(SetThread(u, t, NOBODY).(nextId := t + 1), t), Fail(ENOMEM))
    else
      Done(SetThread(u, t, h).(nextId := t + 1, runQ := u.runQ + [t], activeCount := u.activeCount + 1,
                               conds := if joinable then u.conds[Term(t) := []] else u.conds), NewThread(t))
  }

  // ---- sync.c ----

  function Usleep(s: State, timeout: Option<int>): Result {
    if Get(s, s.cur).interrupt then Interrupted(s)
    else Blocked(Suspend(s, if timeout.Some? then SLEEPING else SUSPENDED, InSleep, timeout))
  }

  function SleepDone(s: State): Result {
    if Get(s, s.cur).interrupt then Interrupted(s) else Return(s, Zero)
  }

  function CondWait(s: State, c: CondId, timeout: Option<int>): Result {
    if Get(s, s.cur).interrupt then Interrupted(s)
    else Blocked(Suspend(s.(conds := s.conds[c := WaitQ(s, c) + [s.cur]]), COND_WAIT, InCond(c), timeout))
  }

  /** A wait is over: the thread leaves the wait queue and its flags are taken down. */
  function EndWait(s: State, c: CondId): State {
    SetThread(s, s.cur, Get(s, s.cur).(at := InUser, timedOut := false, interrupt := false)).(
      conds := s.conds[c := Without(WaitQ(s, c), s.cur)])
  }

  function CondDone(s: State, c: CondId): Result {
    var h, u := Get(s, s.cur), EndWait(s, c);
    if h.interrupt then Done(u, Fail(EINTR))
    else if h.timedOut then Done(u, Fail(ETIME))
    else match c
      case User(_) => Done(u, Zero)
      case Term(t) => JoinLoop(u, t)
  }

  /** Those of q that are in state st, in order. */
  function Waiting(s: State, q: seq<nat>, st: TState): seq<nat> {
    if q == [] then []
    else Waiting(s, q[..|q| - 1], st) + if Get(s, q[|q| - 1]).state == st then [q[|q| - 1]] else []
  }

  function Signalled(s: State, c: CondId, broadcast: bool): seq<nat> {
    var w := Waiting(s, WaitQ(s, c), COND_WAIT);
    if broadcast || w == [] then w else w[..1]
  }

  function Signal(s: State, c: CondId, broadcast: bool): State {
    WakeAll(s, Signalled(s, c, broadcast))
  }

  function Lock(s: State, m: nat): Result
    requires m in s.mutexes
  {
    var x := s.mutexes[m];
    if Get(s, s.cur).interrupt then Interrupted(s)
    else if x.owner == None then Done(s.(mutexes := s.mutexes[m := x.(owner := Some(s.cur))]), Zero)
    else if x.owner == Some(s.cur) then Done(s, Fail(EDEADLK))
    else Blocked(Suspend(s.(mutexes := s.mutexes[m := x.(waitQ := x.waitQ + [s.cur])]), LOCK_WAIT, InLock(m), None))
  }

  function LockDone(s: State, m: nat): Result
    requires m in s.mutexes
  {
    var x := s.mutexes[m];
    var u := s.(mutexes := s.mutexes[m := x.(waitQ := Without(x.waitQ, s.cur))]);
    if Get(s, s.cur).interrupt && x.owner != Some(s.cur) then Interrupted(u) else Return(u, Zero)
  }

  function Unlock(s: State, m: nat): Result
    requires m in s.mutexes
  {
    var x := s.mutexes[m];
    if x.owner != Some(s.cur) then Done(s, Fail(EPERM))
    else
      var w := Waiting(s, x.waitQ, LOCK_WAIT);
      if w == [] then Done(s.(mutexes := s.mutexes[m := x.(owner := None)]), Zero)
      else Done(Wake(s.(mutexes := s.mutexes[m := x.(owner := Some(w[0]))]), w[0]), Zero)
  }

  function Trylock(s: State, m: nat): Result
    requires m in s.mutexes
  {
    var x := s.mutexes[m];
    if x.owner != None then Done(s, Fail(EBUSY))
    else Done(s.(mutexes := s.mutexes[m := x.(owner := Some(s.cur))]), Zero)
  }

  function CondNew(s: State): Result {
    Done(s.(conds := s.conds[User(s.nextId) := []], nextId := s.nextId + 1), NewObject(s.nextId))
  }

  function MutexNew(s: State): Result {
    Done(s.(mutexes := s.mutexes[s.nextId := Mutex(None, [])], nextId := s.nextId + 1), NewObject(s.nextId))
  }

  function CondDestroy(s: State, c: CondId): Result {
    if WaitQ(s, c) != [] then Done(s, Fail(EBUSY)) else Done(s.(conds := s.conds - {c}), Zero)
  }

  function MutexDestroy(s: State, m: nat): Result
    requires m in s.mutexes
  {
    var x := s.mutexes[m];
    if x.owner != None || x.waitQ != [] then Done(s, Fail(EBUSY)) else Done(s.(mutexes := s.mutexes - {m}), Zero)
  }

  // ---- steps ----

  /** What the running thread does next: call the library, or, if it has just been given
      the processor, finish the call that it was in. */
  datatype Step =
    | DoPoll(pds: seq<PollFd>, timeout: Option<int>, added: Errno)
    | DoYield(now: int) | DoInterrupt(t: nat) | DoExit(retval: int) | DoJoin(u: nat)
    | DoCreate(joinable: bool, stackOk: bool, condOk: bool)
    | DoUsleep(timeout: Option<int>)
    | DoCondWait(c: CondId, timeout: Option<int>) | DoSignal(c: CondId, broadcast: bool)
    | DoLock(m: nat) | DoUnlock(m: nat) | DoTrylock(m: nat)
    | DoCondNew | DoMutexNew | DoCondDestroy(c: CondId) | DoMutexDestroy(m: nat)
    | DoResume | DoIdle(fired: Fired, now: int)

  /** Callers name only objects that exist, and keep off termination variables.  What
      `epoll_wait` reports are descriptors that it was asked to watch. */
  ghost predicate Enabled(s: State, step: Step) {
    var at := Get(s, s.cur).at;
    match step
    case DoResume => !at.InUser? && !at.InIdle?
    case DoIdle(fired, now) =>
      && at.InIdle? && s.activeCount > 0 && Distinct(fired)
      && forall i :: 0 <= i < |fired| ==> Events(Tally(AllPds(s.ioQ), fired[i].0)) != {}
    case DoPoll(pds, timeout, added) => at.InUser? && (added == Ok ==> forall i :: 0 <= i < |pds| ==> ValidEntry(pds[i]))
    case DoInterrupt(t) => at.InUser? && t in s.threads
    case DoJoin(u) => at.InUser? && u in s.threads
    case DoCondWait(c, timeout) => at.InUser? && c in s.conds && c.User?
    case DoSignal(c, broadcast) => at.InUser? && c in s.conds && c.User?
    case DoCondDestroy(c) => at.InUser? && c in s.conds && c.User?
    case DoLock(m) => at.InUser? && m in s.mutexes
    case DoUnlock(m) => at.InUser? && m in s.mutexes
    case DoTrylock(m) => at.InUser? && m in s.mutexes
    case DoMutexDestroy(m) => at.InUser? && m in s.mutexes
    case _ => at.InUser?
  }

  /** The second half of a blocking call. */
  function Resume(s: State): Result {
    match Get(s, s.cur).at
    case InPoll(ready) => PollDone(s, ready)
    case InSleep => SleepDone(s)
    case InCond(c) => CondDone(s, c)
    case InLock(m) => if m in s.mutexes then LockDone(s, m) else Return(s, Fail(EINVAL))
    case InExit => ExitDone(s)
    case _ => Return(s, Zero)
  }

  ghost function Do(s: State, step: Step): Result
    requires Enabled(s, step)
  {
    match step
    case DoPoll(pds, timeout, added) => Poll(s, pds, timeout, added)
    case DoYield(now) => Yield(s, now)
    case DoInterrupt(t) => Interrupt(s, t)
    case DoExit(retval) => Exit(s, retval)
    case DoJoin(u) => Join(s, u)
    case DoCreate(joinable, stackOk, condOk) => Create(s, joinable, stackOk, condOk)
    case DoUsleep(timeout) => Usleep(s, timeout)
    case DoCondWait(c, timeout) => CondWait(s, c, timeout)
    case DoSignal(c, broadcast) => Done(Signal(s, c, broadcast), Zero)
    case DoLock(m) => Lock(s, m)
    case DoUnlock(m) => Unlock(s, m)
    case DoTrylock(m) => Trylock(s, m)
    case DoCondNew => CondNew(s)
    case DoMutexNew => MutexNew(s)
    case DoCondDestroy(c) => CondDestroy(s, c)
    case DoMutexDestroy(m) => MutexDestroy(s, m)
    case DoResume => Resume(s)
    case DoIdle(fired, now) => IdleTurn(s, fired, now)
  }

  /** After `st_init`: the primordial thread 1 runs, the idle thread 0 is ready. */
  const INIT := State(
    1, 0,
    map[0 := NOBODY.(state := RUNNABLE, at := InIdle), 1 := NOBODY.(at := InUser, primordial := true)], 2,
    [], [], [], [], map[], map[], [], 0, 1, 0)
}
