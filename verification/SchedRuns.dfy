/** Whole steps and whole runs of the scheduler. */
module SchedRuns {
  import opened Basics
  import opened HeapModel
  import opened Epoll
  import opened SchedQueues
  import opened SchedModel
  import opened SchedInvariant

  // ---- waking several threads ----

  /** r is s with exactly the threads ts made runnable, queued in that order. */
  ghost predicate Woken(s: State, r: State, ts: seq<nat>) {
    && r == s.(threads := r.threads, runQ := s.runQ + ts, sleepQ := r.sleepQ)
    && r.threads.Keys == s.threads.Keys
    && forall t :: t in s.threads ==>
         r.threads[t] == if t in ts then s.threads[t].(state := RUNNABLE, onSleepQ := false) else s.threads[t]
  }

  ghost predicate Wakeable(s: State, t: nat) {
    t in s.threads && Readied(s, t, s.threads[t].(state := RUNNABLE, onSleepQ := false))
  }

  lemma WakeableAfter(s: State, m: State, ts: seq<nat>, t: nat)
    requires Woken(s, m, ts) && t !in ts && Wakeable(s, t) && forall u :: u in ts ==> Wakeable(s, u)
    ensures Wakeable(m, t) && m.threads[t] == s.threads[t]
  {
    var o := s.threads[t];
    if o.at.InCond? && o.at.c.Term? {
      assert o.at.c.t in ts ==> Wakeable(s, o.at.c.t);
      assert Get(s, o.at.c.t).state == ZOMBIE ==> Get(m, o.at.c.t).state == ZOMBIE;
    }
  }

  lemma WokenMore(s: State, m: State, ts: seq<nat>, t: nat, r: State)
    requires Woken(s, m, ts) && t in s.threads && t !in ts && m.threads[t] == s.threads[t] && r == Wake(m, t)
    ensures Woken(s, r, ts + [t])
  {
    assert m.runQ + [t] == s.runQ + (ts + [t]);
  }

  lemma WakeKeeps(s: State, run: Option<nat>, pending: Option<nat>, t: nat, r: State)
    requires Core(s, run, pending) && Wakeable(s, t) && r == Wake(s, t)
    ensures Core(r, run, pending)
  {
    ReadyKeeps(s, run, pending, t, s.threads[t].(state := RUNNABLE, onSleepQ := false), false, r);
  }

  lemma {:induction false} WakeAllKeeps(s: State, run: Option<nat>, pending: Option<nat>, ts: seq<nat>)
    requires Core(s, run, pending) && NoDup(ts) && forall t :: t in ts ==> Wakeable(s, t)
    ensures Core(WakeAll(s, ts), run, pending) && Woken(s, WakeAll(s, ts), ts)
  {
    hide ShapeOk, RunOk, ZombieOk, IoOk, HeapOk, CondOk, MutexOk, JoinOk, StackOk, CountOk;
    if ts != [] {
      var n := |ts| - 1;
      assert ts == ts[..n] + [ts[n]];
      assert ts[n] !in ts[..n];
      WakeAllKeeps(s, run, pending, ts[..n]);
      var m := WakeAll(s, ts[..n]);
      WakeableAfter(s, m, ts[..n], ts[n]);
      WakeKeeps(m, run, pending, ts[n], WakeAll(s, ts));
      WokenMore(s, m, ts[..n], ts[n], WakeAll(s, ts));
    }
  }

  lemma {:induction false} WaitingIs(s: State, q: seq<nat>, st: TState)
    ensures forall t :: t in Waiting(s, q, st) <==> t in q && Get(s, t).state == st
    ensures NoDup(q) ==> NoDup(Waiting(s, q, st))
  {
    if q != [] {
      var n := |q| - 1;
      WaitingIs(s, q[..n], st);
      assert q == q[..n] + [q[n]];
      if NoDup(q) { assert NoDup(q[..n]) && q[n] !in q[..n]; }
    }
  }

  /** A signal wakes exactly the first waiter still in COND_WAIT and a broadcast exactly
      all of them, in the order of the wait queue. */
  lemma SignalKeeps(s: State, run: Option<nat>, pending: Option<nat>, c: CondId, broadcast: bool)
    requires Core(s, run, pending) && c in s.conds && (c.Term? ==> Get(s, c.t).state == ZOMBIE)
    ensures Core(Signal(s, c, broadcast), run, pending)
    ensures Woken(s, Signal(s, c, broadcast), Signalled(s, c, broadcast))
  {
    var ts := Signalled(s, c, broadcast);
    WaitingIs(s, s.conds[c], COND_WAIT);
    forall t | t in ts
      ensures Wakeable(s, t)
    {
      assert t in Waiting(s, s.conds[c], COND_WAIT);
      assert s.threads[t].at == InCond(c) && Fits(s.threads[t], t == s.idle, run == Some(t));
    }
    WakeAllKeeps(s, run, pending, ts);
  }

  // ---- the clock ----

  /** The sleepers that `_st_vp_check_clock` takes off the heap, in order, and the rest. */
  function Popped<T>(h: Image<T>, now: int): Image<T>
    decreases |h|
  {
    if h == [] || h[0].due > now then [] else [h[0]] + Popped(Delete(h, 1), now)
  }

  function Left<T>(h: Image<T>, now: int): Image<T>
    decreases |h|
  {
    if h == [] || h[0].due > now then h else Left(Delete(h, 1), now)
  }

  lemma AddBack<T>(h: Image<T>, g: Image<T>, p: Image<T>, l: Image<T>)
    requires h != [] && multiset(g) == multiset(h) - multiset{h[0]} && multiset(p) + multiset(l) == multiset(g)
    ensures multiset([h[0]] + p) + multiset(l) == multiset(h)
  {
    assert h[0] in multiset(h);
    assert multiset([h[0]] + p) == multiset{h[0]} + multiset(p);
    assert multiset(h) == multiset{h[0]} + (multiset(h) - multiset{h[0]});
  }

  /** Every sleeper is either taken or left. */
  lemma {:induction false} PoppedContents<T>(h: Image<T>, now: int)
    requires Ordered(h)
    ensures Ordered(Left(h, now)) && multiset(Popped(h, now)) + multiset(Left(h, now)) == multiset(h)
    decreases |h|
  {
    if h != [] && h[0].due <= now {
      var g := Delete(h, 1);
      DeleteCorrect(h, 1);
      PoppedContents(g, now);
      AddBack(h, g, Popped(g, now), Left(g, now));
    }
  }

  lemma MinimumOf<T>(h: Image<T>, x: Sleeper<T>)
    requires Ordered(h) && x in multiset(h)
    ensures h[0].due <= x.due
  {
    var k :| 0 <= k < |h| && h[k] == x;
    RootIsMinimum(h, k + 1);
  }

  /** Exactly the sleepers due by `now` are taken. */
  lemma {:induction false} PoppedAreDue<T>(h: Image<T>, now: int)
    requires Ordered(h)
    ensures forall x :: x in multiset(Popped(h, now)) ==> x.due <= now
    ensures forall x :: x in multiset(Left(h, now)) ==> x.due > now
    decreases |h|
  {
    if h == [] || h[0].due > now {
      forall x | x in multiset(h)
        ensures x.due > now
      {
        MinimumOf(h, x);
      }
    } else {
      DeleteCorrect(h, 1);
      PoppedAreDue(Delete(h, 1), now);
      assert Popped(h, now) == [h[0]] + Popped(Delete(h, 1), now);
    }
  }

  lemma PoppedFrom<T>(h: Image<T>, now: int, x: Sleeper<T>)
    requires Ordered(h) && x in Popped(h, now)
    ensures x in multiset(h)
  {
    PoppedContents(h, now);
    assert x in multiset(Popped(h, now));
  }

  /** The earliest due are taken first. */
  lemma {:induction false} PoppedInOrder<T>(h: Image<T>, now: int)
    requires Ordered(h)
    ensures forall i, j :: 0 <= i < j < |Popped(h, now)| ==> Popped(h, now)[i].due <= Popped(h, now)[j].due
    decreases |h|
  {
    hide Ordered, Delete;
    if h != [] && h[0].due <= now {
      var g := Delete(h, 1);
      var p := Popped(g, now);
      DeleteCorrect(h, 1);
      PoppedInOrder(g, now);
      forall i | 0 <= i < |p|
        ensures h[0].due <= p[i].due
      {
        PoppedFrom(g, now, p[i]);
        MinimumOf(h, p[i]);
      }
      assert Popped(h, now) == [h[0]] + p;
    }
  }

  /** The names in the order in which they end up at the head of the run queue. */
  function Backwards(p: Image<nat>): seq<nat> {
    if p == [] then [] else Backwards(p[1..]) + [p[0].who]
  }

  /** r is s with exactly the threads of p awake, those in COND_WAIT flagged as timed out. */
  ghost predicate Expired(s: State, r: State, p: Image<nat>) {
    && r == s.(threads := r.threads, runQ := Backwards(p) + s.runQ, sleepQ := r.sleepQ)
    && r.threads.Keys == s.threads.Keys
    && forall t :: t in s.threads ==>
         r.threads[t] == if OnHeap(p, t)
                         then s.threads[t].(state := RUNNABLE, onSleepQ := false, timedOut := s.threads[t].state == COND_WAIT)
                         else s.threads[t]
  }

  /** The root is a waiting thread that has not timed out yet. */
  lemma RootWaits(s: State, run: Option<nat>, t: nat)
    requires ShapeOk(s, run) && HeapOk(s) && s.sleepQ != [] && t == s.sleepQ[0].who
    ensures t in s.threads && t != s.idle && s.threads[t].onSleepQ && !s.threads[t].timedOut
    ensures s.threads[t].state == IO_WAIT || s.threads[t].state == COND_WAIT || s.threads[t].state == SLEEPING
    ensures IndexOf(s.sleepQ, t) == 1
  {
    assert OnHeap(s.sleepQ, t);
    assert Fits(s.threads[t], t == s.idle, run == Some(t));
  }

  lemma ExpireOneKeeps(s: State, run: Option<nat>, r: State)
    requires Core(s, run, None) && s.sleepQ != [] && r == ExpireOne(s)
    ensures Core(r, run, None) && Expired(s, r, s.sleepQ[..1]) && !OnHeap(r.sleepQ, s.sleepQ[0].who)
  {
    var t := s.sleepQ[0].who;
    RootWaits(s, run, t);
    HeapDel(s.sleepQ, 1);
    ExpireOneExpires(s, r);
    ExpireOneCore(s, run, r);
  }

  lemma ExpireOneCore(s: State, run: Option<nat>, r: State)
    requires Core(s, run, None) && s.sleepQ != [] && r == ExpireOne(s)
    ensures Core(r, run, None)
  {
    var t := s.sleepQ[0].who;
    RootWaits(s, run, t);
    assert Fits(s.threads[t], t == s.idle, run == Some(t));
    hide RunOk, ZombieOk, IoOk, HeapOk, CondOk, MutexOk, JoinOk, StackOk, CountOk, Delete;
    var h := s.threads[t].(state := RUNNABLE, onSleepQ := false, timedOut := s.threads[t].state == COND_WAIT);
    ReadyKeeps(s, run, None, t, h, true, r);
  }

  lemma ExpireOneExpires(s: State, r: State)
    requires s.sleepQ != [] && r == ExpireOne(s) && s.sleepQ[0].who in s.threads && !s.threads[s.sleepQ[0].who].timedOut
    ensures Expired(s, r, s.sleepQ[..1])
  {
    hide Delete;
    assert s.sleepQ[..1] == [s.sleepQ[0]];
    OneBackwards(s.sleepQ[0]);
  }

  lemma OneBackwards(x: Sleeper<nat>)
    ensures Backwards([x]) == [x.who] && forall u :: OnHeap([x], u) <==> u == x.who
  {
    assert [x][1..] == [] && [x][0].who == x.who;
  }

  lemma {:induction false} PoppedOnHeap(h: Image<nat>, now: int, t: nat)
    requires Ordered(h) && OnHeap(Popped(h, now), t)
    ensures OnHeap(h, t)
  {
    PoppedContents(h, now);
    var i :| 0 <= i < |Popped(h, now)| && Popped(h, now)[i].who == t;
    assert Popped(h, now)[i] in multiset(Popped(h, now));
    assert Popped(h, now)[i] in multiset(h);
  }

  lemma ExpiredTwice(s: State, m: State, r: State, x: Sleeper<nat>, p: Image<nat>)
    requires Expired(s, m, [x]) && Expired(m, r, p) && !OnHeap(p, x.who)
    ensures Expired(s, r, [x] + p)
  {
    assert ([x] + p)[1..] == p && [x][1..] == [];
    assert Backwards([x]) == Backwards([x][1..]) + [x.who] == [x.who];
    assert Backwards([x] + p) == Backwards(p) + [x.who];
    assert Backwards([x] + p) + s.runQ == Backwards(p) + ([x.who] + s.runQ);
    forall t
      ensures OnHeap([x] + p, t) <==> t == x.who || OnHeap(p, t)
      ensures OnHeap([x], t) <==> t == x.who
    {
      assert [x][0].who == x.who && ([x] + p)[0].who == x.who;
      if OnHeap(p, t) { var i :| 0 <= i < |p| && p[i].who == t; assert ([x] + p)[i + 1].who == t; }
    }
  }

  lemma HeapIsOrdered(s: State, run: Option<nat>)
    requires Core(s, run, None)
    ensures Ordered(s.sleepQ)
  {
  }

  lemma {:induction false} ExpireKeeps(s: State, run: Option<nat>, now: int, r: State)
    requires Core(s, run, None) && r == Expire(s, now)
    ensures Core(r, run, None) && Expired(s, r, Popped(s.sleepQ, now)) && r.sleepQ == Left(s.sleepQ, now)
    decreases |s.sleepQ|
  {
    hide Core, Insert, Delete;
    if s.sleepQ == [] || s.sleepQ[0].due > now {
      assert Backwards([]) + s.runQ == s.runQ;
    } else {
      var m := ExpireOne(s);
      var x := s.sleepQ[0];
      ExpireOneKeeps(s, run, m);
      ExpireKeeps(m, run, now, r);
      HeapIsOrdered(m, run);
      if OnHeap(Popped(m.sleepQ, now), x.who) { PoppedOnHeap(m.sleepQ, now, x.who); }
      assert s.sleepQ[..1] == [x];
      ExpiredTwice(s, m, r, x, Popped(m.sleepQ, now));
    }
  }

  /** `_st_vp_check_clock` */
  lemma CheckClockKeeps(s: State, run: Option<nat>, now: int, r: State)
    requires Core(s, run, None) && r == CheckClock(s, now)
    ensures Core(r, run, None) && Expired(s.(lastClock := now), r, Popped(s.sleepQ, now)) && r.sleepQ == Left(s.sleepQ, now)
  {
    var c := s.(lastClock := now);
    assert Core(c, run, None) by { ClockIsFree(s, run, c); }
    ExpireKeeps(c, run, now, r);
  }

  /** The clock may change freely, and the I/O queue to another order of its threads. */
  ghost predicate AlikeButIo(s: State, c: State) {
    && c == s.(ioQ := c.ioQ, lastClock := c.lastClock)
    && NoDup(Threads(c.ioQ)) && forall t :: t in Threads(c.ioQ) <==> t in Threads(s.ioQ)
  }

  lemma AlikeLists(s: State, run: Option<nat>, c: State)
    requires ShapeOk(s, run) && RunOk(s) && ZombieOk(s) && IoOk(s) && HeapOk(s) && StackOk(s) && CountOk(s) && AlikeButIo(s, c)
    ensures ShapeOk(c, run) && RunOk(c) && ZombieOk(c) && IoOk(c) && HeapOk(c) && StackOk(c) && CountOk(c)
  {
    assert Active(c) == Active(s);
  }

  lemma AlikeWaits(s: State, c: State)
    requires CondOk(s) && MutexOk(s, None) && AlikeButIo(s, c)
    ensures CondOk(c) && MutexOk(c, None)
  {
    hide NoDup, Threads;
    forall t | t in c.threads && c.threads[t].at.InLock?
      ensures LockerOk(c, c.threads[t], t, None)
    {
      assert LockerOk(s, s.threads[t], t, None);
    }
  }

  lemma AlikeJoins(s: State, c: State)
    requires JoinOk(s, None) && AlikeButIo(s, c)
    ensures JoinOk(c, None)
  {
    hide NoDup, Threads;
    forall t | t in c.threads && c.threads[t].at.InCond? && c.threads[t].at.c.Term?
      ensures JoinerOk(c, c.threads[t], None)
    {
      assert JoinerOk(s, s.threads[t], None);
    }
  }

  lemma AlikeIsCore(s: State, run: Option<nat>, c: State)
    requires Core(s, run, None) && AlikeButIo(s, c)
    ensures Core(c, run, None)
  {
    hide ShapeOk, RunOk, ZombieOk, IoOk, HeapOk, CondOk, MutexOk, JoinOk, StackOk, CountOk, AlikeButIo;
    AlikeLists(s, run, c);
    AlikeWaits(s, c);
    AlikeJoins(s, c);
  }

  lemma ClockIsFree(s: State, run: Option<nat>, c: State)
    requires Core(s, run, None) && c == s.(lastClock := c.lastClock)
    ensures Core(c, run, None)
  {
    assert IoOk(s);
    AlikeIsCore(s, run, c);
  }

  // ---- dispatch ----

  ghost predicate IsSplit(ts: seq<nat>, ms: seq<nat>, ks: seq<nat>) {
    && (forall t :: t in ts <==> t in ms || t in ks)
    && (NoDup(ts) ==> NoDup(ms) && NoDup(ks) && forall t :: !(t in ms && t in ks))
  }

  lemma SplitOne(ts: seq<nat>, ms: seq<nat>, ks: seq<nat>, t: nat)
    requires IsSplit(ts, ms, ks)
    ensures IsSplit(ts + [t], ms + [t], ks) && IsSplit(ts + [t], ms, ks + [t])
  {
    if NoDup(ts + [t]) {
      LastIsNew(ts, t);
      AppendMoves(ms, t);
      AppendMoves(ks, t);
    }
  }

  /** Dispatch splits the I/O queue: each request goes one way, and none is lost. */
  lemma {:induction false} MovedOrKept(q: seq<Pollq>, rev: int -> set<Ev>)
    ensures IsSplit(Threads(q), Threads(Moved(q, rev)), Threads(Kept(q, rev)))
  {
    if q != [] {
      var n := |q| - 1;
      MovedOrKept(q[..n], rev);
      var p := q[n].(pds := Reported(q[n].pds, rev));
      var m, k := Moved(q[..n], rev), Kept(q[..n], rev);
      ThreadsAppend(m, p);
      ThreadsAppend(k, p);
      SplitOne(Threads(q[..n]), Threads(m), Threads(k), p.thread);
      assert m + [] == m && k + [] == k;
    }
  }

  /** r is s with exactly the requests `moved` handed to their threads, in that order. */
  ghost predicate Delivered(s: State, r: State, moved: seq<Pollq>) {
    && r == s.(threads := r.threads, runQ := s.runQ + Threads(moved), sleepQ := r.sleepQ)
    && r.threads.Keys == s.threads.Keys
    && (forall i :: 0 <= i < |moved| ==>
          moved[i].thread in s.threads &&
          r.threads[moved[i].thread] ==
            s.threads[moved[i].thread].(state := RUNNABLE, onSleepQ := false, at := InPoll(Some(moved[i].pds))))
    && (forall t :: t in s.threads && t !in Threads(moved) ==> r.threads[t] == s.threads[t])
  }

  /** One request is handed to its thread; q is the I/O queue without it. */
  lemma DeliverOne(s: State, run: Option<nat>, p: Pollq, q: seq<Pollq>, r: State)
    requires Core(s, run, None) && p.thread in s.threads && s.threads[p.thread].state == IO_WAIT
    requires Moves(Threads(s.ioQ), Threads(q), p.thread, false)
    requires r == WakeAs(s, p.thread, s.threads[p.thread].(at := InPoll(Some(p.pds)))).(ioQ := q)
    ensures Core(r, run, None)
  {
    var t := p.thread;
    var o := s.threads[t];
    var h := o.(state := RUNNABLE, onSleepQ := false, at := InPoll(Some(p.pds)));
    assert Fits(o, t == s.idle, run == Some(t));
    AppendMoves(s.runQ, t);
    HeapLeave(s, r, t, h);
    ReadyTurn(s, run, None, t, h, r);
  }

  lemma ThreadsAppend(q: seq<Pollq>, p: Pollq)
    ensures Threads(q + [p]) == Threads(q) + [p.thread]
  {
    assert (q + [p])[..|q|] == q;
  }

  lemma DeliveredMore(s: State, m: State, moved: seq<Pollq>, p: Pollq, r: State)
    requires Delivered(s, m, moved) && p.thread in s.threads && p.thread !in Threads(moved)
    requires r == WakeAs(m, p.thread, s.threads[p.thread].(at := InPoll(Some(p.pds))))
    ensures Delivered(s, r, moved + [p])
  {
    ThreadsAppend(moved, p);
    ThreadsAt(moved);
    assert m.runQ + [p.thread] == s.runQ + Threads(moved + [p]);
    forall i | 0 <= i < |moved|
      ensures moved[i].thread != p.thread
    {
      assert Threads(moved)[i] == moved[i].thread;
    }
  }

  lemma {:induction false} DeliverKeeps(s: State, run: Option<nat>, moved: seq<Pollq>, q: seq<Pollq>)
    requires Core(s, run, None) && NoDup(Threads(moved)) && NoDup(Threads(q))
    requires forall t :: t in Threads(moved) ==> t in s.threads && s.threads[t].state == IO_WAIT
    requires forall t :: t in Threads(s.ioQ) <==> t in Threads(moved) || t in Threads(q)
    requires forall t :: !(t in Threads(moved) && t in Threads(q))
    ensures Core(Deliver(s, moved).(ioQ := q), run, None) && Delivered(s, Deliver(s, moved), moved)
  {
    hide ShapeOk, RunOk, ZombieOk, IoOk, HeapOk, CondOk, MutexOk, JoinOk, StackOk, CountOk;
    if moved == [] {
      var r := s.(ioQ := q);
      assert s.runQ + Threads(moved) == s.runQ;
      AlikeIsCore(s, run, r);
    } else {
      var n := |moved| - 1;
      var p, front := moved[n], moved[..n];
      var q' := q + [p];
      assert moved == front + [p];
      ThreadsAppend(front, p);
      LastIsNew(Threads(front), p.thread);
      ThreadsAppend(q, p);
      AppendMoves(Threads(q), p.thread);
      DeliverKeeps(s, run, front, q');
      var m := Deliver(s, front);
      DeliverOne(m.(ioQ := q'), run, p, q, Deliver(s, moved).(ioQ := q));
      DeliveredMore(s, m, front, p, Deliver(s, moved));
    }
  }

  /** When the idle thread dispatches, every request on the I/O queue belongs to a thread
      in IO_WAIT, whatever timeouts and interrupts came before. */
  lemma PollersWait(s: State, t: nat)
    requires Inv(s) && s.runQ == [] && s.cur == s.idle && t in Threads(s.ioQ)
    ensures t in s.threads && s.threads[t].state == IO_WAIT
  {
    assert Fits(s.threads[t], t == s.idle, t == s.cur);
  }

  /** Dispatch hands over exactly the requests with something to report, in the order of
      the I/O queue, and leaves the others in order. */
  lemma DispatchKeeps(s: State, fired: Fired, r: State)
    requires Inv(s) && s.runQ == [] && s.cur == s.idle && r == Dispatch(s, fired)
    ensures Core(r, Some(s.cur), None) && r.cur == s.cur
    ensures fired != [] ==>
              var rev := Revents(s, fired);
              r.ioQ == Kept(s.ioQ, rev) && Delivered(s, r.(ioQ := s.ioQ), Moved(s.ioQ, rev))
  {
    if fired != [] {
      var rev := Revents(s, fired);
      MovedOrKept(s.ioQ, rev);
      forall t | t in Threads(s.ioQ)
        ensures t in s.threads && s.threads[t].state == IO_WAIT
      {
        PollersWait(s, t);
      }
      DeliverKeeps(s, Some(s.cur), Moved(s.ioQ, rev), Kept(s.ioQ, rev));
      assert Deliver(s, Moved(s.ioQ, rev)).ioQ == s.ioQ;
      assert r.(ioQ := s.ioQ) == Deliver(s, Moved(s.ioQ, rev));
    }
  }
}
