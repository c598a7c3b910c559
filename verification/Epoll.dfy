/** The epoll layer of event.c: reference counts per descriptor, the interest list that
    the kernel holds, and the counter of registered descriptors.  A ghost sequence names
    the poll entries of all poll requests on the I/O queue. */
module Epoll {

  /** Bits of `events` and `revents`; Other stands for every bit not named here. */
  datatype Ev = In | Pri | Out | Err | Hup | Other

  datatype PollFd = PollFd(fd: int, events: set<Ev>, revents: set<Ev>)

  datatype FdData = FdData(rd: int, wr: int, ex: int, revents: set<Ev>)

  const NO_DATA := FdData(0, 0, 0, {})

  /** `_ST_EPOLL_EVENTS` */
  function Events(d: FdData): set<Ev> {
    (if d.rd != 0 then {In} else {}) + (if d.wr != 0 then {Out} else {}) + (if d.ex != 0 then {Pri} else {})
  }

  function Has(events: set<Ev>, e: Ev): int { if e in events then 1 else 0 }

  /** The counts of d after n more entries with these events. */
  function Bump(d: FdData, events: set<Ev>, n: int): FdData {
    d.(rd := d.rd + n * Has(events, In), wr := d.wr + n * Has(events, Out), ex := d.ex + n * Has(events, Pri))
  }

  predicate ValidEntry(pd: PollFd) {
    pd.fd >= 0 && pd.events != {} && pd.events <= {In, Out, Pri}
  }

  /** How many of the entries wait for each kind of event on fd. */
  function Tally(pds: seq<PollFd>, fd: int): FdData {
    if pds == [] then NO_DATA
    else
      var pd, before := pds[|pds| - 1], Tally(pds[..|pds| - 1], fd);
      if pd.fd == fd then Bump(before, pd.events, 1) else before
  }

  function Plus(a: FdData, b: FdData): FdData {
    FdData(a.rd + b.rd, a.wr + b.wr, a.ex + b.ex, a.revents)
  }

  lemma BumpPlus(a: FdData, b: FdData, events: set<Ev>)
    ensures Plus(a, Bump(b, events, 1)) == Bump(Plus(a, b), events, 1)
  {
  }

  lemma TallyNone(a: FdData, fd: int)
    ensures Plus(a, Tally([], fd)) == a
  {
  }

  lemma {:induction false} TallyConcat(a: seq<PollFd>, b: seq<PollFd>, fd: int)
    ensures Tally(a + b, fd) == Plus(Tally(a, fd), Tally(b, fd))
  {
    hide Bump, Plus;
    if b == [] {
      assert a + b == a;
      TallyNone(Tally(a, fd), fd);
    } else {
      var n := |b| - 1;
      TallyConcat(a, b[..n], fd);
      assert (a + b)[..|a + b| - 1] == a + b[..n] && (a + b)[|a + b| - 1] == b[n];
      BumpPlus(Tally(a, fd), Tally(b[..n], fd), b[n].events);
    }
  }

  lemma {:induction false} TallyBounds(pds: seq<PollFd>, fd: int)
    ensures var d := Tally(pds, fd); d.rd >= 0 && d.wr >= 0 && d.ex >= 0 && d.revents == {}
  {
    if pds != [] {
      TallyBounds(pds[..|pds| - 1], fd);
    }
  }

  /** An fd has a count exactly when some valid entry names it. */
  lemma {:induction false} TallyNames(pds: seq<PollFd>, fd: int)
    requires forall i :: 0 <= i < |pds| ==> ValidEntry(pds[i])
    ensures Events(Tally(pds, fd)) != {} <==> exists i :: 0 <= i < |pds| && pds[i].fd == fd
  {
    if pds != [] {
      var n := |pds| - 1;
      TallyNames(pds[..n], fd);
      TallyBounds(pds[..n], fd);
      if pds[n].fd == fd {
        assert In in pds[n].events || Out in pds[n].events || Pri in pds[n].events;
      } else {
        assert forall i :: 0 <= i < n ==> pds[..n][i] == pds[i];
      }
    }
  }

  /** The counts ask for an event exactly if some entry asks for it. */
  lemma {:induction false} TallyAsks(pds: seq<PollFd>, fd: int, e: Ev)
    ensures e in Events(Tally(pds, fd)) <==> e in {In, Out, Pri} && exists i :: 0 <= i < |pds| && pds[i].fd == fd && e in pds[i].events
  {
    if pds != [] {
      var n := |pds| - 1;
      TallyAsks(pds[..n], fd, e);
      TallyBounds(pds[..n], fd);
      if i :| 0 <= i < |pds| && pds[i].fd == fd && e in pds[i].events {
        if i < n { assert pds[..n][i].fd == fd && e in pds[..n][i].events; }
      }
    }
  }

  lemma {:induction false} TallyAbsent(pds: seq<PollFd>, fd: int)
    requires forall i :: 0 <= i < |pds| ==> pds[i].fd != fd
    ensures Tally(pds, fd) == NO_DATA
  {
    if pds != [] {
      TallyAbsent(pds[..|pds| - 1], fd);
    }
  }

  /** The poll entries that a poll descriptor reports for the fired events of its fd. */
  function Report(pd: PollFd, fired: set<Ev>): PollFd {
    pd.(revents := fired * ((pd.events * {In, Out, Pri}) + {Err, Hup}))
  }

  /** An entry is told of an event exactly if it fired and is one that the entry asked for, or
      an error. */
  lemma ReportHas(pd: PollFd, fired: set<Ev>, e: Ev)
    ensures var r := Report(pd, fired);
            && r.fd == pd.fd && r.events == pd.events
            && (e in r.revents <==> e in fired && (e == Err || e == Hup || (e in pd.events && e in {In, Out, Pri})))
  {
  }

  function Last(pds: seq<PollFd>): PollFd
    requires pds != []
  {
    pds[|pds| - 1]
  }

  function Front(pds: seq<PollFd>): seq<PollFd>
    requires pds != []
  {
    pds[..|pds| - 1]
  }

  lemma TallyOne(rest: seq<PollFd>, pd: PollFd, tail: seq<PollFd>, fd: int)
    ensures Tally(rest + [pd] + tail, fd) ==
            if pd.fd == fd then Bump(Tally(rest + tail, fd), pd.events, 1) else Tally(rest + tail, fd)
  {
    TallyConcat(rest + [pd], tail, fd);
    TallyConcat(rest, tail, fd);
    assert (rest + [pd])[..|rest|] == rest;
  }

  lemma CountsAfterDel(t: seq<FdData>, pd: PollFd, rest: seq<PollFd>, tail: seq<PollFd>)
    requires 0 <= pd.fd < |t|
    requires forall fd :: 0 <= fd < |t| ==> t[fd].(revents := {}) == Tally(rest + [pd] + tail, fd)
    ensures var u := t[pd.fd := Bump(t[pd.fd], pd.events, -1)];
            forall fd :: 0 <= fd < |u| ==> u[fd].(revents := {}) == Tally(rest + tail, fd)
  {
    forall fd | 0 <= fd < |t|
      ensures t[pd.fd := Bump(t[pd.fd], pd.events, -1)][fd].(revents := {}) == Tally(rest + tail, fd)
    {
      TallyOne(rest, pd, tail, fd);
    }
  }

  lemma CountsAfterAdd(t: seq<FdData>, pd: PollFd, before: seq<PollFd>)
    requires 0 <= pd.fd < |t|
    requires forall fd :: 0 <= fd < |t| ==> t[fd].(revents := {}) == Tally(before, fd)
    ensures var u := t[pd.fd := Bump(t[pd.fd], pd.events, 1)];
            forall fd :: 0 <= fd < |u| ==> u[fd].(revents := {}) == Tally(before + [pd], fd)
  {
    assert (before + [pd])[..|before|] == before;
  }

  lemma EventsBefore(pd: PollFd, rest: seq<PollFd>, tail: seq<PollFd>)
    requires ValidEntry(pd)
    ensures Events(Tally(rest + [pd] + tail, pd.fd)) != {}
  {
    TallyOne(rest, pd, tail, pd.fd);
    TallyBounds(rest + tail, pd.fd);
    assert In in pd.events || Out in pd.events || Pri in pd.events;
  }

  /** While the kernel lags for the last entry of [pd] + tail, after deleting pd the others
      ask for no more than before, and for something as long as pd and the last entry
      share the fd. */
  lemma LagAfterDel(pd: PollFd, rest: seq<PollFd>, tail: seq<PollFd>, lag: int)
    requires ValidEntry(pd) && Last([pd] + tail).fd == lag && ValidEntry(Last([pd] + tail))
    ensures tail == [] ==> rest + Front([pd] + tail) == rest + tail
    ensures tail != [] ==>
              var others := Events(Tally(rest + Front([pd] + tail), lag));
              && Last(tail).fd == lag && Events(Tally(rest + Front(tail), lag)) <= others
              && (pd.fd == lag ==> others != {} && Events(Tally(rest + tail, lag)) != {})
  {
    if tail != [] {
      var f := Front(tail);
      assert Last([pd] + tail) == Last(tail);
      assert rest + Front([pd] + tail) == rest + [pd] + f;
      TallyOne(rest, pd, f, lag);
      TallyBounds(rest + f, lag);
      assert rest + tail == rest + f + [Last(tail)] + [];
      if pd.fd == lag {
        EventsBefore(pd, rest, f);
        EventsBefore(Last(tail), rest + f, []);
      }
    }
  }

  /** A poll request on the I/O queue, named by its thread. */
  datatype Pollq = Pollq(thread: nat, pds: seq<PollFd>)

  function AllPds(q: seq<Pollq>): seq<PollFd> {
    if q == [] then [] else AllPds(q[..|q| - 1]) + q[|q| - 1].pds
  }

  lemma AllPdsAdd(q: seq<Pollq>, p: Pollq)
    ensures AllPds(q + [p]) == AllPds(q) + p.pds && AllPds([]) == []
  {
    assert (q + [p])[..|q|] == q;
  }

  lemma Regroup(a: seq<PollFd>, b: seq<PollFd>, c: seq<PollFd>)
    ensures a + (b + c) == a + b + c && a + [] == a
  {
  }

  lemma {:induction false} AllPdsConcat(p: seq<Pollq>, q: seq<Pollq>)
    ensures AllPds(p + q) == AllPds(p) + AllPds(q)
  {
    hide AllPds;
    if q == [] {
      assert p + q == p;
      AllPdsAdd(p, Pollq(0, []));
      Regroup(AllPds(p), [], []);
    } else {
      var n := |q| - 1;
      AllPdsConcat(p, q[..n]);
      assert q[..n] + [q[n]] == q && p + q[..n] + [q[n]] == p + q;
      AllPdsAdd(q[..n], q[n]);
      AllPdsAdd(p + q[..n], q[n]);
      Regroup(AllPds(p), AllPds(q[..n]), q[n].pds);
    }
  }

  /** What `epoll_wait` returns: descriptors, each once, with their events. */
  type Fired = seq<(int, set<Ev>)>

  ghost predicate Distinct(fired: Fired) {
    && (forall i :: 0 <= i < |fired| ==> fired[i].1 != {})
    && (forall i, j :: 0 <= i < j < |fired| ==> fired[i].0 != fired[j].0)
  }

  /** The events that dispatch records for fd: an error counts as everything awaited. */
  function Recorded(fired: Fired, fd: int, awaited: set<Ev>): set<Ev> {
    if fired == [] then {}
    else
      var (f, events) := fired[|fired| - 1];
      if f == fd then (if events * {Err, Hup} != {} then events + awaited else events)
      else Recorded(fired[..|fired| - 1], fd, awaited)
  }

  lemma ErrorIn(events: set<Ev>)
    ensures events * {Err, Hup} != {} <==> Err in events || Hup in events
  {
    if Err in events { assert Err in events * {Err, Hup}; }
    if Hup in events { assert Hup in events * {Err, Hup}; }
    if e :| e in events * {Err, Hup} { assert e == Err || e == Hup; }
  }

  /** An event is recorded for fd exactly if it fired there, or is awaited and an error did. */
  lemma {:induction false} RecordedHas(fired: Fired, fd: int, awaited: set<Ev>, e: Ev)
    requires Distinct(fired)
    ensures e in Recorded(fired, fd, awaited) <==>
              exists i :: 0 <= i < |fired| && fired[i].0 == fd
                && (e in fired[i].1 || (e in awaited && (Err in fired[i].1 || Hup in fired[i].1)))
  {
    if fired != [] {
      var n := |fired| - 1;
      RecordedHas(fired[..n], fd, awaited, e);
      assert forall i :: 0 <= i < n ==> fired[..n][i] == fired[i];
      if fired[n].0 == fd {
        assert forall i :: 0 <= i < n ==> fired[i].0 != fd;
        ErrorIn(fired[n].1);
        assert e in Recorded(fired, fd, awaited) <==> e in fired[n].1 || (e in awaited && (Err in fired[n].1 || Hup in fired[n].1));
      } else if i :| 0 <= i < |fired| && fired[i].0 == fd && (e in fired[i].1 || (e in awaited && (Err in fired[i].1 || Hup in fired[i].1))) {
        assert i < n && fired[..n][i].0 == fd;
      }
    }
  }

  lemma {:induction false} RecordedIff(fired: Fired, fd: int, awaited: set<Ev>)
    requires Distinct(fired)
    ensures Recorded(fired, fd, awaited) != {} <==> exists i :: 0 <= i < |fired| && fired[i].0 == fd
  {
    if fired != [] {
      var n := |fired| - 1;
      RecordedIff(fired[..n], fd, awaited);
      assert fired[n].0 == fd || forall i :: 0 <= i < n ==> fired[..n][i] == fired[i];
    }
  }

  datatype CtlOp = CtlAdd | CtlMod | CtlDel
  datatype Errno = Ok | EINVAL | EEXIST | ENOENT | ENOMEM | EINTR | EDEADLK | ETIME | EPERM | EBUSY

  class EpollSys {
    var fdData: seq<FdData>
    var evtlistCnt: int
    var evtlistSize: int
    var kernel: map<int, set<Ev>>  // what the kernel was asked to watch

    /** The counts are those of `pds`. */
    ghost predicate Counted(pds: seq<PollFd>)
      reads this
    {
      && |fdData| > 0 && evtlistSize > 0 && evtlistCnt == |kernel|
      && (forall i :: 0 <= i < |pds| ==> ValidEntry(pds[i]) && pds[i].fd < |fdData|)
      && (forall fd :: 0 <= fd < |fdData| ==> fdData[fd].(revents := {}) == Tally(pds, fd))
      && (forall fd :: fd in kernel ==> 0 <= fd < |fdData| && kernel[fd] != {})
    }

    function Watched(fd: int): set<Ev>
      reads this
    {
      if fd in kernel then kernel[fd] else {}
    }

    /** The kernel watches fd for what the counts ask; while fd has fired this is put off. */
    ghost predicate InStep(fd: int)
      requires 0 <= fd < |fdData|
      reads this
    {
      if fdData[fd].revents == {} then Watched(fd) == Events(fdData[fd]) else fd in kernel
    }

    /** State during dispatch. */
    ghost predicate Firing(pds: seq<PollFd>)
      reads this
    {
      Counted(pds) && forall fd :: 0 <= fd < |fdData| ==> InStep(fd)
    }

    /** State outside dispatch. */
    ghost predicate Valid(pds: seq<PollFd>)
      reads this
    {
      Firing(pds) && forall fd :: 0 <= fd < |fdData| ==> fdData[fd].revents == {}
    }

    constructor (fdHint: nat)
      requires fdHint > 0
      ensures Valid([])
    {
      fdData := seq(fdHint, _ => NO_DATA);
      evtlistCnt, evtlistSize, kernel := 0, fdHint, map[];
    }

    /** `epoll_ctl`: `room` is false when the kernel has no room for an addition. */
    method EpollCtl(op: CtlOp, fd: int, events: set<Ev>, room: bool) returns (err: Errno)
      modifies this`kernel
      ensures err == match op
                     case CtlAdd => if fd in old(kernel) then EEXIST else if room then Ok else ENOMEM
                     case CtlMod => if fd !in old(kernel) then ENOENT else if room then Ok else ENOMEM
                     case CtlDel => if fd in old(kernel) then Ok else ENOENT
      ensures kernel == if err != Ok then old(kernel)
                        else if op == CtlDel then old(kernel) - {fd}
                        else old(kernel)[fd := events]
    {
      match op {
        case CtlAdd => err := if fd in kernel then EEXIST else if room then Ok else ENOMEM;
        case CtlMod => err := if fd !in kernel then ENOENT else if room then Ok else ENOMEM;
        case CtlDel => err := if fd in kernel then Ok else ENOENT;
      }
      if err == Ok {
        kernel := if op == CtlDel then kernel - {fd} else kernel[fd := events];
      }
    }

    /** Tell the kernel the events that the counts of fd ask for now; a descriptor that the
        kernel does not know is left so. */
    method Sync(fd: int)
      requires 0 <= fd < |fdData| && evtlistCnt == |kernel|
      modifies this`kernel, this`evtlistCnt
      ensures evtlistCnt == |kernel|
      ensures forall f :: f != fd ==> (f in kernel <==> f in old(kernel)) && Watched(f) == old(Watched(f))
      ensures if fd in old(kernel) && Events(fdData[fd]) != {}
              then fd in kernel && kernel[fd] == Events(fdData[fd])
              else fd !in kernel
    {
      var events := Events(fdData[fd]);
      var op := if events != {} then CtlMod else CtlDel;
      var err := EpollCtl(op, fd, events, true);
      assert (old(kernel) - {fd}).Keys == old(kernel).Keys - {fd};
      if err == Ok && op == CtlDel {
        evtlistCnt := evtlistCnt - 1;
      }
    }

    /** After a failed addition of the last of `pds`, the kernel may still watch its fd
        for less than the counts ask: for no less than the other entries ask. */
    ghost predicate Lags(fd: int, others: seq<PollFd>)
      requires 0 <= fd < |fdData|
      reads this
    {
      && fdData[fd].revents == {}
      && Events(Tally(others, fd)) <= Watched(fd) < Events(fdData[fd])
    }

    /** One turn of the loop of `_st_epoll_pollset_del`, at its descriptor alone. */
    method DelEntry(pd: PollFd)
      requires 0 <= pd.fd < |fdData| && evtlistCnt == |kernel|
      modifies this`fdData, this`kernel, this`evtlistCnt
      ensures evtlistCnt == |kernel|
      ensures fdData == old(fdData)[pd.fd := Bump(old(fdData)[pd.fd], pd.events, -1)]
      ensures forall f :: f != pd.fd ==> (f in kernel <==> f in old(kernel)) && Watched(f) == old(Watched(f))
      ensures var d := fdData[pd.fd];
              if Events(d) == old(Events(fdData[pd.fd])) || d.revents != {} || pd.fd !in old(kernel)
              then (pd.fd in kernel <==> pd.fd in old(kernel)) && Watched(pd.fd) == old(Watched(pd.fd))
              else if Events(d) != {} then pd.fd in kernel && kernel[pd.fd] == Events(d)
              else pd.fd !in kernel
    {
      var oldEvents := Events(fdData[pd.fd]);
      fdData := fdData[pd.fd := Bump(fdData[pd.fd], pd.events, -1)];
      if Events(fdData[pd.fd]) != oldEvents && fdData[pd.fd].revents == {} {
        Sync(pd.fd);
      }
    }

    /** The same turn, for the whole table. */
    method DelEntryInStep(pd: PollFd, ghost rest: seq<PollFd>, ghost tail: seq<PollFd>, ghost lag: int)
      requires Counted(rest + [pd] + tail)
      requires forall fd :: 0 <= fd < |fdData| && fd != lag ==> InStep(fd)
      requires 0 <= lag < |fdData| ==>
                 InStep(lag) || (Last([pd] + tail).fd == lag && Lags(lag, rest + Front([pd] + tail)))
      modifies this`fdData, this`kernel, this`evtlistCnt
      ensures Counted(rest + tail)
      ensures |fdData| == |old(fdData)|
      ensures forall fd :: 0 <= fd < |fdData| && fd != lag ==> InStep(fd)
      ensures 0 <= lag < |fdData| ==>
                InStep(lag) || (tail != [] && Last(tail).fd == lag && Lags(lag, rest + Front(tail)))
      ensures forall fd :: 0 <= fd < |fdData| ==> fdData[fd].revents == old(fdData)[fd].revents
    {
      ghost var fd, es := pd.fd, rest + [pd] + tail;
      assert es[|rest|] == pd;
      assert forall i :: 0 <= i < |rest + tail| ==> (rest + tail)[i] in es;
      CountsAfterDel(fdData, pd, rest, tail);
      EventsBefore(pd, rest, tail);
      if 0 <= lag < |fdData| && !InStep(lag) { LagAfterDel(pd, rest, tail, lag); }
      DelEntry(pd);
      forall f | 0 <= f < |fdData| && f != lag
        ensures InStep(f)
      {
        assert old(InStep(f));
      }
      assert 0 <= lag < |fdData| && lag != fd && old(InStep(lag)) ==> InStep(lag);
    }

    /** `_st_epoll_pollset_del`.  The entries left are `rest`; `lag` is the fd whose
        addition failed, or -1. */
    method PollsetDel(pds: seq<PollFd>, ghost rest: seq<PollFd>, ghost lag: int)
      requires Counted(rest + pds)
      requires forall fd :: 0 <= fd < |fdData| && fd != lag ==> InStep(fd)
      requires 0 <= lag < |fdData| ==>
                 pds != [] && Last(pds).fd == lag && Lags(lag, rest + Front(pds))
      modifies this`fdData, this`kernel, this`evtlistCnt
      ensures Firing(rest)
      ensures |fdData| == |old(fdData)|
      ensures forall fd :: 0 <= fd < |fdData| ==> fdData[fd].revents == old(fdData)[fd].revents
    {
      var i := 0;
      while i < |pds|
        invariant 0 <= i <= |pds|
        invariant Counted(rest + pds[i..])
        invariant forall fd :: 0 <= fd < |fdData| && fd != lag ==> InStep(fd)
        invariant 0 <= lag < |fdData| ==> InStep(lag) || (i < |pds| && Last(pds).fd == lag && Lags(lag, rest + Front(pds[i..])))
        invariant |fdData| == |old(fdData)|
        invariant forall fd :: 0 <= fd < |fdData| ==> fdData[fd].revents == old(fdData)[fd].revents
      {
        assert pds[i..] == [pds[i]] + pds[i + 1..];
        assert rest + pds[i..] == rest + [pds[i]] + pds[i + 1..];
        DelEntryInStep(pds[i], rest, pds[i + 1..], lag);
        i := i + 1;
      }
      assert rest + pds[i..] == rest;
    }

    /** `_st_epoll_fd_data_expand`; `grown` is the outcome of the reallocation. */
    method FdDataExpand(maxfd: nat, grown: bool, ghost pds: seq<PollFd>) returns (ok: bool)
      requires Valid(pds)
      modifies this`fdData
      ensures Valid(pds) && ok == grown
      ensures old(fdData) <= fdData && (!ok ==> fdData == old(fdData)) && (ok ==> maxfd < |fdData|)
    {
      var n := |fdData|;
      while maxfd >= n
        invariant n >= |fdData|
        decreases maxfd - n
      {
        n := 2 * n;
      }
      if !grown {
        return false;
      }
      ok := true;
      ghost var was := |fdData|;
      fdData := fdData + seq(n - |fdData|, _ => NO_DATA);
      forall fd | was <= fd < n
        ensures Tally(pds, fd) == NO_DATA
      {
        TallyAbsent(pds, fd);
      }
      forall fd | 0 <= fd < n
        ensures InStep(fd)
      {
        assert fd < was ==> old(InStep(fd));
      }
    }

    /** `_st_epoll_evtlist_expand` */
    method EvtlistExpand(grown: bool)
      requires evtlistSize > 0
      modifies this`evtlistSize
      ensures evtlistSize >= old(evtlistSize)
      ensures if grown then evtlistSize >= evtlistCnt else evtlistSize == old(evtlistSize)
    {
      var n := evtlistSize;
      while evtlistCnt > n
        invariant n >= evtlistSize
        decreases evtlistCnt - n
      {
        n := 2 * n;
      }
      if grown {
        evtlistSize := n;
      }
    }

    /** One turn of the second loop of `_st_epoll_pollset_add`. */
    method AddEntry(pd: PollFd, room: bool) returns (err: Errno)
      requires 0 <= pd.fd < |fdData| && evtlistCnt == |kernel| && evtlistSize > 0
      requires InStep(pd.fd) && fdData[pd.fd].revents == {} && (pd.fd in kernel ==> kernel[pd.fd] != {})
      requires fdData[pd.fd].rd >= 0 && fdData[pd.fd].wr >= 0 && fdData[pd.fd].ex >= 0
      modifies this`fdData, this`kernel, this`evtlistCnt, this`evtlistSize
      ensures evtlistCnt == |kernel| && evtlistSize > 0
      ensures fdData == old(fdData)[pd.fd := Bump(old(fdData)[pd.fd], pd.events, 1)]
      ensures forall f :: f != pd.fd ==> (f in kernel <==> f in old(kernel)) && Watched(f) == old(Watched(f))
      ensures if err == Ok
              then Watched(pd.fd) == Events(fdData[pd.fd]) && (pd.fd in kernel ==> kernel[pd.fd] != {})
              else kernel == old(kernel) && Events(fdData[pd.fd]) != old(Events(fdData[pd.fd]))
      ensures old(Events(fdData[pd.fd])) <= Events(fdData[pd.fd])
      ensures (room ==> err == Ok) && (err == Ok || err == ENOMEM)
    {
      err := Ok;
      var oldEvents := Events(fdData[pd.fd]);
      fdData := fdData[pd.fd := Bump(fdData[pd.fd], pd.events, 1)];
      var events := Events(fdData[pd.fd]);
      if events != oldEvents {
        var op := if oldEvents != {} then CtlMod else CtlAdd;
        err := EpollCtl(op, pd.fd, events, room);
        if err != Ok && (op != CtlAdd || err != EEXIST) {
          return;
        }
        if op == CtlAdd {
          evtlistCnt := evtlistCnt + 1;
          if evtlistCnt > evtlistSize {
            var grown: bool := *;
            EvtlistExpand(grown);
          }
        }
      }
    }

    /** What is known about the table is all there is to know: the queued entries fix it. */
    twostate lemma Determined(pds: seq<PollFd>)
      requires old(Valid(pds)) && Valid(pds) && |old(fdData)| <= |fdData|
      ensures old(fdData) <= fdData && kernel == old(kernel) && evtlistCnt == old(evtlistCnt)
    {
      forall fd | 0 <= fd < |fdData|
        ensures fd < |old(fdData)| ==> old(fdData)[fd] == fdData[fd]
        ensures Watched(fd) == old(Watched(fd))
      {
        assert InStep(fd);
        if fd < |old(fdData)| {
          assert old(InStep(fd));
        } else {
          TallyAbsent(pds, fd);
        }
      }
      forall fd
        ensures fd in kernel <==> fd in old(kernel)
        ensures fd in kernel ==> kernel[fd] == old(kernel)[fd]
      {
        if 0 <= fd < |fdData| { assert Watched(fd) == old(Watched(fd)); }
      }
    }

    /** `_st_epoll_pollset_add`.  `memOk` and `ctlOk` are the outcomes of the allocations and
        of the kernel calls.  A failing call leaves everything as it was, but for room. */
    method PollsetAdd(pds: seq<PollFd>, memOk: nat -> bool, ctlOk: nat -> bool, ghost queued: seq<PollFd>)
        returns (err: Errno)
      requires Valid(queued)
      modifies this
      ensures err == Ok ==> Valid(queued + pds)
      ensures err != Ok ==> Valid(queued) && old(fdData) <= fdData && kernel == old(kernel) && evtlistCnt == old(evtlistCnt)
      ensures err == Ok || err == EINVAL || err == ENOMEM
      ensures err == ENOMEM ==> exists i :: 0 <= i < |pds| && !(memOk(i) && ctlOk(i))
      ensures err == EINVAL ==> exists i :: 0 <= i < |pds| && !ValidEntry(pds[i])
      ensures (exists i :: 0 <= i < |pds| && !ValidEntry(pds[i])) ==> err != Ok
      ensures (forall i :: 0 <= i < |pds| ==> ValidEntry(pds[i]) && memOk(i) && ctlOk(i)) ==> err == Ok
    {
      hide Firing, Counted;
      err := Prepare(pds, memOk, queued);
      if err == Ok {
        err := AddOrUndo(pds, ctlOk, queued);
      }
    }

    /** The first loop of `_st_epoll_pollset_add`: check the entries, and grow the table. */
    method Prepare(pds: seq<PollFd>, memOk: nat -> bool, ghost queued: seq<PollFd>) returns (err: Errno)
      requires Valid(queued)
      modifies this`fdData
      ensures Valid(queued) && old(fdData) <= fdData && (err == Ok || err == EINVAL || err == ENOMEM)
      ensures err == Ok ==> forall i :: 0 <= i < |pds| ==> ValidEntry(pds[i]) && pds[i].fd < |fdData|
      ensures err == ENOMEM ==> exists i :: 0 <= i < |pds| && !memOk(i)
      ensures err == EINVAL ==> exists i :: 0 <= i < |pds| && !ValidEntry(pds[i])
      ensures (forall i :: 0 <= i < |pds| ==> ValidEntry(pds[i]) && memOk(i)) ==> err == Ok
    {
      hide Valid;
      var i := 0;
      while i < |pds|
        invariant 0 <= i <= |pds| && Valid(queued) && old(fdData) <= fdData
        invariant forall j :: 0 <= j < i ==> ValidEntry(pds[j]) && pds[j].fd < |fdData|
      {
        if !ValidEntry(pds[i]) {
          return EINVAL;
        }
        if pds[i].fd >= |fdData| {
          var ok := FdDataExpand(pds[i].fd, memOk(i), queued);
          if !ok {
            return ENOMEM;
          }
        }
        i := i + 1;
      }
      err := Ok;
    }

    /** The second loop, and the deletion that follows when it fails. */
    method AddOrUndo(pds: seq<PollFd>, ctlOk: nat -> bool, ghost queued: seq<PollFd>) returns (err: Errno)
      requires Valid(queued) && forall j :: 0 <= j < |pds| ==> ValidEntry(pds[j]) && pds[j].fd < |fdData|
      modifies this
      ensures err == Ok ==> Valid(queued + pds)
      ensures err != Ok ==> Valid(queued) && old(fdData) <= fdData && kernel == old(kernel) && evtlistCnt == old(evtlistCnt)
      ensures (err == Ok || (err == ENOMEM && exists i :: 0 <= i < |pds| && !ctlOk(i))) && ((forall i :: 0 <= i < |pds| ==> ctlOk(i)) ==> err == Ok)
    {
      hide Counted;
      var n;
      n, err := AddAll(pds, ctlOk, queued);
      if n < |pds| {
        assert pds[..n + 1][..n] == pds[..n];
        PollsetDel(pds[..n + 1], queued, pds[n].fd);
        Determined(queued);
      } else {
        assert pds[..n] == pds;
      }
    }

    /** The second loop of `_st_epoll_pollset_add`, up to the entry n that fails. */
    method AddAll(pds: seq<PollFd>, ctlOk: nat -> bool, ghost queued: seq<PollFd>) returns (n: nat, err: Errno)
      requires Valid(queued) && forall j :: 0 <= j < |pds| ==> ValidEntry(pds[j]) && pds[j].fd < |fdData|
      modifies this`fdData, this`kernel, this`evtlistCnt, this`evtlistSize
      ensures |fdData| == |old(fdData)| && n <= |pds| && (n < |pds| <==> err != Ok)
      ensures err == Ok ==> Valid(queued + pds)
      ensures err != Ok ==> !ctlOk(n) && err == ENOMEM && Counted(queued + pds[..n + 1])
      ensures err != Ok ==> forall fd :: 0 <= fd < |fdData| ==> fdData[fd].revents == {}
      ensures err != Ok ==> forall fd :: 0 <= fd < |fdData| && fd != pds[n].fd ==> InStep(fd)
      ensures err != Ok ==> 0 <= pds[n].fd < |fdData| && Lags(pds[n].fd, queued + pds[..n])
    {
      n, err := 0, Ok;
      assert queued + pds[..0] == queued;
      while n < |pds|
        invariant n <= |pds| && |fdData| == |old(fdData)| && err == Ok
        invariant Valid(queued + pds[..n])
      {
        err := AddEntryInStep(pds[n], ctlOk(n), queued + pds[..n]);
        assert queued + pds[..n] + [pds[n]] == queued + pds[..n + 1];
        if err != Ok {
          return;
        }
        n := n + 1;
      }
      assert pds[..n] == pds;
    }

    /** One turn of that loop, for the whole table. */
    method AddEntryInStep(pd: PollFd, room: bool, ghost before: seq<PollFd>) returns (err: Errno)
      requires Valid(before) && ValidEntry(pd) && pd.fd < |fdData|
      modifies this`fdData, this`kernel, this`evtlistCnt, this`evtlistSize
      ensures |fdData| == |old(fdData)| && Counted(before + [pd])
      ensures forall fd :: 0 <= fd < |fdData| ==> fdData[fd].revents == {}
      ensures forall fd :: 0 <= fd < |fdData| && fd != pd.fd ==> InStep(fd)
      ensures err == Ok ==> Valid(before + [pd])
      ensures err != Ok ==> !room && err == ENOMEM && Lags(pd.fd, before)
    {
      hide Tally;
      assert InStep(pd.fd);
      TallyBounds(before, pd.fd);
      CountsAfterAdd(fdData, pd, before);
      assert forall j :: 0 <= j < |before + [pd]| ==> (before + [pd])[j] in before || (before + [pd])[j] == pd;
      err := AddEntry(pd, room);
      forall fd | 0 <= fd < |fdData| && fd != pd.fd
        ensures InStep(fd)
      {
        assert old(InStep(fd));
      }
    }

    /** First loop of `_st_epoll_dispatch`: record what fired. */
    method Fire(fired: Fired, ghost queued: seq<PollFd>)
      requires Valid(queued) && Distinct(fired)
      requires forall i :: 0 <= i < |fired| ==> fired[i].0 in kernel
      modifies this`fdData
      ensures Firing(queued) && |fdData| == |old(fdData)|
      ensures forall fd :: 0 <= fd < |fdData| ==>
                fdData[fd] == old(fdData)[fd].(revents := Recorded(fired, fd, Events(old(fdData)[fd])))
    {
      var i := 0;
      while i < |fired|
        invariant 0 <= i <= |fired| && |fdData| == |old(fdData)|
        invariant forall fd :: 0 <= fd < |fdData| ==>
                    fdData[fd] == old(fdData)[fd].(revents := Recorded(fired[..i], fd, Events(old(fdData)[fd])))
      {
        var osfd := fired[i].0;
        assert fired[..i + 1][..i] == fired[..i];
        fdData := fdData[osfd := fdData[osfd].(revents := fired[i].1)];
        if fdData[osfd].revents * {Err, Hup} != {} {
          fdData := fdData[osfd := fdData[osfd].(revents := fdData[osfd].revents + Events(fdData[osfd]))];
        }
        i := i + 1;
      }
      assert fired[..i] == fired;
      forall fd | 0 <= fd < |fdData|
        ensures InStep(fd)
      {
        assert old(InStep(fd));
        RecordedIff(fired, fd, Events(old(fdData)[fd]));
      }
    }

    /** One turn of the last loop. */
    method SettleOne(osfd: int, ghost queued: seq<PollFd>)
      requires Firing(queued) && 0 <= osfd < |fdData| && fdData[osfd].revents != {}
      modifies this`fdData, this`kernel, this`evtlistCnt
      ensures Firing(queued) && |fdData| == |old(fdData)|
      ensures forall fd :: 0 <= fd < |fdData| ==> fdData[fd].revents == if fd == osfd then {} else old(fdData)[fd].revents
    {
      hide Tally;
      assert InStep(osfd);
      fdData := fdData[osfd := fdData[osfd].(revents := {})];
      Sync(osfd);
      forall fd | 0 <= fd < |fdData|
        ensures InStep(fd)
      {
        assert old(InStep(fd));
      }
    }

    /** Last loop of `_st_epoll_dispatch`: forget what fired and bring the kernel in step. */
    method Settle(fired: Fired, ghost queued: seq<PollFd>)
      requires Firing(queued) && Distinct(fired)
      requires forall i :: 0 <= i < |fired| ==> 0 <= fired[i].0 < |fdData| && fdData[fired[i].0].revents != {}
      requires forall fd :: 0 <= fd < |fdData| && fdData[fd].revents != {} ==> exists i :: 0 <= i < |fired| && fired[i].0 == fd
      modifies this`fdData, this`kernel, this`evtlistCnt
      ensures Valid(queued) && |fdData| == |old(fdData)|
    {
      hide Firing, Tally;
      var i := 0;
      while i < |fired|
        invariant 0 <= i <= |fired| && |fdData| == |old(fdData)| && Firing(queued)
        invariant forall j :: i <= j < |fired| ==> fdData[fired[j].0].revents != {}
        invariant forall fd :: 0 <= fd < |fdData| && fdData[fd].revents != {} ==> exists j :: i <= j < |fired| && fired[j].0 == fd
      {
        SettleOne(fired[i].0, queued);
        i := i + 1;
      }
    }

    /** Outside dispatch the kernel watches a descriptor for exactly what the queued entries
        that name it ask for. */
    lemma WatchesWhatIsAsked(queued: seq<PollFd>, fd: int, e: Ev)
      requires Valid(queued)
      ensures e in Watched(fd) <==> e in {In, Out, Pri} && exists i :: 0 <= i < |queued| && queued[i].fd == fd && e in queued[i].events
    {
      hide Tally, Events;
      if 0 <= fd < |fdData| {
        assert InStep(fd);
        SameAsks(fdData[fd], Tally(queued, fd));
        TallyAsks(queued, fd, e);
      }
    }

    lemma SameAsks(a: FdData, b: FdData)
      requires a.(revents := {}) == b
      ensures Events(a) == Events(b)
    {
    }

    /** `_st_epoll_fd_new`: the table covers the new descriptor. */
    method FdNew(osfd: nat, grown: bool, ghost queued: seq<PollFd>) returns (ok: bool)
      requires Valid(queued)
      modifies this`fdData
      ensures Valid(queued) && old(fdData) <= fdData && ok == (osfd < |old(fdData)| || grown)
      ensures if ok then osfd < |fdData| else fdData == old(fdData)
    {
      hide Valid;
      ok := true;
      if osfd >= |fdData| {
        ok := FdDataExpand(osfd, grown, queued);
      }
    }

    /** `_st_epoll_fd_close`: a descriptor is busy exactly while a queued entry names it. */
    method FdClose(osfd: int, ghost queued: seq<PollFd>) returns (busy: bool)
      requires Valid(queued) && 0 <= osfd < |fdData|
      ensures busy <==> exists i :: 0 <= i < |queued| && queued[i].fd == osfd
    {
      var d := fdData[osfd];
      busy := d.rd != 0 || d.wr != 0 || d.ex != 0;
      TallyNames(queued, osfd);
    }
  }
}
