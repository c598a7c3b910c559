/** The vector loops of io.c: every byte is moved once and in order, whatever the kernel
    does with each single call. */
module VectorIo {
  import opened Basics

  /** Memory by address. */
  type Memory = map<int, Byte>

  datatype IoVec = IoVec(base: int, len: nat)

  function Range(base: int, len: nat): (r: seq<int>)
    ensures |r| == len && forall i :: 0 <= i < len ==> r[i] == base + i
  {
    seq(len, i => base + i)
  }

  /** The addresses that vectors describe, in order. */
  function Addrs(iov: seq<IoVec>): seq<int> {
    if iov == [] then [] else Range(iov[0].base, iov[0].len) + Addrs(iov[1..])
  }

  lemma {:induction false} AddrsConcat(a: seq<IoVec>, b: seq<IoVec>)
    ensures Addrs(a + b) == Addrs(a) + Addrs(b)
  {
    if a == [] {
      assert a + b == b;
    } else {
      assert (a + b)[1..] == a[1..] + b;
      AddrsConcat(a[1..], b);
    }
  }

  /** The address part of a vector from its byte n on. */
  lemma RangeTail(base: int, len: nat, n: nat)
    requires n <= len
    ensures Range(base, len)[n..] == Range(base + n, len - n)
  {
  }

  function Peek(m: Memory, a: int): Byte {
    if a in m then m[a] else 0
  }

  /** The bytes at these addresses. */
  function Gather(m: Memory, addrs: seq<int>): (r: seq<Byte>)
    ensures |r| == |addrs| && forall i :: 0 <= i < |addrs| ==> r[i] == Peek(m, addrs[i])
  {
    seq(|addrs|, i requires 0 <= i < |addrs| => Peek(m, addrs[i]))
  }

  /** The memory after storing the bytes at these addresses, one after the other. */
  function Scatter(m: Memory, addrs: seq<int>, bytes: seq<Byte>): Memory
    requires |addrs| == |bytes|
  {
    if addrs == [] then m
    else
      var n := |addrs| - 1;
      Scatter(m, addrs[..n], bytes[..n])[addrs[n] := bytes[n]]
  }

  lemma {:induction false} ScatterConcat(m: Memory, a: seq<int>, x: seq<Byte>, b: seq<int>, y: seq<Byte>)
    requires |a| == |x| && |b| == |y|
    ensures Scatter(Scatter(m, a, x), b, y) == Scatter(m, a + b, x + y)
  {
    if b == [] {
      assert a + b == a && x + y == x;
    } else {
      var n := |b| - 1;
      ScatterConcat(m, a, x, b[..n], y[..n]);
      assert (a + b)[..|a| + n] == a + b[..n] && (x + y)[..|x| + n] == x + y[..n];
    }
  }

  /** A contiguous store is read back as it was, and touches nothing else. */
  lemma {:induction false} ScatterRange(m: Memory, base: int, bytes: seq<Byte>)
    ensures var r := Scatter(m, Range(base, |bytes|), bytes);
            && Gather(r, Range(base, |bytes|)) == bytes
            && forall a :: !(base <= a < base + |bytes|) ==> Peek(r, a) == Peek(m, a)
  {
    if bytes != [] {
      var n := |bytes| - 1;
      ScatterRange(m, base, bytes[..n]);
      assert Range(base, |bytes|)[..n] == Range(base, n);
      var before := Gather(Scatter(m, Range(base, n), bytes[..n]), Range(base, n));
      assert forall i :: 0 <= i < n ==> bytes[i] == before[i];
    }
  }

  // ---- system calls ----

  /** What the coming system calls do: one moves up to n bytes, or fails with EAGAIN, EINTR
      or another error.  For `poll`, everything but the last means ready. */
  datatype Outcome = Moved(n: nat) | Again | Intr | Failed

  function Min(a: nat, b: nat): nat { if a < b then a else b }

  /** A process with one descriptor.  The script holds what its coming system calls will
      do; when it has run out they fail. */
  class Process {
    var mem: Memory
    var sent: seq<Byte>      // what the kernel has accepted
    var incoming: seq<Byte>  // what has arrived and can be read
    var onWay: seq<Byte>     // what the peer has sent and has not arrived
    var carries: seq<nat>    // how much of that arrives before each coming read
    var closed: bool         // whether the peer has closed, so that nothing follows
    var script: seq<Outcome>
    ghost var errors: nat    // how many system calls have failed for good

    /** All that can still be read of what the peer has sent. */
    function Stream(): seq<Byte>
      reads this
    {
      incoming + onWay
    }

    method Next() returns (o: Outcome)
      modifies this`script, this`errors
      ensures o == if old(script) == [] then Failed else old(script)[0]
      ensures script == if old(script) == [] then [] else old(script)[1..]
      ensures errors == old(errors) + if o == Failed then 1 else 0
    {
      o := Failed;
      if script != [] {
        o := script[0];
        script := script[1..];
      }
      if o == Failed {
        errors := errors + 1;
      }
    }

    /** `write` and `writev` */
    method SysWrite(addrs: seq<int>) returns (o: Outcome)
      modifies this`script, this`sent, this`errors
      ensures o.Moved? ==> o.n <= |addrs| && sent == old(sent) + Gather(mem, addrs[..o.n])
      ensures !o.Moved? ==> sent == old(sent)
      ensures |script| < |old(script)| || (o == Failed && |script| == 0)
      ensures errors == old(errors) + if o == Failed then 1 else 0
    {
      o := Next();
      if o.Moved? {
        o := Moved(Min(o.n, |addrs|));
        sent := sent + Gather(mem, addrs[..o.n]);
      }
    }

    /** Some of what is on the way arrives. */
    method Arrive()
      modifies this`incoming, this`onWay, this`carries
      ensures Stream() == old(Stream())
    {
      if carries != [] {
        var k := Min(carries[0], |onWay|);
        carries := carries[1..];
        MoveOver(incoming, onWay, k);
        incoming := incoming + onWay[..k];
        onWay := onWay[k..];
      }
    }

    /** `read` and `readv`.  Nothing can be read before it has arrived; nothing is read at
        the end of the stream. */
    method SysRead(addrs: seq<int>) returns (o: Outcome)
      modifies this`script, this`incoming, this`onWay, this`carries, this`mem, this`errors
      ensures o.Moved? ==> o.n <= |addrs| && o.n <= |old(Stream())| && Stream() == old(Stream())[o.n..]
                           && mem == Scatter(old(mem), addrs[..o.n], old(Stream())[..o.n])
      ensures o == Moved(0) ==> addrs == [] || (closed && Stream() == [])
      ensures !o.Moved? ==> Stream() == old(Stream()) && mem == old(mem)
      ensures |script| < |old(script)| || (o == Failed && |script| == 0)
      ensures errors == old(errors) + if o == Failed then 1 else 0
    {
      hide Scatter;
      Arrive();
      o := Next();
      assert Stream() == old(Stream());
      if o.Moved? {
        if addrs != [] && incoming == [] && (onWay != [] || !closed) {
          o := Again;
        } else {
          o := Moved(Min(if o.n == 0 then 1 else o.n, Min(|addrs|, |incoming|)));
          mem := Scatter(mem, addrs[..o.n], incoming[..o.n]);
          FrontOfBoth(incoming, onWay, o.n);
          incoming := incoming[o.n..];
        }
      }
    }

    /** `st_netfd_poll` */
    method Poll() returns (ok: bool)
      modifies this`script, this`errors
      ensures |script| <= |old(script)| && errors == old(errors) + if ok then 0 else 1
    {
      var o := Next();
      ok := o != Failed;
    }

    // ---- writing ----

    /** `st_writev_resid`.  The vectors from `pos` on are what is left to do. */
    method WritevResid(iov: array<IoVec>) returns (rv: int, pos: nat)
      modifies iov, this`script, this`sent, this`errors
      ensures Partial(old(iov[..]), iov[..], pos)
      ensures Accepted(mem, Addrs(old(iov[..])), Addrs(iov[..]), old(sent), sent)
      ensures rv == (if pos == iov.Length then 0 else -1) == (if errors == old(errors) then 0 else -1)
    {
      hide Accepted, Partial, Addrs;
      ghost var was := iov[..];
      var size: nat := iov.Length;
      pos := 0;
      NothingMoved(mem, was, sent);
      while size > 0
        invariant pos + size == iov.Length && Partial(was, iov[..], pos)
        invariant Accepted(mem, Addrs(was), Addrs(iov[pos..]), old(sent), sent) && errors == old(errors)
        decreases |script|
      {
        ghost var rest, before := Addrs(iov[pos..]), sent;
        var o := SysWrite(Addrs(iov[pos..]));
        if o == Intr {
          continue;
        }
        if o == Failed {
          rv := -1;
          PartialAddrs(was, iov[..], pos);
          return;
        }
        if o.Moved? {
          AcceptedMore(mem, Addrs(was), rest, old(sent), before, o.n);
          pos, size := Consume(iov, pos, size, o.n, was);
          if size == 0 {
            break;
          }
        }
        var ok := Poll();
        if !ok {
          rv := -1;
          PartialAddrs(was, iov[..], pos);
          return;
        }
      }
      rv := 0;
      PartialAddrs(was, iov[..], pos);
    }

    /** `st_write` */
    method Write(buf: int, nbyte: nat) returns (r: int)
      modifies this`script, this`sent, this`errors
      ensures r == if errors == old(errors) then nbyte else -1
      ensures exists k: nat :: k <= nbyte && sent == old(sent) + Gather(mem, Range(buf, k))
                && (r == nbyte ==> k == nbyte) && (r == -1 && nbyte > 0 ==> k < nbyte)
    {
      hide Accepted, Partial, Gather;
      var iov := new IoVec[1](_ => IoVec(buf, nbyte));
      assert iov[..] == [IoVec(buf, nbyte)];
      var rv, pos := WritevResid(iov);
      OneVector([IoVec(buf, nbyte)], iov[..], pos);
      ghost var k: nat := nbyte - iov[0].len;
      AcceptedAre(mem, buf, nbyte, iov[0], old(sent), sent);
      r := if rv == 0 then nbyte - iov[0].len else -1;
    }

    // ---- reading ----

    /** `st_readv_resid` */
    method ReadvResid(iov: array<IoVec>) returns (rv: int, pos: nat)
      modifies iov, this`script, this`incoming, this`onWay, this`carries, this`mem, this`errors
      ensures Partial(old(iov[..]), iov[..], pos)
      ensures Received(old(mem), Addrs(old(iov[..])), Addrs(iov[..]), old(Stream()), mem, Stream())
      ensures rv == if errors == old(errors) then 0 else -1
      ensures rv == 0 && Addrs(iov[..]) != [] ==> closed && Stream() == []
    {
      hide Received, Partial, Addrs;
      ghost var was := iov[..];
      var size: nat := iov.Length;
      pos := 0;
      NothingRead(mem, was, Stream());
      while size > 0
        invariant pos + size == iov.Length && Partial(was, iov[..], pos)
        invariant Received(old(mem), Addrs(was), Addrs(iov[pos..]), old(Stream()), mem, Stream())
        invariant errors == old(errors)
        decreases |script|
      {
        ghost var rest, m, before := Addrs(iov[pos..]), mem, Stream();
        var o := SysRead(Addrs(iov[pos..]));
        if o == Intr {
          continue;
        }
        if o == Failed {
          rv := -1;
          PartialAddrs(was, iov[..], pos);
          return;
        }
        if o == Moved(0) {
          ReceivedMore(old(mem), Addrs(was), rest, old(Stream()), m, before, 0);
          assert rest[0..] == rest;
          break;
        }
        if o.Moved? {
          ReceivedMore(old(mem), Addrs(was), rest, old(Stream()), m, before, o.n);
          pos, size := Consume(iov, pos, size, o.n, was);
          if size == 0 {
            break;
          }
        }
        var ok := Poll();
        if !ok {
          rv := -1;
          PartialAddrs(was, iov[..], pos);
          return;
        }
      }
      rv := 0;
      PartialAddrs(was, iov[..], pos);
      NoOffset(iov[pos..]);
    }

    /** `st_read_fully` */
    method ReadFully(buf: int, nbyte: nat) returns (r: int)
      modifies this`script, this`incoming, this`onWay, this`carries, this`mem, this`errors
      ensures -1 <= r <= nbyte && (r == -1 <==> errors != old(errors)) && (0 <= r < nbyte ==> closed && Stream() == [])
      ensures exists k: nat :: k <= nbyte && k <= |old(Stream())| && Stream() == old(Stream())[k..]
                && mem == Scatter(old(mem), Range(buf, k), old(Stream())[..k]) && (r >= 0 ==> r == k)
    {
      hide Received, Partial, Scatter;
      var iov := new IoVec[1](_ => IoVec(buf, nbyte));
      assert iov[..] == [IoVec(buf, nbyte)];
      var rv, pos := ReadvResid(iov);
      OneVector([IoVec(buf, nbyte)], iov[..], pos);
      ReceivedAre(old(mem), buf, nbyte, iov[0], old(Stream()), mem, Stream());
      r := if rv == 0 then nbyte - iov[0].len else -1;
    }

    /** One `writev` of the vectors that are left. */
    method WriteSome(cur: seq<IoVec>, ghost all: seq<int>, ghost before: seq<Byte>) returns (o: Outcome)
      requires Accepted(mem, all, Addrs(cur), before, sent)
      modifies this`script, this`sent, this`errors
      ensures o.Moved? ==> o.n <= |Addrs(cur)|
      ensures Accepted(mem, all, if o.Moved? then Addrs(cur)[o.n..] else Addrs(cur), before, sent)
      ensures |script| < |old(script)| || (o == Failed && |script| == 0)
      ensures errors == old(errors) + if o == Failed then 1 else 0
    {
      hide Addrs, Accepted, Gather;
      o := SysWrite(Addrs(cur));
      if o.Moved? { AcceptedMore(mem, all, Addrs(cur), before, old(sent), o.n); }
    }

    /** The last vector goes to `st_write`. */
    method WriteLast(base: int, nleft: nat, ghost all: seq<int>, ghost before: seq<Byte>) returns (r: int, ghost k: nat)
      requires nleft > 0 && Accepted(mem, all, Addrs([IoVec(base, nleft)]), before, sent)
      modifies this`script, this`sent, this`errors
      ensures r == if errors == old(errors) then nleft else -1
      ensures Sent(mem, all, k, before, sent) && (k == |all| <==> r == nleft)
    {
      hide Addrs, Accepted, Sent, Gather;
      r := Write(base, nleft);
      k := LastSent(mem, all, IoVec(base, nleft), before, old(sent), sent, r);
    }

    /** `st_writev`; `allocOk` is the outcome of its allocation.  A prefix of the bytes is
        sent, each once and in order, and the result is their number exactly if it is all
        of them. */
    method Writev(iov: seq<IoVec>, allocOk: bool) returns (rv: int, ghost k: nat)
      modifies this`script, this`sent, this`errors
      ensures Sent(mem, Addrs(iov), k, old(sent), sent) && rv == if k == |Addrs(iov)| then k else -1
      ensures (errors != old(errors) ==> rv == -1) && (rv == -1 ==> errors != old(errors) || !allocOk)
    {
      hide Addrs, Accepted, Sent, Gather, Room;
      var nbyte := TotalLength(iov);
      rv := nbyte;
      var nleft: nat := nbyte;
      var copied, tmp, cnt: nat := false, new IoVec[0], |iov|;
      ghost var first: nat, cur := 0, iov;
      NothingMoved(mem, iov, sent);
      assert iov[0..] == iov;
      while nleft > 0
        invariant fresh(tmp) && (copied ==> cnt <= tmp.Length && Room(iov, first, tmp.Length, nbyte - nleft))
        invariant cur == (if copied then tmp[..cnt] else iov) && cnt == |cur|
        invariant nleft == |Addrs(cur)| <= nbyte == |Addrs(iov)| == rv
        invariant Accepted(mem, Addrs(iov), Addrs(cur), old(sent), sent) && errors == old(errors)
        decreases |script|
      {
        if cnt == 1 {
          OneAddrs(cur[0]);
          assert cur == [cur[0]];
          var r;
          r, k := WriteLast(if copied then tmp[0].base else iov[0].base, nleft, Addrs(iov), old(sent));
          if r != nleft {
            rv := -1;
          }
          return;
        }
        var o := WriteSome(if copied then tmp[..cnt] else iov, Addrs(iov), old(sent));
        if o == Intr {
          continue;
        }
        if o == Failed {
          rv := -1;
          break;
        }
        if o.Moved? {
          if o.n == nleft {
            cur, nleft := [], 0;
            NoOffset(cur);
            break;
          }
          nleft := nleft - o.n;
          var ok;
          ghost var a := Account(mem, Addrs(iov), old(sent), sent);
          ok, tmp, cnt, first := CopyRest(iov, nbyte - nleft, copied, tmp, first, nbyte - nleft - o.n, allocOk, a, Addrs(cur)[o.n..]);
          if !ok {
            return -1, nbyte - nleft;
          }
          copied := true;
          cur := tmp[..cnt];
        }
        var ok := Poll();
        if !ok {
          rv := -1;
          break;
        }
      }
      SentSoFar(mem, Addrs(iov), Addrs(cur), old(sent), sent);
      k := nbyte - nleft;
    }
  }

  lemma FrontOfBoth(a: seq<Byte>, b: seq<Byte>, n: nat)
    requires n <= |a|
    ensures (a + b)[..n] == a[..n] && (a + b)[n..] == a[n..] + b
  {
  }

  lemma MoveOver(a: seq<Byte>, b: seq<Byte>, k: nat)
    requires k <= |b|
    ensures (a + b[..k]) + b[k..] == a + b
  {
  }

  /** The kernel has accepted what the addresses `all` hold, up to the last ones `rest`:
      each byte once, in order. */
  ghost predicate Accepted(m: Memory, all: seq<int>, rest: seq<int>, before: seq<Byte>, now: seq<Byte>) {
    && |rest| <= |all| && rest == all[|all| - |rest|..]
    && now == before + Gather(m, all[..|all| - |rest|])
  }

  /** What has been accepted of the bytes at `all`. */
  datatype Account = Account(m: Memory, all: seq<int>, before: seq<Byte>, now: seq<Byte>)
  {
    ghost predicate Holds(rest: seq<int>) { Accepted(m, all, rest, before, now) }
  }

  lemma NothingMoved(m: Memory, iov: seq<IoVec>, sent: seq<Byte>)
    ensures Accepted(m, Addrs(iov), Addrs(iov[0..]), sent, sent) && Partial(iov, iov, 0)
  {
    assert iov[0..] == iov;
    assert Addrs(iov)[0..] == Addrs(iov);
    assert Gather(m, Addrs(iov)[..0]) == [];
  }

  lemma AcceptedMore(m: Memory, all: seq<int>, rest: seq<int>, before: seq<Byte>, now: seq<Byte>, n: nat)
    requires Accepted(m, all, rest, before, now) && n <= |rest|
    ensures Accepted(m, all, rest[n..], before, now + Gather(m, rest[..n]))
  {
    var k := |all| - |rest|;
    assert all[..k] + rest[..n] == all[..k + n];
    GatherConcat(m, all[..k], rest[..n]);
    assert rest[n..] == all[k + n..];
  }

  lemma SameRest(m: Memory, all: seq<int>, rest: seq<int>, left: seq<int>, before: seq<Byte>, now: seq<Byte>)
    requires Accepted(m, all, rest, before, now)
    requires |rest| <= |all| ==> left == all[|all| - |rest|..]
    ensures left == rest && Accepted(m, all, left, before, now)
  {
  }

  lemma AcceptedAre(m: Memory, buf: int, nbyte: nat, v: IoVec, before: seq<Byte>, now: seq<Byte>)
    requires v.len <= nbyte && Accepted(m, Range(buf, nbyte), Range(v.base, v.len), before, now)
    ensures now == before + Gather(m, Range(buf, nbyte - v.len))
  {
    assert Range(buf, nbyte)[..nbyte - v.len] == Range(buf, nbyte - v.len);
  }

  /** The bytes that came in have been stored at the addresses `all`, up to the last ones
      `rest`: each once, in order. */
  ghost predicate Received(m0: Memory, all: seq<int>, rest: seq<int>, in0: seq<Byte>, m: Memory, in1: seq<Byte>) {
    && |rest| <= |all| && rest == all[|all| - |rest|..]
    && var k := |all| - |rest|;
       k <= |in0| && in1 == in0[k..] && m == Scatter(m0, all[..k], in0[..k])
  }

  lemma NothingRead(m: Memory, iov: seq<IoVec>, incoming: seq<Byte>)
    ensures Received(m, Addrs(iov), Addrs(iov[0..]), incoming, m, incoming) && Partial(iov, iov, 0)
  {
    assert iov[0..] == iov;
    assert Addrs(iov)[0..] == Addrs(iov) && Addrs(iov)[..0] == [] && incoming[..0] == [] && incoming[0..] == incoming;
  }

  lemma ReceivedMore(m0: Memory, all: seq<int>, rest: seq<int>, in0: seq<Byte>, m: Memory, in1: seq<Byte>, n: nat)
    requires Received(m0, all, rest, in0, m, in1) && n <= |rest| && n <= |in1|
    ensures Received(m0, all, rest[n..], in0, Scatter(m, rest[..n], in1[..n]), in1[n..])
  {
    hide Scatter;
    var k := |all| - |rest|;
    assert all[..k] + rest[..n] == all[..k + n] && in0[..k] + in1[..n] == in0[..k + n];
    ScatterConcat(m0, all[..k], in0[..k], rest[..n], in1[..n]);
    assert rest[n..] == all[k + n..] && in1[n..] == in0[k + n..];
  }

  lemma ReceivedAre(m0: Memory, buf: int, nbyte: nat, v: IoVec, in0: seq<Byte>, m: Memory, in1: seq<Byte>)
    requires v.len <= nbyte && Received(m0, Range(buf, nbyte), Range(v.base, v.len), in0, m, in1)
    ensures var k := nbyte - v.len;
            k <= |in0| && in1 == in0[k..] && m == Scatter(m0, Range(buf, k), in0[..k])
  {
    assert Range(buf, nbyte)[..nbyte - v.len] == Range(buf, nbyte - v.len);
  }

  /** A list of one vector. */
  lemma OneVector(was: seq<IoVec>, now: seq<IoVec>, pos: nat)
    requires |was| == 1 && Partial(was, now, pos)
    ensures |now| == 1 && now[0].len <= was[0].len && (pos == 1 || was[0].len == 0 <==> now[0].len == 0)
    ensures Addrs(was) == Range(was[0].base, was[0].len) && Addrs(now) == Range(now[0].base, now[0].len)
  {
    assert Addrs(was[1..]) == [] && Addrs(now[1..]) == [];
  }

  /** now is was with the vectors before pos used up, and at most the one at pos begun. */
  ghost predicate Partial(was: seq<IoVec>, now: seq<IoVec>, pos: nat) {
    && |now| == |was| && pos <= |was|
    && (forall i :: 0 <= i < pos ==> now[i] == IoVec(was[i].base + was[i].len, 0))
    && (forall i :: pos < i < |was| ==> now[i] == was[i])
    && (pos < |was| ==> now[pos] == was[pos] || 0 < now[pos].len)
    && (pos < |was| ==> now[pos].len <= was[pos].len && now[pos].base + now[pos].len == was[pos].base + was[pos].len)
  }

  lemma {:induction false} UsedUp(a: seq<IoVec>)
    requires forall i :: 0 <= i < |a| ==> a[i].len == 0
    ensures Addrs(a) == []
  {
    if a != [] { UsedUp(a[1..]); }
  }

  lemma PartialAddrs(was: seq<IoVec>, now: seq<IoVec>, pos: nat)
    requires Partial(was, now, pos)
    ensures Addrs(now) == Addrs(now[pos..])
  {
    UsedUp(now[..pos]);
    AddrsConcat(now[..pos], now[pos..]);
    assert now == now[..pos] + now[pos..];
  }

  lemma GatherConcat(m: Memory, a: seq<int>, b: seq<int>)
    ensures Gather(m, a + b) == Gather(m, a) + Gather(m, b)
  {
  }

  lemma HeadAddrs(v: IoVec, rest: seq<IoVec>)
    ensures Addrs([v] + rest) == Range(v.base, v.len) + Addrs(rest)
  {
    assert ([v] + rest)[1..] == rest;
  }

  lemma BeyondFirst(a: seq<int>, b: seq<int>, n: nat)
    requires n <= |a + b|
    ensures n <= |a| ==> (a + b)[n..] == a[n..] + b
    ensures n >= |a| ==> (a + b)[n..] == b[n - |a|..]
  {
  }

  /** The first vector of a list, and n bytes from the front of it. */
  lemma FrontOf(iov: seq<IoVec>, n: nat)
    requires iov != [] && n <= |Addrs(iov)|
    ensures n < iov[0].len || iov[1..] != [] || n == iov[0].len
    ensures n >= iov[0].len ==> n - iov[0].len <= |Addrs(iov[1..])| && Addrs(iov)[n..] == Addrs(iov[1..])[n - iov[0].len..]
    ensures n <= iov[0].len ==> Addrs([IoVec(iov[0].base + n, iov[0].len - n)] + iov[1..]) == Addrs(iov)[n..]
  {
    hide Addrs, Range;
    var v, rest := iov[0], iov[1..];
    assert iov == [v] + rest;
    HeadAddrs(v, rest);
    BeyondFirst(Range(v.base, v.len), Addrs(rest), n);
    NoOffset(rest);
    if n <= v.len {
      RangeTail(v.base, v.len, n);
      HeadAddrs(IoVec(v.base + n, v.len - n), rest);
    }
  }

  lemma PartialNext(was: seq<IoVec>, now: seq<IoVec>, pos: nat, n: nat)
    requires Partial(was, now, pos) && pos < |now| && n <= now[pos].len
    ensures n == 0 || n < now[pos].len ==> Partial(was, now[pos := IoVec(now[pos].base + n, now[pos].len - n)], pos)
    ensures n == now[pos].len ==> Partial(was, now[pos := IoVec(now[pos].base + n, 0)], pos + 1)
  {
  }

  /** n bytes have been moved: use up vectors from the front, and begin the next one. */
  method Consume(iov: array<IoVec>, pos0: nat, size0: nat, moved: nat, ghost was: seq<IoVec>) returns (pos: nat, size: nat)
    requires pos0 + size0 == iov.Length && size0 > 0 && moved <= |Addrs(iov[pos0..])|
    requires Partial(was, iov[..], pos0)
    modifies iov
    ensures pos + size == iov.Length && Partial(was, iov[..], pos)
    ensures Addrs(iov[pos..]) == old(Addrs(iov[pos0..]))[moved..]
  {
    hide Partial, Addrs;
    var n: nat := moved;
    pos, size := pos0, size0;
    while n >= iov[pos].len
      invariant pos + size == iov.Length && size > 0 && Partial(was, iov[..], pos)
      invariant n <= |Addrs(iov[pos..])| && Addrs(iov[pos..])[n..] == old(Addrs(iov[pos0..]))[moved..]
      decreases size
    {
      ghost var now := iov[..];
      PartialNext(was, now, pos, iov[pos].len);
      FrontOf(now[pos..], n);
      n := n - iov[pos].len;
      iov[pos] := IoVec(iov[pos].base + iov[pos].len, 0);
      SlicesAfter(now, pos, iov[pos]);
      assert iov[..] == now[pos := iov[pos]];
      pos := pos + 1;
      size := size - 1;
      assert Addrs(iov[pos..])[n..] == old(Addrs(iov[pos0..]))[moved..];
      if n == 0 {
        assert Addrs(iov[pos..])[0..] == Addrs(iov[pos..]);
        break;
      }
    }
    if size > 0 {
      ghost var now := iov[..];
      PartialNext(was, now, pos, n);
      FrontOf(now[pos..], n);
      iov[pos] := IoVec(iov[pos].base + n, iov[pos].len - n);
      SlicesAfter(now, pos, iov[pos]);
      assert iov[..] == now[pos := iov[pos]];
    }
  }

  lemma SlicesAfter(now: seq<IoVec>, pos: nat, v: IoVec)
    requires pos < |now|
    ensures now[pos..][1..] == now[pos + 1..] == now[pos := v][pos + 1..]
    ensures now[pos := v][pos..] == [v] + now[pos + 1..]
  {
  }

  // ---- writing a whole vector list ----

  const LOCAL_MAXIOV := 16

  /** k of the bytes at `all` have been accepted. */
  ghost predicate Sent(m: Memory, all: seq<int>, k: nat, before: seq<Byte>, now: seq<Byte>) {
    k <= |all| && now == before + Gather(m, all[..k])
  }

  lemma SentSoFar(m: Memory, all: seq<int>, rest: seq<int>, before: seq<Byte>, now: seq<Byte>)
    requires Accepted(m, all, rest, before, now)
    ensures |rest| <= |all| && Sent(m, all, |all| - |rest|, before, now)
  {
  }

  /** The last vector v went to `st_write`, which answered r. */
  lemma LastSent(m: Memory, all: seq<int>, v: IoVec, before0: seq<Byte>, before: seq<Byte>, now: seq<Byte>, r: int)
      returns (n: nat)
    requires Accepted(m, all, Addrs([v]), before0, before) && v.len > 0
    requires exists k: nat :: k <= v.len && now == before + Gather(m, Range(v.base, k)) && (if r == v.len then k == v.len else k < v.len)
    ensures Sent(m, all, n, before0, now) && (n == |all| <==> r == v.len)
  {
    var k: nat :| k <= v.len && now == before + Gather(m, Range(v.base, k)) && (if r == v.len then k == v.len else k < v.len);
    OneAddrs(v);
    assert Range(v.base, v.len)[..k] == Range(v.base, k);
    AcceptedMore(m, all, Range(v.base, v.len), before0, before, k);
    SentSoFar(m, all, Range(v.base, v.len)[k..], before0, now);
    n := |all| - (v.len - k);
  }

  function Offset(iov: seq<IoVec>, i: nat): nat
    requires i <= |iov|
  {
    |Addrs(iov[..i])|
  }

  /** An array of this length, made when the vectors from `first` on were left, has room
      for those that are left once k bytes have gone. */
  ghost predicate Room(iov: seq<IoVec>, first: nat, length: nat, k: int) {
    first <= |iov| && |iov| - first <= length && Offset(iov, first) <= k
  }

  lemma {:induction false} OffsetGrows(iov: seq<IoVec>, i: nat, j: nat)
    requires i <= j <= |iov|
    ensures Offset(iov, i) <= Offset(iov, j)
  {
    assert iov[..j] == iov[..i] + iov[i..j];
    AddrsConcat(iov[..i], iov[i..j]);
  }

  /** Later copies are not longer than the first one. */
  lemma EnoughRoom(iov: seq<IoVec>, first: nat, length: nat, k: int, k2: int, index: nat)
    requires Room(iov, first, length, k) && k <= k2 && index < |iov| && k2 < Offset(iov, index + 1)
    ensures |iov| - index <= length && Room(iov, first, length, k2)
  {
    if index < first { OffsetGrows(iov, index + 1, first); }
  }

  /** The number of bytes to be sent. */
  method TotalLength(iov: seq<IoVec>) returns (nbyte: nat)
    ensures nbyte == |Addrs(iov)|
  {
    nbyte := 0;
    for index := 0 to |iov|
      invariant nbyte == Offset(iov, index)
    {
      assert iov[..index + 1] == iov[..index] + [iov[index]];
      AddrsConcat(iov[..index], [iov[index]]);
      OneAddrs(iov[index]);
      nbyte := nbyte + iov[index].len;
    }
    assert iov[..|iov|] == iov;
  }

  lemma OneAddrs(v: IoVec)
    ensures Addrs([v]) == Range(v.base, v.len)
  {
    assert [v][1..] == [] && Addrs([]) == [];
  }

  /** The vector that holds byte number sent, and how far into it that is. */
  method FindNext(iov: seq<IoVec>, sent: nat) returns (index: nat, n: nat)
    requires sent < |Addrs(iov)|
    ensures index < |iov| && n < iov[index].len
    ensures Offset(iov, index) <= sent < Offset(iov, index + 1)
    ensures Addrs([IoVec(iov[index].base + n, iov[index].len - n)] + iov[index + 1..]) == Addrs(iov)[sent..]
  {
    hide Addrs;
    index, n := 0, sent;
    assert iov[0..] == iov;
    NoOffset(iov);
    while n >= iov[index].len
      invariant index < |iov| && n < |Addrs(iov[index..])| && Addrs(iov[index..])[n..] == Addrs(iov)[sent..]
      invariant Offset(iov, index) + n == sent
      decreases |iov| - index
    {
      FrontOf(iov[index..], n);
      assert iov[index..][1..] == iov[index + 1..];
      NextOffset(iov, index);
      n := n - iov[index].len;
      index := index + 1;
      NoneLeft(iov, index);
    }
    FrontOf(iov[index..], n);
    assert iov[index..][1..] == iov[index + 1..];
    NextOffset(iov, index);
  }

  lemma NoOffset(iov: seq<IoVec>)
    ensures Offset(iov, 0) == 0 && (iov == [] ==> Addrs(iov) == [])
  {
  }

  lemma NoneLeft(iov: seq<IoVec>, index: nat)
    requires index <= |iov| && |Addrs(iov[index..])| > 0
    ensures index < |iov|
  {
  }

  lemma NextOffset(iov: seq<IoVec>, index: nat)
    requires index < |iov|
    ensures Offset(iov, index + 1) == Offset(iov, index) + iov[index].len
  {
    assert iov[..index + 1] == iov[..index] + [iov[index]];
    AddrsConcat(iov[..index], [iov[index]]);
    OneAddrs(iov[index]);
  }

  /** Bring the vectors that are left once `sent` bytes have gone into `tmp0`, or into a new
      array if there is none yet. */
  method CopyRest(iov: seq<IoVec>, sent: nat, copied: bool, tmp0: array<IoVec>, ghost first0: nat, ghost k: nat, allocOk: bool,
                  ghost a: Account, ghost rest: seq<int>)
      returns (ok: bool, tmp: array<IoVec>, cnt: nat, ghost first: nat)
    requires sent < |Addrs(iov)| && (copied ==> k <= sent && Room(iov, first0, tmp0.Length, k))
    requires a.all == Addrs(iov) && a.Holds(rest) && |rest| == |Addrs(iov)| - sent
    modifies tmp0
    ensures (ok || !allocOk) && (tmp == tmp0 || fresh(tmp))
    ensures if ok then cnt <= tmp.Length && a.Holds(Addrs(tmp[..cnt])) else Sent(a.m, a.all, sent, a.before, a.now)
    ensures ok ==> cnt <= tmp.Length && Addrs(tmp[..cnt]) == Addrs(iov)[sent..] && Room(iov, first, tmp.Length, sent)
  {
    hide Addrs, Offset, Accepted, Sent;
    var index, left := FindNext(iov, sent);
    ok, tmp, cnt, first := true, tmp0, 0, index;
    if copied {
      EnoughRoom(iov, first0, tmp.Length, k, sent, index);
      first := first0;
    } else if |iov| - index <= LOCAL_MAXIOV {
      tmp := new IoVec[LOCAL_MAXIOV];
    } else if allocOk {
      tmp := new IoVec[|iov| - index];
    } else {
      ok := false;
      SentSoFar(a.m, a.all, rest, a.before, a.now);
      return;
    }
    cnt := FillIn(tmp, iov, index, left);
    SameRest(a.m, a.all, rest, Addrs(tmp[..cnt]), a.before, a.now);
  }

  /** Fill in the first partial vector and copy the others after it. */
  method FillIn(tmp: array<IoVec>, iov: seq<IoVec>, index: nat, n: nat) returns (cnt: nat)
    requires index < |iov| && n <= iov[index].len && |iov| - index <= tmp.Length
    modifies tmp
    ensures cnt == |iov| - index <= tmp.Length
    ensures tmp[..cnt] == [IoVec(iov[index].base + n, iov[index].len - n)] + iov[index + 1..]
  {
    var first := IoVec(iov[index].base + n, iov[index].len - n);
    tmp[0] := first;
    var i := index + 1;
    cnt := 1;
    while i < |iov|
      invariant index < i <= |iov| && cnt == i - index
      invariant tmp[..cnt] == [first] + iov[index + 1..i]
    {
      tmp[cnt] := iov[i];
      assert iov[index + 1..i + 1] == iov[index + 1..i] + [iov[i]];
      cnt := cnt + 1;
      i := i + 1;
    }
    assert iov[index + 1..i] == iov[index + 1..];
  }

  // ---- two processes and a first-in first-out channel ----

  /** What happens at the two ends: the one writes from a memory of its choice, the other
      reads into one of its choice, with arrivals in between its system calls, and the
      writer may close. */
  datatype Event =
    | Send(m: Memory, src: int, n: nat)
    | Receive(m: Memory, dst: int, n: nat, carries: seq<nat>)
    | Close

  /** What a call returned, the bytes that it moved, and the memory after it. */
  datatype Returned = Returned(r: int, bytes: seq<Byte>, after: Memory)

  /** The bytes moved by a call are those in its buffer, from the front on, and the result
      tells how many they are, unless it is an error. */
  ghost predicate InBuffer(e: Event, x: Returned) {
    match e
    case Send(m, src, n) =>
      && |x.bytes| <= n && x.bytes == Gather(m, Range(src, |x.bytes|))
      && (x.r == n || x.r == -1) && (x.r == n ==> |x.bytes| == n) && (x.r == -1 && n > 0 ==> |x.bytes| < n)
    case Receive(m, dst, n, _) =>
      && |x.bytes| <= n && x.bytes == Gather(x.after, Range(dst, |x.bytes|))
      && (forall a :: !(dst <= a < dst + |x.bytes|) ==> Peek(x.after, a) == Peek(m, a))
      && (x.r == |x.bytes| || x.r == -1)
    case Close => x.bytes == []
  }

  /** The bytes that each call of one kind moved, in order. */
  function Moves(es: seq<Event>, xs: seq<Returned>, send: bool): (r: seq<seq<Byte>>)
    requires |es| == |xs|
  {
    if es == [] then []
    else
      var n := |es| - 1;
      var before := Moves(es[..n], xs[..n], send);
      if (if send then es[n].Send? else es[n].Receive?) then before + [xs[n].bytes] else before
  }

  lemma MovesMore(es: seq<Event>, xs: seq<Returned>, e: Event, x: Returned)
    requires |es| == |xs|
    ensures Flat(Moves(es + [e], xs + [x], true)) == Flat(Moves(es, xs, true)) + if e.Send? then x.bytes else []
    ensures Flat(Moves(es + [e], xs + [x], false)) == Flat(Moves(es, xs, false)) + if e.Receive? then x.bytes else []
  {
    assert (es + [e])[..|es|] == es && (xs + [x])[..|xs|] == xs;
    FlatMore(Moves(es, xs, true), x.bytes);
    FlatMore(Moves(es, xs, false), x.bytes);
  }

  /** A read comes short only at the end: the writer has closed, and all that it wrote has
      been read. */
  ghost predicate ShortAtEnd(es: seq<Event>, xs: seq<Returned>) {
    && |es| == |xs|
    && forall i :: 0 <= i < |es| && es[i].Receive? && 0 <= xs[i].r < es[i].n ==> AllRead(es[..i + 1], xs[..i + 1])
  }

  ghost predicate AllRead(es: seq<Event>, xs: seq<Returned>) {
    |es| == |xs| && Close in es && Flat(Moves(es, xs, false)) == Flat(Moves(es, xs, true))
  }

  /** The invariant: what has been sent is what has been read, what has arrived, and what
      is on the way, in this order. */
  ghost predicate Conserved(w: Process, r: Process, es: seq<Event>, xs: seq<Returned>)
    reads w, r
  {
    Accounted(es, xs, w.sent, r.Stream(), r.closed)
  }

  ghost predicate Accounted(es: seq<Event>, xs: seq<Returned>, sent: seq<Byte>, stream: seq<Byte>, closed: bool) {
    && |es| == |xs| && (forall i :: 0 <= i < |es| ==> InBuffer(es[i], xs[i]))
    && Flat(Moves(es, xs, true)) == sent == Flat(Moves(es, xs, false)) + stream
    && (closed <==> Close in es) && ShortAtEnd(es, xs)
  }

  lemma SendAccounted(es: seq<Event>, xs: seq<Returned>, e: Event, x: Returned, sent: seq<Byte>, stream: seq<Byte>, closed: bool)
    requires Accounted(es, xs, sent, stream, closed) && !e.Receive? && InBuffer(e, x)
    ensures Accounted(es + [e], xs + [x], sent + x.bytes, stream + x.bytes, closed || e.Close?)
  {
    hide Moves, Flat, ShortAtEnd, AllRead;
    MovesMore(es, xs, e, x);
    Regroup(Flat(Moves(es, xs, false)), stream, x.bytes);
    assert Flat(Moves(es, xs, true)) + [] == Flat(Moves(es, xs, true)) && (e.Close? ==> x.bytes == []);
    ShortMore(es, xs, e, x);
    AllInBuffer(es, xs, e, x);
  }

  lemma ReceiveAccounted(es: seq<Event>, xs: seq<Returned>, e: Event, x: Returned, sent: seq<Byte>, stream: seq<Byte>, closed: bool)
    requires Accounted(es, xs, sent, x.bytes + stream, closed) && e.Receive? && InBuffer(e, x)
    requires 0 <= x.r < e.n ==> closed && stream == []
    ensures Accounted(es + [e], xs + [x], sent, stream, closed)
  {
    hide Moves, Flat, ShortAtEnd, InBuffer;
    MovesMore(es, xs, e, x);
    Regroup(Flat(Moves(es, xs, false)), x.bytes, stream);
    assert AllRead(es + [e], xs + [x]) || !(0 <= x.r < e.n) by {
      assert Close in es ==> Close in es + [e];
    }
    ShortMore(es, xs, e, x);
    AllInBuffer(es, xs, e, x);
  }

  lemma Regroup(a: seq<Byte>, b: seq<Byte>, c: seq<Byte>)
    ensures a + (b + c) == a + b + c && a + [] == a
  {
  }

  lemma ShortMore(es: seq<Event>, xs: seq<Returned>, e: Event, x: Returned)
    requires ShortAtEnd(es, xs) && (e.Receive? && 0 <= x.r < e.n ==> AllRead(es + [e], xs + [x]))
    ensures ShortAtEnd(es + [e], xs + [x])
  {
    hide AllRead;
    var es2, xs2 := es + [e], xs + [x];
    forall i | 0 <= i < |es2| && es2[i].Receive? && 0 <= xs2[i].r < es2[i].n
      ensures AllRead(es2[..i + 1], xs2[..i + 1])
    {
      if i < |es| {
        assert es2[..i + 1] == es[..i + 1] && xs2[..i + 1] == xs[..i + 1];
      } else {
        assert es2[..i + 1] == es2 && xs2[..i + 1] == xs2;
      }
    }
  }

  /** `st_write` at one end and `st_read_fully` at the other, in any order and number, with
      any sizes, short writes and reads, arrivals and errors: what the reader finds in its
      buffers, one after the other, is a prefix of what was taken from the buffers of the
      writer, and what is missing has arrived or is on the way.  If the reader asks for the
      sizes that were written, it gets the very messages. */
  method Converse(w: Process, r: Process, events: seq<Event>) returns (results: seq<Returned>)
    requires w != r && w.sent == [] && r.Stream() == [] && !r.closed
    modifies w, r
    ensures |results| == |events| && Conserved(w, r, events, results)
    ensures var ins, outs := Moves(events, results, true), Moves(events, results, false);
            && Flat(outs) <= Flat(ins)
            && (|outs| <= |ins| && (forall i :: 0 <= i < |outs| ==> |outs[i]| == |ins[i]|) ==> outs == ins[..|outs|])
  {
    results := [];
    var i := 0;
    while i < |events|
      invariant 0 <= i == |results| <= |events| && Conserved(w, r, events[..i], results)
    {
      var x := Turn(w, r, events[i], events[..i], results);
      assert events[..i + 1] == events[..i] + [events[i]];
      results := results + [x];
      i := i + 1;
    }
    assert events[..i] == events;
    ghost var ins, outs := Moves(events, results, true), Moves(events, results, false);
    if |outs| <= |ins| && (forall i :: 0 <= i < |outs| ==> |outs[i]| == |ins[i]|) {
      WholeMessages(ins, outs);
    }
  }

  /** One event. */
  method Turn(w: Process, r: Process, e: Event, ghost es: seq<Event>, ghost xs: seq<Returned>) returns (x: Returned)
    requires w != r && Conserved(w, r, es, xs)
    modifies w, r
    ensures Conserved(w, r, es + [e], xs + [x])
  {
    hide Conserved;
    match e {
      case Send(m, src, n) => x := SendTurn(w, r, m, src, n, es, xs);
      case Receive(m, dst, n, carries) => x := ReceiveTurn(w, r, m, dst, n, carries, es, xs);
      case Close => x := CloseTurn(w, r, es, xs);
    }
  }

  method SendTurn(w: Process, r: Process, m: Memory, src: int, n: nat, ghost es: seq<Event>, ghost xs: seq<Returned>)
      returns (x: Returned)
    requires w != r && Conserved(w, r, es, xs)
    modifies w, r
    ensures Conserved(w, r, es + [Send(m, src, n)], xs + [x])
  {
    hide Gather, Accounted, InBuffer;
    ghost var e, sent, stream := Send(m, src, n), w.sent, r.Stream();
    if r.closed {
      x := Returned(-1, [], m);
      NothingSent(m, src, n);
    } else {
      w.mem := m;
      var before := |w.sent|;
      var ret := w.Write(src, n);
      x := Returned(ret, w.sent[before..], m);
      Regroup(r.incoming, r.onWay, x.bytes);
      r.onWay := r.onWay + x.bytes;
      SentBytes(m, src, n, ret, sent, w.sent);
    }
    assert r.Stream() == stream + x.bytes && w.sent == sent + x.bytes;
    SendAccounted(es, xs, e, x, sent, stream, r.closed);
  }

  method ReceiveTurn(w: Process, r: Process, m: Memory, dst: int, n: nat, carries: seq<nat>,
                     ghost es: seq<Event>, ghost xs: seq<Returned>)
      returns (x: Returned)
    requires w != r && Conserved(w, r, es, xs)
    modifies r
    ensures Conserved(w, r, es + [Receive(m, dst, n, carries)], xs + [x])
  {
    hide Gather, Scatter, Accounted, InBuffer;
    ghost var e, sent, stream := Receive(m, dst, n, carries), w.sent, r.Stream();
    r.mem, r.carries := m, carries;
    var before := |r.Stream()|;
    var ret := r.ReadFully(dst, n);
    var k := before - |r.Stream()|;
    x := Returned(ret, Gather(r.mem, Range(dst, k)), r.mem);
    ReadBack(m, dst, n, carries, ret, stream, k, r.mem);
    ReceiveAccounted(es, xs, e, x, sent, r.Stream(), r.closed);
  }

  method CloseTurn(w: Process, r: Process, ghost es: seq<Event>, ghost xs: seq<Returned>) returns (x: Returned)
    requires w != r && Conserved(w, r, es, xs)
    modifies r
    ensures Conserved(w, r, es + [Close], xs + [x])
  {
    hide Accounted;
    ghost var sent, stream, closed := w.sent, r.Stream(), r.closed;
    r.closed := true;
    x := Returned(0, [], map[]);
    assert sent + [] == sent && stream + [] == stream;
    SendAccounted(es, xs, Close, x, sent, stream, closed);
  }

  lemma AllInBuffer(es: seq<Event>, xs: seq<Returned>, e: Event, x: Returned)
    requires |es| == |xs| && (forall i :: 0 <= i < |es| ==> InBuffer(es[i], xs[i])) && InBuffer(e, x)
    ensures forall i :: 0 <= i < |es + [e]| ==> InBuffer((es + [e])[i], (xs + [x])[i])
    ensures Close in es + [e] <==> Close in es || e == Close
  {
    hide InBuffer;
  }

  /** What was stored from the stream is found in the buffer. */
  lemma ReadBack(m: Memory, dst: int, n: nat, carries: seq<nat>, r: int, stream: seq<Byte>, k: nat, after: Memory)
    requires k <= |stream| && k <= n && (r == k || r == -1) && after == Scatter(m, Range(dst, k), stream[..k])
    ensures Gather(after, Range(dst, k)) == stream[..k] && stream == stream[..k] + stream[k..]
    ensures InBuffer(Receive(m, dst, n, carries), Returned(r, stream[..k], after))
  {
    ScatterRange(m, dst, stream[..k]);
  }

  /** What was sent comes from the buffer. */
  lemma SentBytes(m: Memory, src: int, n: nat, r: int, before: seq<Byte>, after: seq<Byte>)
    requires r == n || r == -1
    requires exists k: nat :: k <= n && after == before + Gather(m, Range(src, k)) && (r == n ==> k == n) && (r == -1 && n > 0 ==> k < n)
    ensures |before| <= |after| && after == before + after[|before|..]
    ensures InBuffer(Send(m, src, n), Returned(r, after[|before|..], m))
  {
    hide Gather;
    var k: nat :| k <= n && after == before + Gather(m, Range(src, k)) && (r == n ==> k == n) && (r == -1 && n > 0 ==> k < n);
    assert after[|before|..] == Gather(m, Range(src, k));
  }

  lemma NothingSent(m: Memory, src: int, n: nat)
    ensures InBuffer(Send(m, src, n), Returned(-1, [], m))
  {
    assert Gather(m, Range(src, 0)) == [];
  }

  /** Pieces of the same sizes with the same bytes are the same pieces. */
  lemma {:induction false} WholeMessages(sent: seq<seq<Byte>>, got: seq<seq<Byte>>)
    requires |got| <= |sent| && forall i :: 0 <= i < |got| ==> |got[i]| == |sent[i]|
    requires Flat(got) <= Flat(sent)
    ensures got == sent[..|got|]
  {
    if got == [] {
      assert sent[..0] == [];
    } else {
      var n := |got[0]|;
      assert Flat(sent)[..n] == sent[0] && Flat(sent)[n..] == Flat(sent[1..]);
      assert Flat(got)[..n] == got[0] && Flat(got)[n..] == Flat(got[1..]);
      assert got[0] == sent[0] by { assert Flat(got)[..n] == Flat(sent)[..n]; }
      WholeMessages(sent[1..], got[1..]);
      assert got == [got[0]] + got[1..] && sent[..|got|] == [sent[0]] + sent[1..][..|got| - 1];
    }
  }
}
