/** The queues of the scheduler as sequences of thread numbers, and the timeout heap as a
    set of threads: what linking and unlinking a thread does to them. */
module SchedQueues {
  import opened HeapModel
  import opened Epoll

  ghost predicate NoDup(q: seq<nat>) {
    forall i, j :: 0 <= i < j < |q| ==> q[i] != q[j]
  }

  /** The queue after unlinking t. */
  function Without(q: seq<nat>, t: nat): (r: seq<nat>)
    ensures forall u :: u in r <==> u in q && u != t
    ensures NoDup(q) ==> NoDup(r)
  {
    if q == [] then []
    else
      var n := |q| - 1;
      var r := Without(q[..n], t);
      assert q == q[..n] + [q[n]];
      assert NoDup(q) ==> NoDup(q[..n]) && q[n] !in q[..n];
      if q[n] == t then r else r + [q[n]]
  }

  /** Unlinking cuts out exactly that one; the others stay in order. */
  lemma {:induction false} WithoutCuts(q: seq<nat>, t: nat) returns (k: nat)
    requires NoDup(q)
    ensures if t in q then k < |q| && q[k] == t && Without(q, t) == q[..k] + q[k + 1..] else Without(q, t) == q
  {
    hide Without, NoDup;
    k := 0;
    if q == [] {
      WithoutNone(t);
    } else {
      var n := |q| - 1;
      assert q == q[..n] + [q[n]];
      WithoutNext(q, t);
      LastIsNew(q[..n], q[n]);
      k := WithoutCuts(q[..n], t);
      if q[n] == t {
        k := n;
      } else if t in q {
        assert q[..n][..k] == q[..k] && q[..n][k + 1..] + [q[n]] == q[k + 1..];
      }
    }
  }

  lemma WithoutNone(t: nat)
    ensures Without([], t) == []
  {
  }

  lemma WithoutNext(q: seq<nat>, t: nat)
    requires q != []
    ensures var n := |q| - 1; Without(q, t) == Without(q[..n], t) + if q[n] == t then [] else [q[n]]
  {
    var r := Without(q[..|q| - 1], t);
    assert r + [] == r;
  }

  function Threads(q: seq<Pollq>): (r: seq<nat>) {
    if q == [] then [] else Threads(q[..|q| - 1]) + [q[|q| - 1].thread]
  }

  /** The I/O queue after unlinking the request of t. */
  function WithoutPoll(q: seq<Pollq>, t: nat): (r: seq<Pollq>)
    ensures Threads(r) == Without(Threads(q), t)
  {
    if q == [] then []
    else
      var n := |q| - 1;
      var r := WithoutPoll(q[..n], t);
      assert Threads(q)[..|Threads(q)| - 1] == Threads(q[..n]);
      if q[n].thread == t then r
      else
        assert (r + [q[n]])[..|r|] == r;
        r + [q[n]]
  }

  lemma LastIsNew(q: seq<nat>, t: nat)
    requires NoDup(q + [t])
    ensures NoDup(q) && t !in q
  {
    var r := q + [t];
    assert forall i :: 0 <= i < |q| ==> r[i] == q[i] && r[i] != r[|q|];
  }

  lemma {:induction false} ThreadsAt(q: seq<Pollq>)
    ensures |Threads(q)| == |q| && forall i :: 0 <= i < |q| ==> Threads(q)[i] == q[i].thread
  {
    if q != [] { ThreadsAt(q[..|q| - 1]); }
  }

  lemma WithoutLast(q: seq<Pollq>, t: nat)
    requires q != []
    ensures var n := |q| - 1;
            WithoutPoll(q, t) == WithoutPoll(q[..n], t) + if q[n].thread == t then [] else [q[n]]
  {
    var r := WithoutPoll(q[..|q| - 1], t);
    assert r + [] == r;
  }

  lemma ThreadsLast(q: seq<Pollq>)
    requires q != []
    ensures Threads(q) == Threads(q[..|q| - 1]) + [q[|q| - 1].thread]
  {
  }

  /** Unlinking the request of t cuts out exactly that one; the others stay as they are,
      in order. */
  lemma {:induction false} WithoutPollCuts(q: seq<Pollq>, t: nat) returns (k: nat)
    requires NoDup(Threads(q)) && t in Threads(q)
    ensures k < |q| && q[k].thread == t && WithoutPoll(q, t) == q[..k] + q[k + 1..]
  {
    hide NoDup, WithoutPoll;
    ThreadsAt(q);
    var n := |q| - 1;
    ThreadsLast(q);
    WithoutLast(q, t);
    LastIsNew(Threads(q[..n]), q[n].thread);
    if q[n].thread == t {
      k := n;
      NotThere(q[..n], t);
    } else {
      k := WithoutPollCuts(q[..n], t);
      assert q[..n][..k] == q[..k] && q[..n][k + 1..] + [q[n]] == q[k + 1..];
    }
  }

  lemma {:induction false} NotThere(q: seq<Pollq>, t: nat)
    requires t !in Threads(q)
    ensures WithoutPoll(q, t) == q
  {
    hide WithoutPoll;
    if q == [] {
      NoneLeft(t);
    } else {
      var n := |q| - 1;
      ThreadsLast(q);
      WithoutLast(q, t);
      NotThere(q[..n], t);
      assert q == q[..n] + [q[n]];
    }
  }

  lemma NoneLeft(t: nat)
    ensures WithoutPoll([], t) == []
  {
  }

  predicate OnHeap(h: Image<nat>, t: nat) {
    exists i :: 0 <= i < |h| && h[i].who == t
  }

  /** The heap_index of t. */
  function IndexOf(h: Image<nat>, t: nat): (k: nat)
    requires OnHeap(h, t)
    ensures 1 <= k <= |h| && h[k - 1].who == t
  {
    var n := |h| - 1;
    if h[n].who == t then |h|
    else
      assert OnHeap(h[..n], t) by {
        var i :| 0 <= i < |h| && h[i].who == t;
        assert h[..n][i].who == t;
      }
      IndexOf(h[..n], t)
  }

  function HeapWithout(h: Image<nat>, t: nat): Image<nat> {
    if OnHeap(h, t) then Delete(h, IndexOf(h, t)) else h
  }

  lemma HeapAdd(h: Image<nat>, t: nat, due: int)
    requires Ordered(h) && DistinctWho(h) && !OnHeap(h, t)
    ensures var g := Insert(h, Sleeper(t, due));
            && Ordered(g) && DistinctWho(g) && forall u :: OnHeap(g, u) <==> u == t || OnHeap(h, u)
  {
    var hx := h + [Sleeper(t, due)];
    InsertCorrect(h, Sleeper(t, due));
    assert hx[|h|].who == t;
    forall u
      ensures OnHeap(hx, u) <==> u == t || OnHeap(h, u)
    {
      if OnHeap(h, u) { var i :| 0 <= i < |h| && h[i].who == u; assert hx[i].who == u; }
    }
    SameEntries(hx, Insert(h, Sleeper(t, due)));
  }

  lemma HeapDel(h: Image<nat>, k: nat)
    requires Ordered(h) && DistinctWho(h) && 1 <= k <= |h|
    ensures var g := Delete(h, k);
            && Ordered(g) && DistinctWho(g) && forall u :: OnHeap(g, u) <==> u != h[k - 1].who && OnHeap(h, u)
  {
    DeleteCorrect(h, k);
    OthersOnHeap(h, k);
    SameEntries(h[..k - 1] + h[k..], Delete(h, k));
  }

  lemma OthersOnHeap(h: Image<nat>, k: nat)
    requires DistinctWho(h) && 1 <= k <= |h|
    ensures var rest := h[..k - 1] + h[k..];
            && DistinctWho(rest) && multiset(rest) == multiset(h) - multiset{At(h, k)}
            && forall u :: OnHeap(rest, u) <==> u != h[k - 1].who && OnHeap(h, u)
  {
    hide OnHeap;
    var rest := h[..k - 1] + h[k..];
    assert multiset(rest) == multiset(h) - multiset{At(h, k)} by {
      assert h == h[..k - 1] + [h[k - 1]] + h[k..];
    }
    RestAt(h, k);
    forall u
      ensures OnHeap(rest, u) <==> u != h[k - 1].who && OnHeap(h, u)
    {
      OtherOnHeap(h, k, u);
    }
  }

  lemma RestAt(h: Image<nat>, k: nat)
    requires 1 <= k <= |h|
    ensures var rest := h[..k - 1] + h[k..]; forall i :: 0 <= i < |rest| ==> rest[i] == h[if i < k - 1 then i else i + 1]
  {
  }

  lemma OtherOnHeap(h: Image<nat>, k: nat, u: nat)
    requires DistinctWho(h) && 1 <= k <= |h|
    ensures OnHeap(h[..k - 1] + h[k..], u) <==> u != h[k - 1].who && OnHeap(h, u)
  {
    var rest := h[..k - 1] + h[k..];
    if OnHeap(rest, u) {
      var i :| 0 <= i < |rest| && rest[i].who == u;
      assert h[if i < k - 1 then i else i + 1].who == u;
    }
    if u != h[k - 1].who && OnHeap(h, u) {
      var i :| 0 <= i < |h| && h[i].who == u;
      assert rest[if i < k - 1 then i else i - 1].who == u;
    }
  }

  lemma {:induction false} AtMostOnce(h: Image<nat>, x: Sleeper<nat>)
    requires DistinctWho(h)
    ensures multiset(h)[x] <= 1
    ensures x in multiset(h) ==> OnHeap(h, x.who)
  {
    if h != [] {
      var n := |h| - 1;
      assert h == h[..n] + [h[n]];
      AtMostOnce(h[..n], x);
      if OnHeap(h[..n], x.who) {
        var i :| 0 <= i < n && h[..n][i].who == x.who;
        assert h[i].who == x.who;
      }
    }
  }

  /** Rearranging a heap with one entry a thread keeps that and its threads. */
  lemma SameEntries(h: Image<nat>, g: Image<nat>)
    requires DistinctWho(h) && multiset(h) == multiset(g)
    ensures DistinctWho(g) && forall u :: OnHeap(g, u) <==> OnHeap(h, u)
  {
    forall i, j | 0 <= i < j < |g|
      ensures g[i].who != g[j].who
    {
      if g[i].who == g[j].who {
        Twice(g, i, j);
        assert g[i] in multiset(h) && g[j] in multiset(h);
        var a :| 0 <= a < |h| && h[a] == g[i];
        var b :| 0 <= b < |h| && h[b] == g[j];
        assert a == b;
        AtMostOnce(h, g[i]);
      }
    }
    forall u
      ensures OnHeap(g, u) <==> OnHeap(h, u)
    {
      if OnHeap(g, u) {
        var i :| 0 <= i < |g| && g[i].who == u;
        assert g[i] in multiset(h);
      }
      if OnHeap(h, u) {
        var i :| 0 <= i < |h| && h[i].who == u;
        assert h[i] in multiset(g);
      }
    }
  }

  lemma Twice(g: Image<nat>, i: nat, j: nat)
    requires i < j < |g|
    ensures g[i] == g[j] ==> multiset(g)[g[i]] >= 2
  {
    assert g == g[..j] + [g[j]] + g[j + 1..];
    assert g[..j][i] == g[i];
    assert g[i] in multiset(g[..j]);
  }
}
