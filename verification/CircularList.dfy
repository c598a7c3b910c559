/** The circular lists of common.h: links joined by `next` and `prev`.  A ghost sequence
    names the links of one ring in order, the list head first, so that the rest of the
    project may use sequences for the run, I/O, zombie, wait and free-stack queues. */
module CircularList {

  class Link {
    var next: Link?
    var prev: Link?

    constructor ()
      ensures next == null && prev == null
    {
      next, prev := null, null;
    }
  }

  function Succ(n: nat, i: nat): nat { if i + 1 < n then i + 1 else 0 }

  function Pred(n: nat, i: nat): nat { if i > 0 then i - 1 else if n > 0 then n - 1 else 0 }

  ghost predicate Joined(r: seq<Link>, i: nat)
    requires i < |r|
    reads r[i]
  {
    r[i].next == r[Succ(|r|, i)] && r[i].prev == r[Pred(|r|, i)]
  }

  /** r lists a whole ring in the order of `next`. */
  ghost predicate Ring(r: seq<Link>)
    reads r
  {
    && r != []
    && (forall i, j :: 0 <= i < j < |r| ==> r[i] != r[j])
    && (forall i :: 0 <= i < |r| ==> Joined(r, i))
  }

  /** A place in a ring: after element k, where e is put. */
  datatype Site = Site(ring: seq<Link>, k: nat, e: Link)
  {
    ghost predicate Valid() { k < |ring| && e !in ring }

    ghost function Put(): seq<Link>
      requires Valid()
    {
      ring[..k + 1] + [e] + ring[k + 1..]
    }
  }

  lemma PutAt(s: Site, i: nat)
    requires s.Valid() && i <= |s.ring|
    ensures s.Put()[i] == if i <= s.k then s.ring[i] else if i == s.k + 1 then s.e else s.ring[i - 1]
  {
  }

  /** Once e and its two neighbours point at each other, e is in the ring. */
  twostate lemma Inserted(s: Site)
    requires s.Valid() && old(Ring(s.ring))
    requires var r := s.ring; var a, b := r[s.k], r[Succ(|r|, s.k)];
             && s.e.prev == a && s.e.next == b && a.next == s.e && b.prev == s.e
             && (a != b ==> a.prev == old(a.prev) && b.next == old(b.next))
    requires forall n :: n in s.ring && n != s.ring[s.k] && n != s.ring[Succ(|s.ring|, s.k)] ==>
               n.next == old(n.next) && n.prev == old(n.prev)
    ensures Ring(s.Put())
  {
    var r, q := s.ring, s.Put();
    forall i | 0 <= i < |q|
      ensures Joined(q, i)
    {
      PutAt(s, i);
      PutAt(s, Succ(|q|, i));
      PutAt(s, Pred(|q|, i));
      if i != s.k + 1 {
        var j := if i <= s.k then i else i - 1;
        assert old(Joined(r, j));
      }
    }
    forall i, j | 0 <= i < j < |q|
      ensures q[i] != q[j]
    {
      PutAt(s, i);
      PutAt(s, j);
    }
  }

  /** ST_INIT_CLIST */
  method InitClist(l: Link)
    modifies l
    ensures Ring([l])
  {
    l.next := l;
    l.prev := l;
  }

  /** ST_INSERT_AFTER: `e` follows `l`, which is element k of the ring. */
  method InsertAfter(e: Link, l: Link, ghost r: seq<Link>, ghost k: nat)
    requires Ring(r) && k < |r| && l == r[k] && e !in r
    modifies e, r
    ensures Ring(r[..k + 1] + [e] + r[k + 1..])
  {
    assert Joined(r, k) && Joined(r, Succ(|r|, k));
    e.next := l.next;
    e.prev := l;
    l.next.prev := e;
    l.next := e;
    Inserted(Site(r, k, e));
  }

  /** ST_INSERT_BEFORE: `e` precedes `l`; before the list head is the end of the list. */
  method InsertBefore(e: Link, l: Link, ghost r: seq<Link>, ghost k: nat)
    requires Ring(r) && k < |r| && l == r[k] && e !in r
    modifies e, r
    ensures Ring(if k == 0 then r + [e] else r[..k] + [e] + r[k..])
  {
    ghost var j := Pred(|r|, k);
    assert Joined(r, k) && Joined(r, j);
    e.next := l;
    e.prev := l.prev;
    l.prev.next := e;
    l.prev := e;
    Inserted(Site(r, j, e));
    PutBefore(r, k, e);
  }

  lemma PutBefore(r: seq<Link>, k: nat, e: Link)
    requires k < |r| && e !in r
    ensures Site(r, Pred(|r|, k), e).Put() == if k == 0 then r + [e] else r[..k] + [e] + r[k..]
  {
  }

  ghost function Without(r: seq<Link>, k: nat): seq<Link>
    requires k < |r|
  {
    r[..k] + r[k + 1..]
  }

  /** ST_REMOVE_LINK: the removed link keeps its own pointers, so that a loop standing on
      it still finds the element that followed it. */
  method RemoveLink(e: Link, ghost r: seq<Link>, ghost k: nat)
    requires Ring(r) && 1 <= k < |r| && e == r[k]
    modifies r
    ensures Ring(Without(r, k))
    ensures e.next == old(e.next) && e.prev == old(e.prev)
    ensures e.next == if k + 1 < |r| then Without(r, k)[k] else r[0]
  {
    hide Without;
    assert Joined(r, k) && Joined(r, k - 1) && Joined(r, Succ(|r|, k));
    e.prev.next := e.next;
    e.next.prev := e.prev;
    ghost var q := Without(r, k);
    WithoutAt(r, k);
    forall i | 0 <= i < |q|
      ensures Joined(q, i)
    {
      Neighbours(r, k, i);
      assert old(Joined(r, if i < k then i else i + 1));
    }
  }

  /** The neighbours of a link when element k has gone. */
  lemma Neighbours(r: seq<Link>, k: nat, i: nat)
    requires 1 <= k < |r| && i < |r| - 1
    ensures var q, n, j := Without(r, k), |r|, if i < k then i else i + 1;
            && |q| == n - 1 && q[i] == r[j]
            && q[Succ(n - 1, i)] == r[if j == k - 1 then Succ(n, k) else Succ(n, j)]
            && q[Pred(n - 1, i)] == r[if j == Succ(n, k) then k - 1 else Pred(n, j)]
  {
  }

  lemma WithoutAt(r: seq<Link>, k: nat)
    requires k < |r|
    ensures var q := Without(r, k);
            |q| == |r| - 1 && forall i :: 0 <= i < |q| ==> q[i] == r[if i < k then i else i + 1]
  {
  }
}
