/** The timeout heap of sched.c as a sequence: the node numbered i of the tree is
    element i - 1.  `Insert` and `Delete` follow the index paths that the pointer code
    walks, and the lemmas below say what the walks achieve. */
module HeapModel {

  datatype Sleeper<T> = Sleeper(who: T, due: int)

  type Image<T> = seq<Sleeper<T>>

  /** `x >> k`, one place at a time. */
  function Shr(x: nat, k: nat): nat {
    if k == 0 then x else Shr(x, k - 1) / 2
  }

  /** The element numbered i. */
  function At<T>(h: Image<T>, i: nat): Sleeper<T>
    requires 1 <= i <= |h|
  {
    h[i - 1]
  }

  function Put<T>(h: Image<T>, i: nat, x: Sleeper<T>): Image<T>
    requires 1 <= i <= |h| + 1
  {
    if i == |h| + 1 then h + [x] else h[i - 1 := x]
  }

  /** Every node is due no earlier than its parent. */
  ghost predicate Ordered<T>(h: Image<T>) {
    forall i :: 2 <= i <= |h| ==> At(h, i / 2).due <= At(h, i).due
  }

  ghost predicate DistinctWho<T>(h: Image<T>) {
    forall i, j :: 0 <= i < j < |h| ==> h[i].who != h[j].who
  }

  /** The element that `heap_insert` carries when it reaches slot k on its way down:
      the one due latest among x and the proper ancestors of k. */
  function Carry<T>(h: Image<T>, x: Sleeper<T>, k: nat): Sleeper<T>
    requires 1 <= k <= |h| + 1
  {
    if k == 1 then x
    else
      var c := Carry(h, x, k / 2);
      if c.due < At(h, k / 2).due then At(h, k / 2) else c
  }

  /** The tree when `heap_insert` reaches slot k: each proper ancestor of k has been
      exchanged for the carried element where that one is due earlier. */
  function Path<T>(h: Image<T>, x: Sleeper<T>, k: nat): (p: Image<T>)
    requires 1 <= k <= |h| + 1
    ensures |p| == |h|
    ensures forall i :: k <= i <= |h| ==> At(p, i) == At(h, i)
  {
    if k == 1 then h
    else
      var a := k / 2;
      var c := Carry(h, x, a);
      if c.due < At(h, a).due then Put(Path(h, x, a), a, c) else Path(h, x, a)
  }

  /** `heap_insert` of x with heap_index k. */
  function InsertAt<T>(h: Image<T>, x: Sleeper<T>, k: nat): (r: Image<T>)
    requires 1 <= k <= |h| + 1
    ensures |r| == if k == |h| + 1 then |h| + 1 else |h|
  {
    Put(Path(h, x, k), k, Carry(h, x, k))
  }

  /** `_st_add_sleep_q`: insert at the first free index. */
  function Insert<T>(h: Image<T>, x: Sleeper<T>): Image<T> {
    InsertAt(h, x, |h| + 1)
  }

  /** The child that the sift-down loop of `heap_delete` compares with node k. */
  function Younger<T>(h: Image<T>, k: nat): (y: nat)
    requires 1 <= k && 2 * k <= |h|
    ensures y == 2 * k || y == 2 * k + 1
    ensures y <= |h|
  {
    if 2 * k + 1 > |h| || At(h, 2 * k).due < At(h, 2 * k + 1).due then 2 * k else 2 * k + 1
  }

  /** One exchange of the sift-down loop: node k with its earlier due child. */
  function Rotated<T>(h: Image<T>, k: nat): (g: Image<T>)
    requires 1 <= k && 2 * k <= |h|
    ensures |g| == |h|
  {
    var y := Younger(h, k);
    Put(Put(h, k, At(h, y)), y, At(h, k))
  }

  /** The sift-down loop of `heap_delete`. */
  function SiftDown<T>(h: Image<T>, k: nat): (r: Image<T>)
    requires 1 <= k <= |h|
    ensures |r| == |h|
    decreases |h| - k
  {
    if 2 * k > |h| then h
    else
      var y := Younger(h, k);
      if At(h, k).due > At(h, y).due
      then SiftDown(Rotated(h, k), y)
      else h
  }

  /** `heap_delete` of the node numbered k. */
  function Delete<T>(h: Image<T>, k: nat): (r: Image<T>)
    requires 1 <= k <= |h|
    ensures |r| == |h| - 1
  {
    var n := |h|;
    var short := h[..n - 1];
    if k == n then short else SiftDown(InsertAt(short, h[n - 1], k), k)
  }

  // ---- order ----

  lemma {:induction false} PathOrdered<T>(h: Image<T>, x: Sleeper<T>, k: nat)
    requires Ordered(h) && 1 <= k <= |h| + 1
    ensures var p := Path(h, x, k);
            Ordered(p) && (k > 1 ==> At(p, k / 2).due <= Carry(h, x, k).due)
    ensures forall i :: 1 <= i <= |h| ==> At(Path(h, x, k), i).due <= At(h, i).due
  {
    if k > 1 {
      PathOrdered(h, x, k / 2);
    }
  }

  /** In a heap no sleeper is due before the root. */
  lemma {:induction false} RootIsMinimum<T>(h: Image<T>, i: nat)
    requires Ordered(h) && 1 <= i <= |h|
    ensures At(h, 1).due <= At(h, i).due
  {
    if i > 1 {
      RootIsMinimum(h, i / 2);
    }
  }

  /** Ordered except that node k may be due after its children; the parent of k is
      still due no later than those children. */
  ghost predicate OrderedBelow<T>(h: Image<T>, k: nat) {
    && 1 <= k <= |h|
    && (forall i :: 2 <= i <= |h| && i / 2 != k ==> At(h, i / 2).due <= At(h, i).due)
    && (forall i :: 2 <= i <= |h| && i / 2 == k && k > 1 ==> At(h, k / 2).due <= At(h, i).due)
  }

  lemma RotatedOrdered<T>(h: Image<T>, k: nat)
    requires OrderedBelow(h, k) && 2 * k <= |h| && At(h, k).due > At(h, Younger(h, k)).due
    ensures OrderedBelow(Rotated(h, k), Younger(h, k))
  {
    var y, g := Younger(h, k), Rotated(h, k);
    assert At(g, k) == At(h, y) && At(g, y) == At(h, k);
    assert forall i :: 1 <= i <= |h| && i != k && i != y ==> At(g, i) == At(h, i);
    forall i | 2 <= i <= |g| && i / 2 != y
      ensures At(g, i / 2).due <= At(g, i).due
    {
      if i != k && i / 2 != k {
        assert At(h, i / 2).due <= At(h, i).due;
      }
    }
    forall i | 2 <= i <= |g| && i / 2 == y
      ensures At(g, y / 2).due <= At(g, i).due
    {
      assert At(h, i / 2).due <= At(h, i).due;
    }
  }

  lemma {:induction false} SiftDownOrdered<T>(h: Image<T>, k: nat)
    requires OrderedBelow(h, k)
    ensures Ordered(SiftDown(h, k))
    decreases |h| - k
  {
    if 2 * k <= |h| && At(h, k).due > At(h, Younger(h, k)).due {
      RotatedOrdered(h, k);
      SiftDownOrdered(Rotated(h, k), Younger(h, k));
    }
  }

  // ---- contents ----

  lemma PutContents<T>(h: Image<T>, i: nat, x: Sleeper<T>)
    requires 1 <= i <= |h|
    ensures multiset(Put(h, i, x)) == multiset(h) - multiset{At(h, i)} + multiset{x}
  {
  }

  lemma {:induction false} PathContents<T>(h: Image<T>, x: Sleeper<T>, k: nat)
    requires 1 <= k <= |h| + 1
    ensures multiset(Path(h, x, k)) + multiset{Carry(h, x, k)} == multiset(h) + multiset{x}
  {
    if k > 1 {
      PathContents(h, x, k / 2);
    }
  }

  lemma {:induction false} SiftDownContents<T>(h: Image<T>, k: nat)
    requires 1 <= k <= |h|
    ensures multiset(SiftDown(h, k)) == multiset(h) && |SiftDown(h, k)| == |h|
    decreases |h| - k
  {
    if 2 * k <= |h| {
      var y := Younger(h, k);
      if At(h, k).due > At(h, y).due {
        SiftDownContents(Rotated(h, k), y);
      }
    }
  }

  lemma AppendOrdered<T>(p: Image<T>, c: Sleeper<T>)
    requires Ordered(p) && (p != [] ==> At(p, (|p| + 1) / 2).due <= c.due)
    ensures Ordered(p + [c])
  {
    forall i | 2 <= i <= |p| + 1
      ensures At(p + [c], i / 2).due <= At(p + [c], i).due
    {
      assert i <= |p| ==> At(p, i / 2).due <= At(p, i).due;
    }
  }

  /** `_st_add_sleep_q` keeps the order and adds exactly x. */
  lemma InsertCorrect<T>(h: Image<T>, x: Sleeper<T>)
    requires Ordered(h)
    ensures Ordered(Insert(h, x))
    ensures multiset(Insert(h, x)) == multiset(h) + multiset{x}
  {
    var k := |h| + 1;
    var p, c := Path(h, x, k), Carry(h, x, k);
    assert Ordered(p) && (k > 1 ==> At(p, k / 2).due <= c.due) by {
      PathOrdered(h, x, k);
    }
    AppendOrdered(p, c);
    PathContents(h, x, k);
    assert Insert(h, x) == p + [c];
  }

  lemma PutOrdered<T>(p: Image<T>, k: nat, c: Sleeper<T>)
    requires Ordered(p) && 1 <= k <= |p|
    requires k > 1 ==> At(p, k / 2).due <= c.due
    ensures OrderedBelow(Put(p, k, c), k)
  {
    forall i | 2 <= i <= |p| && i / 2 == k && k > 1
      ensures At(p, k / 2).due <= At(p, i).due
    {
      assert At(p, k / 2).due <= At(p, k).due;
    }
  }

  /** Re-inserting x in place of node k: the order may fail only between k and its
      children, and x takes the place of node k in the contents. */
  lemma ReplaceCorrect<T>(h: Image<T>, x: Sleeper<T>, k: nat)
    requires Ordered(h) && 1 <= k <= |h|
    ensures OrderedBelow(InsertAt(h, x, k), k)
    ensures multiset(InsertAt(h, x, k)) == multiset(h) + multiset{x} - multiset{At(h, k)}
  {
    var p, c := Path(h, x, k), Carry(h, x, k);
    assert Ordered(p) && (k > 1 ==> At(p, k / 2).due <= c.due) by {
      PathOrdered(h, x, k);
    }
    PutOrdered(p, k, c);
    PathContents(h, x, k);
    PutContents(p, k, c);
  }

  lemma ShortOrdered<T>(h: Image<T>)
    requires Ordered(h) && h != []
    ensures Ordered(h[..|h| - 1])
  {
    assert forall i :: 1 <= i < |h| ==> At(h[..|h| - 1], i) == At(h, i);
  }

  /** `heap_delete` keeps the order and removes exactly node k, wherever it is. */
  lemma DeleteCorrect<T>(h: Image<T>, k: nat)
    requires Ordered(h) && 1 <= k <= |h|
    ensures Ordered(Delete(h, k))
    ensures multiset(Delete(h, k)) == multiset(h) - multiset{At(h, k)}
  {
    var n := |h|;
    var short, x := h[..n - 1], h[n - 1];
    assert h == short + [x];
    ShortOrdered(h);
    if k < n {
      assert At(short, k) == At(h, k);
      ReplaceCorrect(short, x, k);
      SiftDownOrdered(InsertAt(short, x, k), k);
      SiftDownContents(InsertAt(short, x, k), k);
    }
  }
}
