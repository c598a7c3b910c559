/** The timeout heap of sched.c with its real nodes: sleeping threads linked by `left`
    and `right`, each knowing its number in the tree.  Every method is proved to do to
    the tree what HeapModel does to the sequence of its nodes. */
module TimeoutHeap {
  import opened HeapModel

  /** The part of a thread record that the timeout heap uses. */
  class Node {
    const id: nat  // the number of the thread
    var due: int
    var left: Node?
    var right: Node?
    var heapIndex: nat
    var onSleepQ: bool

    constructor (id: nat)
      ensures this.id == id && left == null && right == null && !onSleepQ
    {
      this.id := id;
      due, left, right, heapIndex, onSleepQ := 0, null, null, 0, false;
    }
  }

  /** The C pointer to a child pointer: the root variable, or one side of a node. */
  datatype Slot = Root | Child(parent: Node, right: bool)

  ghost function NodeAt(h: Image<Node>, i: nat): Node? {
    if 1 <= i <= |h| then At(h, i).who else null
  }

  /** Node i of the tree: it knows its number and points at nodes 2i and 2i + 1. */
  ghost predicate Linked(h: Image<Node>, i: nat)
    requires 1 <= i <= |h|
    reads At(h, i).who
  {
    var n := At(h, i).who;
    && n.heapIndex == i && n.due == At(h, i).due
    && n.left == NodeAt(h, 2 * i) && n.right == NodeAt(h, 2 * i + 1)
  }

  ghost function Nodes(h: Image<Node>): set<Node> {
    set i | 0 <= i < |h| :: h[i].who
  }

  ghost predicate Absent(h: Image<Node>, n: Node) {
    forall i :: 1 <= i <= |h| ==> At(h, i).who != n
  }

  ghost predicate Links(h: Image<Node>)
    reads Nodes(h)
  {
    forall i :: 1 <= i <= |h| ==> Linked(h, i)
  }

  ghost function SlotFor(h: Image<Node>, i: nat): Slot
    requires 1 <= i <= |h| + 1
  {
    if i == 1 then Root else Child(At(h, i / 2).who, i % 2 == 1)
  }

  twostate predicate Same(h: Image<Node>, i: nat)
    requires 1 <= i <= |h|
    reads At(h, i).who
  {
    var n := At(h, i).who;
    n.left == old(n.left) && n.right == old(n.right) && n.heapIndex == old(n.heapIndex) && n.due == old(n.due)
  }

  /** The parent of node k points at n there and is otherwise as it was. */
  twostate predicate Hangs(h: Image<Node>, k: nat, new n: Node?)
    requires 2 <= k <= |h| + 1
    reads At(h, k / 2).who
  {
    var o := At(h, k / 2).who;
    && o.heapIndex == old(o.heapIndex) && o.due == old(o.due)
    && if k % 2 == 1 then o.right == n && o.left == old(o.left) else o.left == n && o.right == old(o.right)
  }

  lemma NodeAlone(h: Image<Node>, k: nat)
    requires Links(h) && 1 <= k <= |h|
    ensures forall i :: 1 <= i <= |h| && i != k ==> At(h, i).who != At(h, k).who
  {
    forall i | 1 <= i <= |h| && i != k
      ensures At(h, i).who != At(h, k).who
    {
      assert Linked(h, i) && Linked(h, k);
    }
  }

  lemma AbsentMeans(h: Image<Node>, n: Node)
    ensures Absent(h, n) <==> forall s :: s in multiset(h) ==> s.who != n
  {
    if Absent(h, n) {
      forall s | s in multiset(h)
        ensures s.who != n
      {
        var j :| 0 <= j < |h| && h[j] == s;
        assert At(h, j + 1).who != n;
      }
    } else {
      var k :| 1 <= k <= |h| && At(h, k).who == n;
      assert h[k - 1] in multiset(h);
    }
  }

  /** Adding an entry concerns no other node. */
  lemma InsertMembers(h: Image<Node>, s: Sleeper<Node>, pool: set<Node>)
    requires Ordered(h)
    ensures var g := Insert(h, s);
            && Ordered(g) && multiset(g) == multiset(h) + multiset{s}
            && forall n :: n in pool ==> (Absent(g, n) <==> Absent(h, n) && n != s.who)
  {
    var g := Insert(h, s);
    InsertCorrect(h, s);
    forall n | n in pool
      ensures Absent(g, n) <==> Absent(h, n) && n != s.who
    {
      AbsentMeans(g, n);
      AbsentMeans(h, n);
    }
  }

  /** Removing the only entry of a node concerns no other node. */
  lemma DeleteMembers(h: Image<Node>, k: nat, pool: set<Node>)
    requires Ordered(h) && 1 <= k <= |h|
    ensures var g := Delete(h, k);
            && Ordered(g) && multiset(g) == multiset(h) - multiset{At(h, k)}
            && forall n :: n in pool && n != At(h, k).who ==> (Absent(g, n) <==> Absent(h, n))
  {
    var g := Delete(h, k);
    DeleteCorrect(h, k);
    assert multiset(h) == multiset(g) + multiset{At(h, k)};
    forall n | n in pool && n != At(h, k).who
      ensures Absent(g, n) <==> Absent(h, n)
    {
      AbsentMeans(g, n);
      AbsentMeans(h, n);
    }
  }

  /** `heap_insert` and `heap_delete` follow the binary digits of an index. */
  lemma ShrStep(x: nat, bit: nat)
    ensures Shr(x, bit) == 2 * Shr(x, bit + 1) + Shr(x, bit) % 2
  {
  }

  lemma {:induction false} ShrBound(x: nat, k: nat)
    ensures Shr(x, k) <= x
    ensures k > 0 ==> Shr(x, k) <= x / 2
  {
    if k > 0 {
      ShrBound(x, k - 1);
    }
  }

  lemma ShrNone(x: nat)
    ensures Shr(x, 0) == x
  {
  }

  /** The next digit leads from one index on the path of x to the next. */
  lemma ShrDown(x: nat, bit: nat, index: nat)
    requires index == Shr(x, bit + 1) && 1 <= index
    ensures var j := 2 * index + Shr(x, bit) % 2; j == Shr(x, bit) && 1 <= j <= x && (bit > 0 ==> j <= x / 2)
  {
    ShrStep(x, bit);
    ShrBound(x, bit);
  }

  method CountBits(x: nat) returns (bits: nat)
    requires x > 0
    ensures bits > 0 && Shr(x, bits - 1) == 1
  {
    var s := x;
    bits := 0;
    while s > 0
      invariant s == Shr(x, bits)
      invariant s == 0 ==> bits > 0 && Shr(x, bits - 1) == 1
    {
      s := s / 2;
      bits := bits + 1;
    }
  }

  class Heap {
    var root: Node?
    var size: nat
    ghost var image: Image<Node>
    ghost var pool: set<Node>  // every thread record there is

    /** `root` heads a tree whose node i is element i of `image`. */
    ghost predicate Tree()
      reads this, Nodes(image)
    {
      && root == NodeAt(image, 1)
      && (forall i :: 1 <= i <= |image| ==> At(image, i).who in pool)
      && Links(image)
    }

    ghost predicate Valid()
      reads this, pool, Nodes(image)
    {
      && size == |image| && Tree() && Ordered(image)
      && (forall n :: n in pool ==> (n.onSleepQ <==> !Absent(image, n)))
    }

    constructor (ghost pool: set<Node>)
      requires forall n :: n in pool ==> !n.onSleepQ
      ensures Valid() && image == [] && this.pool == pool
    {
      root, size := null, 0;
      image, this.pool := [], pool;
    }

    /** A new thread record. */
    ghost method Enlist(n: Node)
      requires Valid() && n !in pool && !n.onSleepQ
      modifies this`pool
      ensures Valid() && pool == old(pool) + {n}
    {
      assert Absent(image, n);
      pool := pool + {n};
      assert forall i :: 1 <= i <= |image| ==> Linked(image, i);
    }

    ghost function Owner(p: Slot): set<Node> {
      if p.Child? then {p.parent} else {}
    }

    /** `*p` */
    function Load(p: Slot): Node?
      reads this, if p.Child? then {p.parent} else {}
    {
      match p
      case Root => root
      case Child(n, right) => if right then n.right else n.left
    }

    /** `*p = n` */
    method Store(p: Slot, n: Node?)
      modifies this`root, Owner(p)`left, Owner(p)`right
      ensures Load(p) == n
      ensures p.Child? ==> root == old(root)
      ensures p.Child? ==> if p.right then unchanged(p.parent`left) else unchanged(p.parent`right)
    {
      match p
      case Root => root := n;
      case Child(parent, right) =>
        if right { parent.right := n; } else { parent.left := n; }
    }

    /** Writing slot k, and nothing else in the tree, links every node but k as before. */
    twostate lemma SlotWritten(k: nat)
      requires old(Links(image)) && 1 <= k <= |old(image)| + 1 && k - 1 <= |image|
      requires forall i :: 1 <= i && i != k ==> NodeAt(image, i) == NodeAt(old(image), i)
      requires forall i :: 1 <= i <= |image| && i != k ==> i <= |old(image)| && At(image, i) == At(old(image), i)
      requires k > 1 ==> Hangs(old(image), k, NodeAt(image, k))
      requires forall i :: 1 <= i <= |old(image)| && i != k && i != k / 2 ==> Same(old(image), i)
      ensures forall i :: 1 <= i <= |image| && i != k ==> Linked(image, i)
    {
      ghost var h := old(image);
      assert k > 1 ==> old(Linked(image, k / 2));
      forall i | 1 <= i <= |image| && i != k
        ensures Linked(image, i)
      {
        assert NodeAt(image, i) == NodeAt(h, i);
        assert old(Linked(image, i));
        if i != k / 2 { assert Same(h, i); }
      }
    }

    /** Exchanging node j with its parent links every node as it should be. */
    twostate lemma ParentExchanged(j: nat)
      requires old(Links(image)) && 2 <= j <= |old(image)|
      requires var h, k := old(image), j / 2; var t, y := At(h, k).who, At(h, j).who;
               && image == Put(Put(h, k, At(h, j)), j, At(h, k))
               && t.left == old(y.left) && t.right == old(y.right) && t.heapIndex == j && t.due == old(t.due)
               && y.heapIndex == k && y.due == old(y.due)
               && if j % 2 == 0 then y.left == t && y.right == old(t.right) else y.left == old(t.left) && y.right == t
      requires j / 2 > 1 ==> Hangs(old(image), j / 2, At(old(image), j).who)
      requires forall i :: 1 <= i <= |old(image)| && i != j && i != j / 2 && i != j / 2 / 2 ==> Same(old(image), i)
      ensures Links(image)
    {
      ghost var h, k := old(image), j / 2;
      assert old(Linked(image, k) && Linked(image, j));
      assert k > 1 ==> old(Linked(image, k / 2));
      forall i | 1 <= i <= |image|
        ensures Linked(image, i)
      {
        assert old(Linked(image, i));
        if i != k && i != j && i != k / 2 { assert Same(h, i); }
      }
    }

    /** Find the slot of the last node by the digits of the heap size. */
    method FindLast() returns (p: Slot)
      requires size == |image| && Tree() && image != []
      ensures p == SlotFor(image, size)
    {
      hide Shr;
      p := Root;
      var bits := CountBits(size);
      var bit: int := bits;
      bit := bit - 2;
      ghost var index := 1;
      if bit >= 0 { ShrBound(size, bit + 1); }
      while bit >= 0
        invariant -1 <= bit
        invariant index == Shr(size, bit + 1) && 1 <= index <= size
        invariant bit >= 0 ==> index <= size / 2
        invariant p == SlotFor(image, index)
      {
        ShrDown(size, bit, index);
        SlotHolds(index);
        index := 2 * index + Shr(size, bit) % 2;
        p := Child(Load(p), Shr(size, bit) % 2 == 1);
        bit := bit - 1;
      }
      ShrNone(size);
    }

    /** What the slot of a node holds. */
    lemma SlotHolds(index: nat)
      requires Tree() && 1 <= index <= |image|
      ensures Load(SlotFor(image, index)) == At(image, index).who
    {
      assert Linked(image, index) && (index > 1 ==> Linked(image, index / 2));
    }

    /** Empty the slot of the last node. */
    method UnlinkLast(p: Slot) returns (t: Node)
      requires size == |image| && Tree() && image != [] && p == SlotFor(image, size)
      modifies this`root, this`size, this`image, Owner(p)`left, Owner(p)`right
      ensures t == NodeAt(old(image), old(size)) && image == old(image[..|image| - 1])
      ensures size == |image| && Tree()
    {
      ghost var h := image;
      assert Linked(h, size) && (size > 1 ==> Linked(h, size / 2));
      t := Load(p);
      Store(p, null);
      image := h[..size - 1];
      forall i | 1 <= i <= size && i != size / 2
        ensures Same(h, i)
      {
        assert old(Linked(h, i));
      }
      assert forall i :: 1 <= i < size ==> At(image, i) == At(h, i);
      SlotWritten(size);
      size := size - 1;
    }

    /** One exchange of `heap_insert`: `thread` takes the place and the links of node
        `index`, which is carried on. */
    method Exchange(p: Slot, thread: Node, index: nat) returns (t: Node)
      requires Tree() && 1 <= index <= |image| && p == SlotFor(image, index)
      requires thread in pool && Absent(image, thread)
      modifies this`root, this`image, Owner(p)`left, Owner(p)`right
      modifies thread`left, thread`right, thread`heapIndex
      ensures |image| == |old(image)| && Tree() && t == NodeAt(old(image), index) && Absent(image, t)
      ensures image == Put(old(image), index, Sleeper(thread, thread.due))
    {
      ghost var h := image;
      SlotHolds(index);
      assert Linked(h, index);
      NodeAlone(h, index);
      t := Load(p);
      thread.left := t.left;
      thread.right := t.right;
      StillTree();
      FillSlot(p, thread, index);
      assert Linked(image, index);
      assert forall i :: 1 <= i <= |h| && i != index ==> At(image, i) == At(h, i);
    }

    /** Nodes that are not in the tree may change. */
    twostate lemma StillTree()
      requires old(Tree()) && image == old(image) && root == old(root) && pool == old(pool)
      requires forall i :: 1 <= i <= |image| ==> Same(image, i)
      ensures Tree()
    {
      forall i | 1 <= i <= |image|
        ensures Linked(image, i)
      {
        assert old(Linked(image, i)) && Same(image, i);
      }
    }

    /** `thread` takes slot k, in place of the node there if there is one. */
    method FillSlot(p: Slot, thread: Node, k: nat)
      requires Tree() && 1 <= k <= |image| + 1 && p == SlotFor(image, k)
      requires thread in pool && Absent(image, thread)
      modifies this`root, this`image, Owner(p)`left, Owner(p)`right, thread`heapIndex
      ensures image == Put(old(image), k, Sleeper(thread, thread.due))
      ensures root == NodeAt(image, 1) && forall i :: 1 <= i <= |image| ==> At(image, i).who in pool
      ensures thread.heapIndex == k && thread.left == old(thread.left) && thread.right == old(thread.right)
      ensures forall i :: 1 <= i <= |image| && i != k ==> Linked(image, i)
    {
      ghost var h := image;
      assert k > 1 ==> Linked(h, k / 2);
      thread.heapIndex := k;
      Store(p, thread);
      image := Put(h, k, Sleeper(thread, thread.due));
      forall i | 1 <= i <= |h| && i != k / 2
        ensures Same(h, i)
      {
        assert old(Linked(h, i));
      }
      SlotWritten(k);
    }

    /** The end of `heap_insert`: `thread` becomes the childless node k, replacing a
        node there if there is one. */
    method Place(p: Slot, thread: Node, k: nat)
      requires Tree() && 1 <= k <= |image| + 1 && p == SlotFor(image, k)
      requires thread in pool && Absent(image, thread)
      modifies this`root, this`image, Owner(p)`left, Owner(p)`right
      modifies thread`left, thread`right, thread`heapIndex
      ensures image == Put(old(image), k, Sleeper(thread, thread.due))
      ensures root == NodeAt(image, 1) && forall i :: 1 <= i <= |image| ==> At(image, i).who in pool
      ensures thread.heapIndex == k && thread.left == null && thread.right == null
      ensures forall i :: 1 <= i <= |image| && i != k ==> Linked(image, i)
    {
      FillSlot(p, thread, k);
      ghost var h := image;
      label L:
      thread.left, thread.right := null, null;
      forall i | 1 <= i <= |h| && i != k
        ensures Linked(h, i)
      {
        assert old@L(Linked(h, i));
      }
    }

    /** One level of the descent of `heap_insert`: `thread` is left at node `index` if it
        is due before the node there.  h and x are the tree and the thread it began with. */
    method Pass(p: Slot, thread: Node, index: nat, ghost h: Image<Node>, ghost x: Sleeper<Node>)
        returns (carried: Node)
      requires 1 <= index <= |h| && image == Path(h, x, index) && Tree() && p == SlotFor(image, index)
      requires thread in pool && Absent(image, thread) && Sleeper(thread, thread.due) == Carry(h, x, index)
      modifies this`root, this`image, pool`left, pool`right, pool`heapIndex
      ensures |image| == |h| && Tree() && Load(p) == At(image, index).who
      ensures carried in pool && Absent(image, carried)
      ensures forall k :: k / 2 == index && k <= |h| + 1 ==>
                image == Path(h, x, k) && Sleeper(carried, carried.due) == Carry(h, x, k)
      ensures forall i :: index < i <= |h| ==>
                var n := At(h, i).who; n.left == old(n.left) && n.right == old(n.right)
    {
      hide Path, Carry;
      PathNext(h, x, index);
      SlotHolds(index);
      assert forall i :: index <= i <= |h| ==> At(image, i) == At(h, i);
      assert Linked(image, index);
      NodesApart(image, index);
      var t: Node := Load(p);
      carried := thread;
      if thread.due < t.due {
        carried := Exchange(p, thread, index);
        SlotHolds(index);
      }
    }

    /** One step along the path. */
    lemma PathNext(h: Image<Node>, x: Sleeper<Node>, index: nat)
      requires 1 <= index <= |h|
      ensures var c, t, p := Carry(h, x, index), At(h, index), Path(h, x, index);
              && (forall i :: index <= i <= |h| ==> At(p, i) == At(h, i))
              && forall k :: k / 2 == index && k <= |h| + 1 ==>
                   Path(h, x, k) == (if c.due < t.due then Put(p, index, c) else p) && Carry(h, x, k) == if c.due < t.due then t else c
    {
    }

    /** The same, with the step to the next slot. */
    method Sink(p: Slot, thread: Node, index: nat, right: bool, ghost h: Image<Node>, ghost x: Sleeper<Node>)
        returns (q: Slot, carried: Node)
      requires 1 <= index && 2 * index + (if right then 1 else 0) <= |h| + 1
      requires index <= |h| && image == Path(h, x, index) && Tree() && p == SlotFor(image, index)
      requires thread in pool && Absent(image, thread) && Sleeper(thread, thread.due) == Carry(h, x, index)
      modifies this`root, this`image, pool`left, pool`right, pool`heapIndex
      ensures var k := if right then 2 * index + 1 else 2 * index;
              && image == Path(h, x, k) && Tree() && q == SlotFor(image, k)
              && carried in pool && Absent(image, carried) && Sleeper(carried, carried.due) == Carry(h, x, k)
      ensures forall i :: index < i <= |h| ==>
                var n := At(h, i).who; n.left == old(n.left) && n.right == old(n.right)
    {
      hide Path, Carry;
      carried := Pass(p, thread, index, h, x);
      ghost var k := if right then 2 * index + 1 else 2 * index;
      assert k / 2 == index;
      q := Child(Load(p), right);
    }

    lemma NodesApart(h: Image<Node>, index: nat)
      requires Links(h) && 1 <= index <= |h|
      ensures forall i :: index < i <= |h| ==>
                At(h, i).who != At(h, index).who && (index > 1 ==> At(h, i).who != At(h, index / 2).who)
    {
      NodeAlone(h, index);
      if index > 1 { NodeAlone(h, index / 2); }
    }

    /** The descent of `heap_insert`: follow the digits of `target` from the root,
        leaving the earlier due thread at each node passed. */
    method Descend(inserted: Node, target: nat) returns (p: Slot, thread: Node)
      requires Tree() && 1 <= target <= |image| + 1
      requires inserted in pool && Absent(image, inserted)
      modifies this`root, this`image, pool`left, pool`right, pool`heapIndex
      ensures image == Path(old(image), Sleeper(inserted, inserted.due), target) && Tree()
      ensures Sleeper(thread, thread.due) == Carry(old(image), Sleeper(inserted, inserted.due), target)
      ensures thread in pool && Absent(image, thread) && p == SlotFor(image, target)
      ensures target <= |image| ==>
                var gone := At(old(image), target).who; gone.left == old(gone.left) && gone.right == old(gone.right)
    {
      hide Shr, Path, Carry, SlotFor, Ordered;
      thread := inserted;
      p := Root;
      var index := 1;
      var bits := CountBits(target);
      var bit: int := bits;
      bit := bit - 2;
      if bit >= 0 { ShrBound(target, bit + 1); }
      ghost var h, x := image, Sleeper(inserted, inserted.due);
      StartOfPath(h, x);
      while bit >= 0
        invariant -1 <= bit
        invariant index == Shr(target, bit + 1) && 1 <= index <= target
        invariant bit >= 0 ==> index <= target / 2
        invariant image == Path(h, x, index) && Tree() && p == SlotFor(image, index)
        invariant Sleeper(thread, thread.due) == Carry(h, x, index)
        invariant thread in pool && Absent(image, thread)
        invariant target <= |h| ==>
                    var gone := At(h, target).who; gone.left == old(gone.left) && gone.right == old(gone.right)
      {
        ShrDown(target, bit, index);
        var right := Shr(target, bit) % 2 == 1;
        p, thread := Sink(p, thread, index, right, h, x);
        index := if right then 2 * index + 1 else 2 * index;
        bit := bit - 1;
      }
      ShrNone(target);
    }

    lemma StartOfPath(h: Image<Node>, x: Sleeper<Node>)
      ensures Path(h, x, 1) == h && Carry(h, x, 1) == x && SlotFor(h, 1) == Root
    {
    }

    /** `heap_insert` */
    method HeapInsert(inserted: Node) returns (p: Slot)
      requires Tree() && 1 <= inserted.heapIndex <= |image| + 1
      requires inserted in pool && Absent(image, inserted)
      modifies this`root, this`image, pool`left, pool`right, pool`heapIndex
      ensures var k := old(inserted.heapIndex);
              && image == InsertAt(old(image), Sleeper(inserted, inserted.due), k)
              && p == SlotFor(image, k) && root == NodeAt(image, 1)
              && (forall i :: 1 <= i <= |image| ==> At(image, i).who in pool)
              && (forall i :: 1 <= i <= |image| && i != k ==> Linked(image, i))
              && var n := At(image, k).who;
                 n.heapIndex == k && n.due == At(image, k).due && n.left == null && n.right == null
      ensures old(inserted.heapIndex) == |old(image)| + 1 ==> Links(image)
      ensures old(inserted.heapIndex) <= |old(image)| ==>
                var gone := At(old(image), old(inserted.heapIndex)).who;
                Absent(image, gone) && gone.left == old(gone.left) && gone.right == old(gone.right)
    {
      var target := inserted.heapIndex;
      var thread;
      p, thread := Descend(inserted, target);
      ghost var h := image;
      if target <= |h| { NodeAlone(h, target); }
      assert target > 1 ==> Linked(h, target / 2);
      Place(p, thread, target);
      assert forall i :: 1 <= i <= |h| && i != target ==> At(image, i) == At(h, i);
      assert target > |h| ==> Linked(image, target);
    }

    lemma FamilyApart(h: Image<Node>, j: nat)
      requires Links(h) && 2 <= j <= |h|
      ensures forall i :: 1 <= i <= |h| && i != j && i != j / 2 && i != j / 2 / 2 ==>
                && At(h, i).who != At(h, j).who && At(h, i).who != At(h, j / 2).who
                && (j / 2 > 1 ==> At(h, i).who != At(h, j / 2 / 2).who)
      ensures At(h, j).who != At(h, j / 2).who
      ensures j / 2 > 1 ==> At(h, j / 2 / 2).who != At(h, j).who && At(h, j / 2 / 2).who != At(h, j / 2).who
    {
      NodeAlone(h, j);
      NodeAlone(h, j / 2);
      if j / 2 > 1 { NodeAlone(h, j / 2 / 2); }
    }

    /** Parent and child exchange their links and numbers. */
    method Relink(t: Node, y: Node) returns (p: Slot)
      requires t != y
      modifies t`left, t`right, t`heapIndex, y`left, y`right, y`heapIndex
      ensures t.left == old(y.left) && t.right == old(y.right)
      ensures t.heapIndex == old(y.heapIndex) && y.heapIndex == old(t.heapIndex)
      ensures if y == old(t.left) then y.left == t && y.right == old(t.right) else y.left == old(t.left) && y.right == t
      ensures p == Child(y, y != old(t.left))
    {
      var tl, tr := y.left, y.right;
      if y == t.left {
        y.left, y.right := t, t.right;
        p := Child(y, false);
      } else {
        y.left, y.right := t.left, t;
        p := Child(y, true);
      }
      t.left, t.right := tl, tr;
      t.heapIndex, y.heapIndex := y.heapIndex, t.heapIndex;
    }

    /** One turn of the closing loop of `heap_delete`: the child y takes the place of its
        parent t. */
    method Rotate(slot: Slot, t: Node, y: Node, ghost k: nat, ghost j: nat) returns (p: Slot)
      requires Tree() && 1 <= k < j <= |image| && j / 2 == k && slot == SlotFor(image, k)
      requires t == At(image, k).who && y == At(image, j).who
      modifies this`root, this`image, Owner(slot)`left, Owner(slot)`right
      modifies t`left, t`right, t`heapIndex, y`left, y`right, y`heapIndex
      ensures image == Put(Put(old(image), k, At(old(image), j)), j, At(old(image), k)) && Tree()
      ensures p == SlotFor(image, j)
    {
      ghost var h := image;
      FamilyLinks(j);
      FamilyApart(h, j);
      Store(slot, y);
      p := Relink(t, y);
      image := Put(Put(h, k, At(h, j)), j, At(h, k));
      forall i | 1 <= i <= |h| && i != k && i != j && i != k / 2
        ensures Same(h, i)
      {
      }
      ParentExchanged(j);
      Exchanged(h, k, j);
    }

    lemma Exchanged(h: Image<Node>, k: nat, j: nat)
      requires 1 <= k < j <= |h|
      ensures var g := Put(Put(h, k, At(h, j)), j, At(h, k));
              |g| == |h| && At(g, k) == At(h, j) && forall i :: 1 <= i <= |h| && i != k && i != j ==> At(g, i) == At(h, i)
    {
    }

    /** A node, its parent and the slot of the parent point at each other. */
    lemma FamilyLinks(j: nat)
      requires Tree() && 2 <= j <= |image|
      ensures var h, k := image, j / 2;
              var t, y := At(h, k).who, At(h, j).who;
              && Load(SlotFor(h, k)) == t && (y == t.left <==> j == 2 * k)
              && t.heapIndex == k && y.heapIndex == j && t.due == At(h, k).due && y.due == At(h, j).due && t != y
              && (k > 1 ==> At(h, k / 2).who.heapIndex == k / 2 && At(h, k / 2).who.due == At(h, k / 2).due)
    {
      ghost var k := j / 2;
      assert Linked(image, k) && Linked(image, j) && Linked(image, 2 * k) && (k > 1 ==> Linked(image, k / 2));
    }

    /** The closing loop of `heap_delete`: exchange t with its earlier due child while
        that child is due before it. */
    method SiftDownFrom(slot: Slot, t: Node, ghost start: nat)
      requires Tree() && 1 <= start <= |image| && t == At(image, start).who && slot == SlotFor(image, start)
      modifies this`root, this`image, pool`left, pool`right, pool`heapIndex
      ensures image == SiftDown(old(image), start) && Tree()
    {
      var p := slot;
      ghost var k := start;
      while true
        invariant Tree() && 1 <= k <= |image| && t == At(image, k).who && p == SlotFor(image, k)
        invariant |image| == |old(image)| && SiftDown(image, k) == SiftDown(old(image), start)
        decreases |image| - k
      {
        assert Linked(image, k) && (k > 1 ==> Linked(image, k / 2));
        if t.left == null {
          break;
        }
        assert Linked(image, 2 * k) && (2 * k + 1 <= |image| ==> Linked(image, 2 * k + 1));
        var y: Node;
        if t.right == null {
          y := t.left;
        } else if t.left.due < t.right.due {
          y := t.left;
        } else {
          y := t.right;
        }
        assert y == At(image, Younger(image, k)).who;
        if t.due > y.due {
          ghost var j := Younger(image, k);
          p := Rotate(p, t, y, k, j);
          k := j;
        } else {
          break;
        }
      }
    }

    /** The middle of `heap_delete`: `last` is inserted again in place of `thread`, and
        whichever node ends there takes over the children of `thread`. */
    method Replace(thread: Node, last: Node) returns (p: Slot, t: Node)
      requires Tree() && thread != last && last in pool && Absent(image, last)
      requires 1 <= thread.heapIndex <= |image| && At(image, thread.heapIndex).who == thread
      modifies this`root, this`image, pool`left, pool`right, pool`heapIndex
      ensures image == InsertAt(old(image), Sleeper(last, last.due), old(thread.heapIndex)) && Tree()
      ensures p == SlotFor(image, old(thread.heapIndex)) && t == At(image, old(thread.heapIndex)).who
      ensures Absent(image, thread)
    {
      ghost var h, k := image, thread.heapIndex;
      assert Linked(h, k);
      last.heapIndex := thread.heapIndex;
      StillTree();
      p := HeapInsert(last);
      SlotNode(k);
      t := Load(p);
      Adopt(t, thread, k);
    }

    lemma SlotNode(k: nat)
      requires root == NodeAt(image, 1) && 1 <= k <= |image|
      requires forall i :: 1 <= i <= |image| && i != k ==> Linked(image, i)
      ensures Load(SlotFor(image, k)) == At(image, k).who
    {
      assert k > 1 ==> Linked(image, k / 2);
    }

    /** The new node k, childless so far, takes over the children of the one that it replaces. */
    method Adopt(t: Node, thread: Node, ghost k: nat)
      requires root == NodeAt(image, 1) && 1 <= k <= |image| && t == At(image, k).who && t.heapIndex == k && t.due == At(image, k).due
      requires forall i :: 1 <= i <= |image| ==> At(image, i).who in pool && (i != k ==> Linked(image, i))
      requires thread.left == NodeAt(image, 2 * k) && thread.right == NodeAt(image, 2 * k + 1)
      modifies t`left, t`right
      ensures Tree()
    {
      assert forall i :: 1 <= i <= |image| && i != k ==> At(image, i).who != t by {
        assert forall i :: 1 <= i <= |image| && i != k ==> At(image, i).who.heapIndex == i by {
          forall i | 1 <= i <= |image| && i != k ensures At(image, i).who.heapIndex == i { assert Linked(image, i); }
        }
      }
      t.left, t.right := thread.left, thread.right;
      forall i | 1 <= i <= |image|
        ensures Linked(image, i)
      {
        assert i != k ==> old(Linked(image, i));
      }
    }

    lemma SiftDownAbsent(h: Image<Node>, k: nat, n: Node)
      requires 1 <= k <= |h| && Absent(h, n)
      ensures |SiftDown(h, k)| == |h| && Absent(SiftDown(h, k), n)
    {
      ghost var g := SiftDown(h, k);
      SiftDownContents(h, k);
      forall i | 1 <= i <= |g|
        ensures At(g, i).who != n
      {
        assert g[i - 1] in multiset(h);
        ghost var j :| 0 <= j < |h| && h[j] == g[i - 1];
        assert At(h, j + 1).who != n;
      }
    }

    /** The rest of `heap_delete` when the deleted node is not the last one. */
    method Refill(thread: Node, last: Node)
      requires Tree() && thread != last && last in pool && Absent(image, last)
      requires 1 <= thread.heapIndex <= |image| && At(image, thread.heapIndex).who == thread
      modifies this`root, this`image, pool`left, pool`right, pool`heapIndex
      ensures var k := old(thread.heapIndex);
              image == SiftDown(InsertAt(old(image), Sleeper(last, last.due), k), k) && Tree() && Absent(image, thread)
    {
      ghost var k := thread.heapIndex;
      var p, t := Replace(thread, last);
      SiftDownAbsent(image, k, thread);
      SiftDownFrom(p, t, k);
    }

    /** `heap_delete`: unlink the last node, re-insert it in place of the deleted one,
        then sift it down. */
    method HeapDelete(thread: Node)
      requires size == |image| && Tree() && !Absent(image, thread)
      modifies this`root, this`size, this`image, pool`left, pool`right, pool`heapIndex
      ensures 1 <= old(thread.heapIndex) <= |old(image)| && At(old(image), old(thread.heapIndex)).who == thread
      ensures image == Delete(old(image), old(thread.heapIndex)) && size == |image| && Tree()
      ensures Absent(image, thread) && thread.left == null && thread.right == null
    {
      hide InsertAt, SiftDown;
      ghost var h := image;
      ghost var k :| 1 <= k <= |h| && At(h, k).who == thread;
      assert Linked(h, k) && Linked(h, |h|);
      NodeAlone(h, |h|);
      var p := FindLast();
      var last := UnlinkLast(p);
      assert forall i :: 1 <= i < |h| ==> At(image, i) == At(h, i);
      if last != thread {
        Refill(thread, last);
      }
      Detach(thread);
    }

    /** A node that has left the tree forgets its children. */
    method Detach(thread: Node)
      requires Tree() && Absent(image, thread)
      modifies thread`left, thread`right
      ensures Tree() && thread.left == null && thread.right == null
    {
      thread.left, thread.right := null, null;
      forall i | 1 <= i <= |image|
        ensures Linked(image, i)
      {
        assert old(Linked(image, i));
      }
    }

    /** `_st_add_sleep_q` */
    method AddSleepQ(thread: Node, lastClock: int, timeout: int)
      requires Valid() && thread in pool && !thread.onSleepQ
      modifies this`root, this`size, this`image, pool`left, pool`right, pool`heapIndex
      modifies thread`due, thread`onSleepQ
      ensures Valid() && thread.onSleepQ
      ensures image == Insert(old(image), Sleeper(thread, lastClock + timeout))
      ensures multiset(image) == multiset(old(image)) + multiset{Sleeper(thread, lastClock + timeout)}
      ensures forall n :: n in pool && n != thread ==> n.onSleepQ == old(n.onSleepQ)
    {
      hide Absent, Ordered;
      ghost var h := image;
      NotAmong(h, thread);
      thread.due := lastClock + timeout;
      thread.onSleepQ := true;
      size := size + 1;
      thread.heapIndex := size;
      StillTree();
      var p := HeapInsert(thread);
      InsertMembers(h, Sleeper(thread, lastClock + timeout), pool);
    }

    lemma NotAmong(h: Image<Node>, n: Node)
      requires Absent(h, n)
      ensures forall i :: 1 <= i <= |h| ==> At(h, i).who != n
    {
    }

    /** `_st_del_sleep_q` */
    method DelSleepQ(thread: Node)
      requires Valid() && thread in pool && thread.onSleepQ
      modifies this`root, this`size, this`image, pool`left, pool`right, pool`heapIndex
      modifies thread`onSleepQ
      ensures Valid() && !thread.onSleepQ
      ensures 1 <= old(thread.heapIndex) <= |old(image)|
      ensures image == Delete(old(image), old(thread.heapIndex))
      ensures multiset(image) == multiset(old(image)) - multiset{Sleeper(thread, thread.due)}
      ensures forall n :: n in pool && n != thread ==> n.onSleepQ == old(n.onSleepQ)
    {
      ghost var h, k := image, thread.heapIndex;
      assert !Absent(h, thread);
      HeapDelete(thread);
      thread.onSleepQ := false;
      assert At(h, k) == Sleeper(thread, thread.due) by { assert old(Linked(image, k)); }
      DeleteMembers(h, k, pool);
    }

    /** The root is due no later than any sleeping thread. */
    lemma RootIsEarliest(n: Node)
      requires Valid() && n in pool && n.onSleepQ
      ensures root != null && root.due <= n.due
    {
      ghost var k :| 1 <= k <= |image| && At(image, k).who == n;
      assert Linked(image, 1) && Linked(image, k);
      RootIsMinimum(image, k);
    }
  }
}
