/** The sleep queue of the scheduler: the timeout heap with its real nodes, asked by thread
    number.  What the pointer code does to the tree is what SchedModel does to the sequence
    of the sleeping threads. */
module SleepQueue {
  import opened HeapModel
  import opened TimeoutHeap
  import opened SchedQueues

  // ---- the heap does not look at who sleeps, only at when it is due ----

  function Number(x: Sleeper<Node>): Sleeper<nat> {
    Sleeper(x.who.id, x.due)
  }

  function Numbers(h: Image<Node>): (r: Image<nat>)
    ensures |r| == |h| && forall i :: 0 <= i < |h| ==> r[i] == Number(h[i])
  {
    seq(|h|, i requires 0 <= i < |h| => Number(h[i]))
  }

  lemma PutNumbers(h: Image<Node>, i: nat, x: Sleeper<Node>)
    requires 1 <= i <= |h| + 1
    ensures Numbers(Put(h, i, x)) == Put(Numbers(h), i, Number(x))
  {
  }

  lemma {:induction false} PathNumbers(h: Image<Node>, x: Sleeper<Node>, k: nat)
    requires 1 <= k <= |h| + 1
    ensures Carry(Numbers(h), Number(x), k) == Number(Carry(h, x, k))
    ensures Path(Numbers(h), Number(x), k) == Numbers(Path(h, x, k))
  {
    if k > 1 {
      var a := k / 2;
      PathNumbers(h, x, a);
      PutNumbers(Path(h, x, a), a, Carry(h, x, a));
    }
  }

  lemma InsertAtNumbers(h: Image<Node>, x: Sleeper<Node>, k: nat)
    requires 1 <= k <= |h| + 1
    ensures InsertAt(Numbers(h), Number(x), k) == Numbers(InsertAt(h, x, k))
  {
    PathNumbers(h, x, k);
    PutNumbers(Path(h, x, k), k, Carry(h, x, k));
  }

  lemma RotatedNumbers(h: Image<Node>, k: nat)
    requires 1 <= k && 2 * k <= |h|
    ensures Younger(Numbers(h), k) == Younger(h, k) && Rotated(Numbers(h), k) == Numbers(Rotated(h, k))
  {
    var y := Younger(h, k);
    PutNumbers(h, k, At(h, y));
    PutNumbers(Put(h, k, At(h, y)), y, At(h, k));
  }

  lemma {:induction false} SiftDownNumbers(h: Image<Node>, k: nat)
    requires 1 <= k <= |h|
    ensures SiftDown(Numbers(h), k) == Numbers(SiftDown(h, k))
    decreases |h| - k
  {
    if 2 * k <= |h| {
      RotatedNumbers(h, k);
      if At(h, k).due > At(h, Younger(h, k)).due {
        SiftDownNumbers(Rotated(h, k), Younger(h, k));
      }
    }
  }

  /** Inserting and deleting nodes is inserting and deleting thread numbers. */
  lemma HeapNumbers(h: Image<Node>, x: Sleeper<Node>, k: nat)
    ensures Insert(Numbers(h), Number(x)) == Numbers(Insert(h, x))
    ensures 1 <= k <= |h| ==> Delete(Numbers(h), k) == Numbers(Delete(h, k))
  {
    InsertAtNumbers(h, x, |h| + 1);
    if 1 <= k <= |h| {
      var n := |h|;
      var short := h[..n - 1];
      assert Numbers(h)[..n - 1] == Numbers(short);
      if k < n {
        InsertAtNumbers(short, h[n - 1], k);
        SiftDownNumbers(InsertAt(short, h[n - 1], k), k);
      }
    }
  }

  class Sleepers {
    const heap: Heap
    var nodes: map<nat, Node>      // the thread records, by thread number
    ghost var contents: Image<nat>
    ghost var top: nat             // above all of these numbers
    ghost var parts: set<object>

    ghost predicate Valid()
      reads this, parts
    {
      && this !in parts && heap in parts && (forall n :: n in heap.pool ==> n in parts)
      && (forall n :: n in Nodes(heap.image) ==> n in parts)
      && heap.Valid() && contents == Numbers(heap.image)
      && (forall n :: n in heap.pool ==> n.id in nodes && nodes[n.id] == n)
      && (forall t :: t in nodes ==> t < top && nodes[t] in heap.pool && nodes[t].id == t)
    }

    constructor ()
      ensures Valid() && contents == [] && nodes == map[] && top == 0 && fresh(parts)
    {
      heap := new Heap({});
      nodes, contents, top := map[], [], 0;
      new;
      parts := {heap};
    }

    /** A new thread gets its record. */
    method Enlist(t: nat)
      requires Valid() && top <= t
      modifies this`nodes, this`top, this`parts, heap`pool
      ensures Valid() && nodes.Keys == old(nodes.Keys) + {t} && top == t + 1 && fresh(parts - old(parts)) && old(parts) <= parts
    {
      hide Numbers, Heap.Valid;
      var n := new Node(t);
      nodes, top, parts := nodes[t := n], t + 1, parts + {n};
      heap.Enlist(n);
      StillValid();
    }

    /** A thread is in the queue exactly if its record says so, which then knows where. */
    lemma Listed(t: nat)
      requires Valid() && t in nodes
      ensures nodes[t].onSleepQ <==> OnHeap(contents, t)
      ensures nodes[t].onSleepQ ==> IndexOf(contents, t) == nodes[t].heapIndex
    {
      hide Ordered;
      if nodes[t].onSleepQ { ListedOnce(t); }
      if OnHeap(contents, t) {
        ghost var k := IndexOf(contents, t);
        assert Linked(heap.image, k) && At(heap.image, k).who in heap.pool;
        assert contents[k - 1] == Number(heap.image[k - 1]);
      }
    }

    lemma ListedOnce(t: nat)
      requires Valid() && t in nodes && nodes[t].onSleepQ
      ensures OnHeap(contents, t)
    {
      hide Ordered, Linked;
      ghost var h := heap.image;
      ghost var i :| 1 <= i <= |h| && At(h, i).who == nodes[t];
      assert contents[i - 1].who == t;
    }

    /** What Valid says once the heap has changed and nothing else. */
    lemma StillValid()
      requires this !in parts && heap in parts && (forall n :: n in heap.pool ==> n in parts)
      requires forall n :: n in heap.pool ==> n.id in nodes && nodes[n.id] == n
      requires forall t :: t in nodes ==> t < top && nodes[t] in heap.pool && nodes[t].id == t
      requires heap.Valid() && contents == Numbers(heap.image)
      ensures Valid()
    {
      forall n | n in Nodes(heap.image)
        ensures n in parts
      {
        ghost var i :| 0 <= i < |heap.image| && heap.image[i].who == n;
        assert At(heap.image, i + 1).who in heap.pool;
      }
    }

    /** `_st_add_sleep_q` */
    method Add(t: nat, lastClock: int, timeout: int)
      requires Valid() && t in nodes && !OnHeap(contents, t)
      modifies this`contents, parts
      ensures Valid() && contents == Insert(old(contents), Sleeper(t, lastClock + timeout))
    {
      hide Insert, Numbers, OnHeap, Heap.Valid;
      Listed(t);
      HeapNumbers(heap.image, Sleeper(nodes[t], lastClock + timeout), 0);
      contents := Insert(contents, Sleeper(t, lastClock + timeout));
      heap.AddSleepQ(nodes[t], lastClock, timeout);
      StillValid();
    }

    /** `_st_del_sleep_q` */
    method Del(t: nat)
      requires Valid() && t in nodes
      modifies this`contents, parts
      ensures Valid() && contents == HeapWithout(old(contents), t)
    {
      hide Delete, Numbers, OnHeap, Heap.Valid;
      Listed(t);
      if nodes[t].onSleepQ {
        HeapNumbers(heap.image, Sleeper(nodes[t], 0), nodes[t].heapIndex);
        contents := HeapWithout(contents, t);
        heap.DelSleepQ(nodes[t]);
        StillValid();
      }
    }

    /** The thread due first, if any sleeps. */
    method First() returns (ok: bool, t: nat, due: int)
      requires Valid()
      ensures ok == (contents != [])
      ensures ok ==> t in nodes && contents[0] == Sleeper(t, due)
    {
      ok, t, due := heap.root != null, 0, 0;
      if ok {
        assert Linked(heap.image, 1) && At(heap.image, 1).who in heap.pool;
        t, due := heap.root.id, heap.root.due;
      }
    }
  }
}
