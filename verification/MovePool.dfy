/**
 The pool of move nodes that all devices share: a free list and one queue per device,
 singly linked through the nodes themselves.
 */
module MovePools {

  class Node {
    var next: Node?
    ghost var home: int    // where the node is: FREE, OUT or the number of a queue

    constructor ()
      ensures next == null && home == OUT
    {
      next, home := null, OUT;
    }
  }

  const FREE: int := -1
  const OUT: int := -2     // handed out to a device and not in any queue

  /** A shutdown handler; that of a device clears its queue, and a stepper's then stops the stepper. */
  datatype Handler = MoveReset | Device(queue: nat, stops: bool)

  class QueueHead {
    var first: Node?
    var last: Node?
    ghost var contents: seq<Node>

    constructor ()
      ensures first == null && contents == []
    {
      first, last, contents := null, null, [];
    }
  }

  /** The list that starts at first consists of the nodes of c, in this order. */
  ghost predicate Chained(c: seq<Node>, first: Node?)
    reads c`next
  {
    && (if c == [] then first == null else first == c[0] && c[|c|-1].next == null)
    && forall i {:trigger c[i].next} :: 0 <= i < |c| - 1 ==> c[i].next == c[i+1]
  }

  lemma ChainTail(c: seq<Node>, first: Node?)
    requires Chained(c, first)
    ensures c == [] <==> first == null
    ensures c != [] ==> first == c[0] && c == [c[0]] + c[1..] && Chained(c[1..], c[0].next)
  {
  }

  lemma ChainCons(n: Node, c: seq<Node>, first: Node?)
    requires Chained(c, first) && n.next == first
    ensures Chained([n] + c, n)
  {
  }

  function Reversed<T>(c: seq<T>): (r: seq<T>)
    ensures |r| == |c|
  {
    if c == [] then [] else [c[|c|-1]] + Reversed(c[..|c|-1])
  }

  lemma ReversedPart<T>(c: seq<T>, i: nat, tail: seq<T>)
    requires i <= |c|
    ensures i < |c| ==> Reversed(c[..i+1]) + tail == [c[i]] + (Reversed(c[..i]) + tail)
    ensures i == 0 ==> Reversed(c[..i]) + tail == tail
  {
    if i < |c| {
      assert c[..i+1][..i] == c[..i];
    }
  }

  lemma PartOf<T>(c: seq<T>, i: nat)
    requires i < |c|
    ensures forall x :: x in c[i..] ==> x in c
    ensures c[i..][0] == c[i] && c[i..][1..] == c[i+1..]
  {
  }

  ghost predicate Distinct<T>(c: seq<T>) {
    forall i, j :: 0 <= i < j < |c| ==> c[i] != c[j]
  }

  /** c lists exactly the nodes of all that are at home at h, each of them once. */
  ghost predicate Lists(c: seq<Node>, all: seq<Node>, h: int)
    reads all`home
  {
    && Distinct(c)
    && (forall n :: n in all ==> (n in c <==> n.home == h))
  }

  lemma ListsAppend(c: seq<Node>, m: Node, all: seq<Node>, h: int)
    requires Distinct(c) && m !in c
    requires forall n :: n in all ==> (n.home == h <==> n in c || n == m)
    ensures Lists(c + [m], all, h)
  {
  }

  class Pool {
    const moveList: seq<Node>
    const heads: seq<QueueHead>
    var freeList: Node?
    ghost var free: seq<Node>

    /** The nodes and the queue heads are separate objects. */
    ghost predicate Fixed() {
      Distinct(moveList) && Distinct(heads)
    }

    ghost predicate Within(c: seq<Node>) {
      forall i :: 0 <= i < |c| ==> c[i] in moveList
    }

    ghost predicate QueueOk(q: QueueHead, k: int)
      reads q, q.contents`next, moveList`home
    {
      && Chained(q.contents, q.first)
      && (q.contents != [] ==> q.last == q.contents[|q.contents|-1])
      && Lists(q.contents, moveList, k)
    }

    ghost predicate FreeOk()
      reads `free, `freeList, free`next, moveList`home
    {
      && Chained(free, freeList)
      && Lists(free, moveList, FREE)
    }

    /** Every node is on the free list, in one queue or with a device, and exactly once. */
    ghost predicate Valid()
      reads this, heads, moveList
    {
      && Fixed() && Within(free) && FreeOk()
      && (forall k :: 0 <= k < |heads| ==> Within(heads[k].contents))
      && (forall k :: 0 <= k < |heads| ==> QueueOk(heads[k], k))
      && (forall n :: n in moveList ==> OUT <= n.home < |heads|)
    }

    /** Finalizing the configuration puts all nodes on the free list; the queues were set up empty. */
    constructor (nodes: seq<Node>, queues: seq<QueueHead>)
      requires Distinct(nodes) && Distinct(queues)
      requires forall k :: 0 <= k < |queues| ==> queues[k].first == null && queues[k].contents == []
      modifies nodes
      ensures Valid() && moveList == nodes && heads == queues && free == nodes
    {
      moveList, heads, freeList := nodes, queues, null;
      new;
      Reset();
    }

    /** Takes a node from the free list; null stands for the overflow shutdown. */
    method Alloc() returns (m: Node?)
      requires Valid()
      modifies `freeList, `free, moveList`home
      ensures Valid()
      ensures old(free) == [] ==> m == null && free == []
      ensures old(free) != [] ==> m != null && m == old(free)[0] && free == old(free)[1..] && m.home == OUT
      ensures forall n :: n in moveList && n != m ==> n.home == old(n.home)
    {
      hide Chained;
      ChainTail(free, freeList);
      m := freeList;
      if m == null {
        return;
      }
      freeList := m.next;
      free := free[1..];
      m.home := OUT;
    }

    /** Gives a node back to the free list. */
    method Free(m: Node)
      requires Valid() && m in moveList && m.home == OUT
      modifies `freeList, `free, m
      ensures Valid() && free == [m] + old(free) && m.home == FREE
    {
      hide Chained;
      ghost var was, first := free, freeList;
      m.next := freeList;
      freeList := m;
      ChainCons(m, was, first);
      free := [m] + free;
      m.home := FREE;
      assert Lists(free, moveList, FREE) by {
        assert forall n :: n in free <==> n == m || n in was;
      }
      forall j | 0 <= j < |heads| ensures QueueOk(heads[j], j) {
        assert unchanged(heads[j]);
      }
    }

    /** Links a node behind the last one; the result tells whether the list was empty. */
    method Link(m: Node, mh: QueueHead) returns (first: bool)
      requires Chained(mh.contents, mh.first) && Distinct(mh.contents) && m !in mh.contents
      requires mh.contents != [] ==> mh.last == mh.contents[|mh.contents|-1]
      modifies m`next, mh`first, mh`last, mh.contents`next
      ensures Chained(mh.contents + [m], mh.first) && mh.last == m
      ensures first <==> mh.contents == []
    {
      m.next := null;
      if mh.first != null {
        mh.last.next := m;
        mh.last := m;
        return false;
      }
      mh.first, mh.last := m, m;
      first := true;
    }

    /** Puts a node at the end of queue k and tells whether the queue was empty. */
    method Push(m: Node, k: nat) returns (first: bool)
      requires Valid() && m in moveList && m.home == OUT && k < |heads|
      modifies m, heads[k], heads[k].contents`next
      ensures Valid() && m.home == k && heads[k].contents == old(heads[k].contents) + [m]
      ensures first <==> old(heads[k].contents) == []
    {
      hide Chained;
      var mh := heads[k];
      ghost var was := mh.contents;
      first := Link(m, mh);
      mh.contents := was + [m];
      m.home := k;
      ListsAppend(was, m, moveList, k);
      assert FreeOk();
      forall j | 0 <= j < |heads| && j != k ensures QueueOk(heads[j], j) {
        assert unchanged(heads[j]);
      }
    }

    method IsEmpty(k: nat) returns (empty: bool)
      requires k < |heads| && (Valid() || Cleared(k))
      ensures empty <==> heads[k].contents == []
    {
      empty := heads[k].first == null;
    }

    /** Takes the first node out of queue k. */
    method Pop(k: nat) returns (m: Node)
      requires Valid() && k < |heads| && heads[k].contents != []
      modifies heads[k], heads[k].contents`home
      ensures Valid() && m == old(heads[k].contents)[0] && m.home == OUT && m in moveList
      ensures heads[k].contents == old(heads[k].contents)[1..]
      ensures forall n :: n in heads[k].contents ==> n.home == k
    {
      hide Chained;
      var mh := heads[k];
      ghost var was := mh.contents;
      ChainTail(was, mh.first);
      m := mh.first;
      mh.first := m.next;
      mh.contents := was[1..];
      m.home := OUT;
      assert QueueOk(mh, k);
      assert FreeOk();
      forall j | 0 <= j < |heads| && j != k ensures QueueOk(heads[j], j) {
        assert unchanged(heads[j]);
      }
    }

    // ---------- Shutdown ----------

    ghost predicate AllFree()
      reads this, moveList
    {
      && free == moveList && Chained(moveList, freeList)
      && forall i :: 0 <= i < |moveList| ==> moveList[i].home == FREE
    }

    ghost predicate Cleared(k: nat)
      requires k < |heads|
      reads heads[k]
    {
      heads[k].first == null && heads[k].contents == []
    }

    /** Links all nodes into the free list, wherever they are and however they are linked. */
    method Reset()
      requires moveList == [] ==> freeList == null
      requires Distinct(moveList)
      modifies `freeList, `free, moveList
      ensures AllFree()
    {
      free := moveList;
      if moveList == [] {
        return;
      }
      var i := 0;
      while i < |moveList| - 1
        invariant 0 <= i <= |moveList| - 1 && free == moveList
        invariant forall j :: 0 <= j < i ==> moveList[j].next == moveList[j+1] && moveList[j].home == FREE
      {
        moveList[i].next := moveList[i+1];
        moveList[i].home := FREE;
        i := i + 1;
      }
      moveList[i].next := null;
      moveList[i].home := FREE;
      freeList := moveList[0];
    }

    /** Forgets the nodes of queue k. */
    method Clear(k: nat)
      requires k < |heads|
      modifies heads[k]
      ensures Cleared(k)
    {
      heads[k].first := null;
      heads[k].contents := [];
    }

    /**
     Takes the nodes of queue k one by one and frees them, as a stopped device does.  A shutdown
     calls this with the pool in any state, but on a queue that was cleared before; there it
     does nothing.
     */
    method Drain(k: nat)
      requires k < |heads| && (Valid() || Cleared(k))
      modifies `freeList, `free, heads[k], heads[k].contents
      ensures heads[k].contents == []
      ensures old(Cleared(k)) ==> Cleared(k) && freeList == old(freeList) && free == old(free)
      ensures old(Cleared(k)) ==> forall n :: n in moveList ==> n.next == old(n.next) && n.home == old(n.home)
      ensures old(Valid()) ==> Valid() && free == Reversed(old(heads[k].contents)) + old(free)
    {
      hide Pool.Valid;
      var empty := IsEmpty(k);
      if !empty {
        FreeQueue(k);
      }
    }

    /** One round of the loop: the first node of queue k goes to the free list. */
    method FreeFirst(k: nat)
      requires k < |heads| && Valid() && heads[k].contents != []
      modifies `freeList, `free, heads[k], heads[k].contents
      ensures Valid() && heads[k].contents == old(heads[k].contents)[1..]
      ensures free == [old(heads[k].contents)[0]] + old(free)
    {
      hide Pool.Valid, Cleared;
      ghost var m0 := heads[k].contents[0];
      assert m0 in heads[k].contents;
      var m := Pop(k);
      Free(m);
    }

    method FreeQueue(k: nat)
      requires k < |heads| && Valid()
      modifies `freeList, `free, heads[k], heads[k].contents
      ensures Valid() && heads[k].contents == [] && free == Reversed(old(heads[k].contents)) + old(free)
    {
      hide Pool.Valid, Cleared, Reversed;
      ghost var was, before, i := heads[k].contents, free, 0;
      ReversedPart(was, 0, before);
      var empty := IsEmpty(k);
      while !empty
        invariant Valid() && i <= |was| && heads[k].contents == was[i..]
        invariant empty <==> heads[k].contents == []
        invariant free == Reversed(was[..i]) + before
        decreases |was| - i
      {
        PartOf(was, i);
        FreeFirst(k);
        ReversedPart(was, i, before);
        i := i + 1;
        empty := IsEmpty(k);
      }
      assert was[..i] == was;
    }

    /** What a shutdown handler does: the pool's own one, or that of a device with a queue. */
    method RunHandler(h: Handler)
      requires Fixed() && (moveList == [] ==> freeList == null) && (h.Device? ==> h.queue < |heads|)
      modifies this, heads, moveList
      ensures h.MoveReset? ==> AllFree()
      ensures h.Device? ==> Cleared(h.queue)
      ensures old(AllFree()) ==> AllFree()
      ensures moveList == [] ==> freeList == null
      ensures forall k :: 0 <= k < |heads| && old(Cleared(k)) ==> Cleared(k)
    {
      match h
      case MoveReset => Reset();
      case Device(k, stops) =>
        Clear(k);
        if stops {
          Drain(k);
        }
    }

    /**
     The shutdown handlers run.  They find the pool in any state, since a shutdown can hit in the
     middle of an operation, and their order does not matter.
     */
    method RunShutdown(order: seq<Handler>)
      requires Fixed() && (moveList == [] ==> freeList == null)
      requires MoveReset in order && forall k :: 0 <= k < |heads| ==> Handles(order, k)
      requires forall h :: h in order && h.Device? ==> h.queue < |heads|
      modifies this, heads, moveList
      ensures Valid() && free == moveList
      ensures forall k :: 0 <= k < |heads| ==> heads[k].contents == []
    {
      hide Cleared, AllFree;
      var i := 0;
      while i < |order|
        invariant 0 <= i <= |order|
        invariant MoveReset in order[..i] ==> AllFree()
        invariant moveList == [] ==> freeList == null
        invariant forall k :: 0 <= k < |heads| && Handles(order[..i], k) ==> Cleared(k)
      {
        assert order[i] in order && order[..i+1] == order[..i] + [order[i]];
        RunHandler(order[i]);
        i := i + 1;
      }
      assert order[..i] == order;
      AllCleared();
    }

    lemma AllCleared()
      requires Fixed() && AllFree() && forall k :: 0 <= k < |heads| ==> Cleared(k)
      ensures Valid() && free == moveList && forall k :: 0 <= k < |heads| ==> heads[k].contents == []
    {
      forall k | 0 <= k < |heads| ensures QueueOk(heads[k], k) && Within(heads[k].contents) {
        assert Cleared(k);
      }
    }

    ghost predicate Handles(order: seq<Handler>, k: nat) {
      Device(k, false) in order || Device(k, true) in order
    }


    // ---------- Conservation ----------

    /** The number of nodes in the queues before k. */
    ghost function Queued(k: nat): (r: nat)
      requires k <= |heads|
      reads heads
    {
      if k == 0 then 0 else Queued(k - 1) + |heads[k-1].contents|
    }

    ghost function HomeFrom(lo: int, hi: int): (r: set<Node>)
      reads moveList`home
    {
      set n | n in moveList && lo <= n.home < hi
    }

    /** No node is ever lost or doubled: free, queued and handed out nodes add up to all nodes. */
    lemma NodesAreConserved()
      requires Valid()
      ensures |free| + Queued(|heads|) + |HomeFrom(OUT, OUT + 1)| == |moveList|
    {
      hide Chained, QueueOk, FreeOk;
      CountedUpTo(|heads|);
      var all := HomeFrom(FREE, |heads|) + HomeFrom(OUT, OUT + 1);
      assert forall n :: n in all <==> n in moveList;
      SizeOfList(moveList, all);
    }

    lemma {:induction false} CountedUpTo(k: nat)
      requires Valid() && k <= |heads|
      ensures |HomeFrom(FREE, k)| == |free| + Queued(k)
    {
      hide Chained;
      if k == 0 {
        SizeOfList(free, HomeFrom(FREE, 0));
      } else {
        CountedUpTo(k - 1);
        var c := heads[k-1].contents;
        SizeOfList(c, HomeFrom(k - 1, k));
        assert HomeFrom(FREE, k) == HomeFrom(FREE, k - 1) + HomeFrom(k - 1, k);
      }
    }
  }

  lemma {:induction false} SizeOfList<T>(c: seq<T>, s: set<T>)
    requires Distinct(c) && forall x :: x in c <==> x in s
    ensures |s| == |c|
  {
    if c == [] {
      assert s == {};
    } else {
      var last := c[|c|-1];
      assert forall x :: x in c <==> x in c[..|c|-1] || x == last;
      SizeOfList(c[..|c|-1], s - {last});
    }
  }
}
