/** The linked-list queue (lib/rplib/src/rplib_ll_queue.c), on heap nodes. */
module LinkedQueue {
  import opened Basics

  const INT_MAX := 0x7fff_ffff

  class Node<T> {
    const data: T
    var next: Node?<T>

    constructor (data: T)
      ensures this.data == data && next == null
    {
      this.data := data;
      next := null;
    }
  }

  function Values<T>(nodes: seq<Node<T>>): (r: seq<T>)
    ensures |r| == |nodes| && forall i :: 0 <= i < |r| ==> r[i] == nodes[i].data
  {
    if nodes == [] then [] else [nodes[0].data] + Values(nodes[1..])
  }

  /** The node after position i; null after the last. */
  function Following<T>(nodes: seq<Node<T>>, i: nat): Node?<T> {
    if i + 1 < |nodes| then nodes[i + 1] else null
  }

  ghost predicate LinksOn<T>(nodes: seq<Node<T>>, i: nat)
    requires i < |nodes|
    reads nodes
  {
    nodes[i].next == Following(nodes, i)
  }

  /** The nodes are linked in order and the last one ends the list. */
  ghost predicate Linked<T>(nodes: seq<Node<T>>)
    reads nodes
  {
    forall i: nat :: i < |nodes| ==> LinksOn(nodes, i)
  }

  /** Unlinking one node leaves a list. */
  lemma Relinked<T>(nodes: seq<Node<T>>, k: nat)
    requires k < |nodes| && Distinct(nodes)
    requires forall i: nat :: i < |nodes| && i != k - 1 ==> LinksOn(nodes, i)
    requires 0 < k ==> nodes[k - 1].next == Following(nodes, k)
    ensures Linked(Without(nodes, k)) && Distinct(Without(nodes, k))
  {
    var rest := Without(nodes, k);
    assert forall i :: 0 <= i < |rest| ==> rest[i] == nodes[if i < k then i else i + 1];
    forall i: nat | i < |rest| ensures LinksOn(rest, i) {
      var at := if i < k then i else i + 1;
      assert at != k - 1 ==> LinksOn(nodes, at);
    }
  }

  /** The first and the last node of what is left. */
  lemma Ends<T>(nodes: seq<Node<T>>, k: nat)
    requires k < |nodes|
    ensures var rest := Without(nodes, k);
            && |rest| == |nodes| - 1
            && (rest != [] ==> rest[0] == nodes[if k == 0 then 1 else 0])
            && (rest != [] ==> rest[|rest| - 1] == nodes[if k == |nodes| - 1 then k - 1 else |nodes| - 1])
  {
  }

  lemma ValuesWithout<T>(nodes: seq<Node<T>>, k: nat)
    requires k < |nodes|
    ensures Values(Without(nodes, k)) == Without(Values(nodes), k)
  {
    hide Values;
    ValuesAt(nodes);
    ValuesAt(Without(nodes, k));
    forall i | 0 <= i < |nodes| - 1
      ensures Values(Without(nodes, k))[i] == Without(Values(nodes), k)[i]
    {
      assert Without(nodes, k)[i] == nodes[if i < k then i else i + 1];
    }
  }

  lemma ValuesAt<T>(nodes: seq<Node<T>>)
    ensures |Values(nodes)| == |nodes| && forall i :: 0 <= i < |nodes| ==> Values(nodes)[i] == nodes[i].data
  {
  }

  lemma ValuesDrop<T>(nodes: seq<Node<T>>, k: nat)
    requires k <= |nodes|
    ensures Values(nodes[k..]) == Values(nodes)[k..]
  {
    hide Values;
    ValuesAt(nodes);
    ValuesAt(nodes[k..]);
  }

  class Queue<T> {
    var size: nat
    var front: Node?<T>
    var rear: Node?<T>
    ghost var nodes: seq<Node<T>>

    /** front, next, rear and size describe the same acyclic list of exactly size nodes. */
    ghost predicate Valid()
      reads this, nodes
    {
      && size == |nodes|
      && front == (if nodes == [] then null else nodes[0])
      && rear == (if nodes == [] then null else nodes[|nodes| - 1])
      && Linked(nodes) && Distinct(nodes)
    }

    ghost function Contents(): seq<T>
      reads this
    {
      Values(nodes)
    }

    /** rplib_ll_queue_create */
    constructor ()
      ensures Valid() && Contents() == [] && nodes == []
    {
      size, front, rear, nodes := 0, null, null, [];
    }

    /** rplib_ll_queue_enqueue: appends, unless the size would reach INT_MAX. */
    method Enqueue(data: T) returns (n: Node?<T>)
      requires Valid()
      modifies this, rear
      ensures Valid()
      ensures n == null <==> old(size) + 1 >= INT_MAX
      ensures n == null ==> nodes == old(nodes)
      ensures n != null ==> fresh(n) && nodes == old(nodes) + [n] && n.data == data
      ensures Contents() == old(Contents()) + if n == null then [] else [data]
    {
      if size + 1 < INT_MAX {
        size := size + 1;
      } else {
        return null;
      }
      n := new Node(data);
      if front == null {
        front := n;
        rear := n;
      } else {
        rear.next := n;
        rear := n;
      }
      nodes := nodes + [n];
      forall i: nat | i < |nodes| ensures LinksOn(nodes, i) {
        if i + 1 < |nodes| {
          assert old(LinksOn(nodes, i));
        }
      }
    }

    /** The search of rplib_ll_remove_node for the node in front of the target. */
    method Predecessor(target: Node<T>, ghost k: nat) returns (prev: Node<T>)
      requires Valid() && 0 < k < |nodes| && nodes[k] == target
      ensures prev == nodes[k - 1]
    {
      prev := front;
      ghost var i := 0;
      while prev.next != target
        invariant 0 <= i < k && prev == nodes[i]
        decreases k - i
      {
        assert LinksOn(nodes, i);
        prev := prev.next;
        i := i + 1;
      }
      assert LinksOn(nodes, i);
    }

    /** rplib_ll_remove_node: unlinks a node of the queue and keeps the order of the rest. */
    method RemoveNode(target: Node<T>, ghost k: nat)
      requires Valid() && k < |nodes| && nodes[k] == target
      modifies this, nodes
      ensures Valid()
      ensures nodes == Without(old(nodes), k)
      ensures Contents() == Without(old(Contents()), k)
    {
      hide Values, Without;
      ValuesWithout(nodes, k);
      Ends(nodes, k);
      assert LinksOn(nodes, 0) && LinksOn(nodes, k);
      if size == 1 {
        front := null;
        rear := null;
      } else if target == front {
        front := target.next;
      } else {
        var prev := Predecessor(target, k);
        prev.next := target.next;
        if target == rear {
          rear := prev;
        }
      }
      size := size - 1;
      forall i: nat | i < |nodes| && i != k - 1 ensures LinksOn(nodes, i) {
        assert old(LinksOn(nodes, i));
      }
      Relinked(nodes, k);
      nodes := Without(nodes, k);
    }

    /** rplib_ll_queue_dequeue */
    method Dequeue()
      requires Valid() && 0 < size
      modifies this, nodes
      ensures Valid() && size == old(size) - 1
      ensures nodes == old(nodes)[1..] && Contents() == old(Contents())[1..]
    {
      RemoveNode(front, 0);
    }

    /** rplib_ll_queue_peek */
    method Peek() returns (n: Node<T>)
      requires Valid() && 0 < size
      ensures n == nodes[0] && n.data == Contents()[0]
    {
      n := front;
    }

    /** The loop of rplib_ll_queue_destroy: the index rises while the size falls, so only the
        first half of the nodes, rounded up, is taken out. */
    method Destroy()
      requires Valid()
      modifies this, nodes
      ensures Valid()
      ensures Contents() == old(Contents())[(old(size) + 1) / 2..]
      ensures size == 0 <==> old(size) <= 1
    {
      hide Values, Linked, Distinct;
      ghost var before := nodes;
      var index := 0;
      while index < size
        invariant Valid() && index <= |before| && nodes == before[index..]
        invariant 2 * index <= |before| + 1
      {
        Dequeue();
        index := index + 1;
      }
      assert index == (|before| + 1) / 2;
      ValuesDrop(before, index);
    }
  }
}
