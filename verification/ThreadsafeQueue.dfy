/** threadsafe_queue.h as a class, for one caller at a time: the linked nodes and what push and
    pop do to them. The interleavings are in `TwoLockQueue`. */
module ThreadsafeQueues {
  import opened Bytes

  class ListNode<T> {
    var data: Option<T>
    var next: ListNode?<T>

    constructor ()
      ensures data == None && next == null
    {
      data, next := None, null;
    }
  }

  /** Node i of the list holds element i and is linked to node i + 1. */
  ghost predicate NodeIs<T>(nodes: seq<ListNode<T>>, q: seq<T>, i: nat)
    requires i + 1 < |nodes| && i < |q|
    reads nodes[i]
  {
    nodes[i].data == Some(q[i]) && nodes[i].next == nodes[i + 1]
  }

  class ThreadsafeQueue<T> {
    var head: ListNode<T>
    var tail: ListNode<T>

    ghost var Contents: seq<T>
    ghost var Nodes: seq<ListNode<T>>  // from head to the dummy

    ghost predicate Valid()
      reads this, Nodes
    {
      && |Nodes| == |Contents| + 1 && NoDup(Nodes)
      && head == Nodes[0] && tail == Nodes[|Contents|]
      && tail.data == None && tail.next == null
      && forall i: nat {:trigger NodeIs(Nodes, Contents, i)} :: i < |Contents| ==> NodeIs(Nodes, Contents, i)
    }

    constructor ()
      ensures Valid() && Contents == [] && fresh(Nodes)
    {
      var dummy := new ListNode<T>();
      head, tail := dummy, dummy;
      Contents, Nodes := [], [dummy];
    }

    /** The dummy takes the value, and a new dummy is linked behind it. */
    method Push(newValue: T)
      requires Valid()
      modifies this, tail
      ensures Valid() && Contents == old(Contents) + [newValue]
      ensures tail != old(tail) && fresh(tail) && Nodes == old(Nodes) + [tail] && head == old(head)
    {
      var p := new ListNode<T>();
      tail.data := Some(newValue);
      tail.next := p;
      tail := p;
      Contents, Nodes := Contents + [newValue], Nodes + [p];
      forall i: nat | i < |Contents|
        ensures NodeIs(Nodes, Contents, i)
      {
        if i + 1 < |Contents| { assert old(NodeIs(Nodes, Contents, i)); }
      }
    }

    /** Unlinks the first node, which is not the dummy. */
    method PopHead() returns (oldHead: ListNode<T>)
      requires Valid() && head != tail
      modifies this
      ensures Valid() && old(Contents) != [] && Contents == old(Contents)[1..] && Nodes == old(Nodes)[1..]
      ensures oldHead == old(head) && oldHead.data == Some(old(Contents)[0]) && tail == old(tail)
    {
      assert NodeIs(Nodes, Contents, 0);
      oldHead := head;
      head := oldHead.next;
      Contents, Nodes := Contents[1..], Nodes[1..];
      forall i: nat | i < |Contents|
        ensures NodeIs(Nodes, Contents, i)
      {
        assert old(NodeIs(Nodes, Contents, i + 1));
      }
    }

    /** The oldest element, or nothing. */
    method TryPop() returns (popped: Option<T>)
      requires Valid()
      modifies this
      ensures Valid()
      ensures if old(Contents) == [] then popped == None && Contents == []
        else popped == Some(old(Contents)[0]) && Contents == old(Contents)[1..]
    {
      assert Contents != [] ==> Nodes[0] != Nodes[|Contents|];
      if head == tail {
        return None;
      }
      var oldHead := PopHead();
      popped := oldHead.data;
    }

    method Empty() returns (empty: bool)
      requires Valid()
      ensures empty <==> Contents == []
    {
      assert Contents != [] ==> Nodes[0] != Nodes[|Contents|];
      empty := head == tail;
    }
  }
}
