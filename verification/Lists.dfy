/** The linked lists of the pools and of the waiters: `List<T>` and `bMutexCondTaskList`. */
module Lists {
  import opened RuntimeSpec

  class ListNode<T> {
    var next: ListNode?<T>
    var prev: ListNode?<T>
    const value: T
    /** The list that this node was made for. */
    ghost const owner: object

    constructor (value: T, ghost owner: object)
      ensures next == null && prev == null && this.value == value && this.owner == owner
    {
      next, prev := null, null;
      this.value, this.owner := value, owner;
    }
  }

  ghost predicate LinkAt<T>(nodes: seq<ListNode<T>>, k: nat)
    requires k < |nodes|
    reads nodes[k]
  {
    && nodes[k].prev == (if k == 0 then null else nodes[k - 1])
    && nodes[k].next == (if k == |nodes| - 1 then null else nodes[k + 1])
  }

  /** The nodes from head to tail, linked both ways and made for this list. */
  ghost predicate Linked<T>(nodes: seq<ListNode<T>>, head: ListNode?<T>, tail: ListNode?<T>, owner: object)
    reads nodes
  {
    && (forall k :: 0 <= k < |nodes| ==> nodes[k].owner == owner)
    && (forall j, k :: 0 <= j < k < |nodes| ==> nodes[j] != nodes[k])
    && (forall k: nat :: k < |nodes| ==> LinkAt(nodes, k))
    && head == (if nodes == [] then null else nodes[0])
    && tail == (if nodes == [] then null else nodes[|nodes| - 1])
  }

  ghost function Values<T>(nodes: seq<ListNode<T>>): (v: seq<T>)
    ensures |v| == |nodes| && forall k :: 0 <= k < |v| ==> v[k] == nodes[k].value
  {
    seq(|nodes|, k requires 0 <= k < |nodes| => nodes[k].value)
  }

  lemma ValuesOfRest<T>(nodes: seq<ListNode<T>>)
    requires nodes != []
    ensures Values(nodes) == [nodes[0].value] + Values(nodes[1..])
  {
  }

  /** `List<T>`. */
  class List<T> {
    var Head: ListNode?<T>
    var Tail: ListNode?<T>
    var size: nat
    ghost var nodes: seq<ListNode<T>>

    ghost predicate Valid()
      reads this, nodes
    {
      Linked(nodes, Head, Tail, this) && size == |nodes|
    }

    ghost function Contents(): seq<T>
      reads this
    {
      Values(nodes)
    }

    ghost function Nodes(): set<ListNode<T>>
      reads this
    {
      set k | 0 <= k < |nodes| :: nodes[k]
    }

    lemma Owns()
      requires Valid()
      ensures forall n :: n in nodes ==> n.owner == this
    {
    }

    /** Changes elsewhere leave the list alone. */
    twostate lemma Undisturbed()
      requires old(Valid()) && unchanged(this) && unchanged(old(nodes))
      ensures Valid() && Contents() == old(Contents()) && Nodes() == old(Nodes())
    {
      forall k: nat | k < |nodes| ensures LinkAt(nodes, k) {
        assert old(LinkAt(nodes, k));
      }
    }

    constructor ()
      ensures Valid() && Contents() == [] && nodes == []
    {
      Head, Tail, size, nodes := null, null, 0, [];
    }

    method pop() returns (r: Option<T>)
      requires Valid()
      modifies this, nodes
      ensures Valid() && size == |Contents()|
      ensures r == if old(Contents()) == [] then None else Some(old(Contents())[0])
      ensures Contents() == if r.None? then old(Contents()) else old(Contents())[1..]
      ensures Nodes() <= old(Nodes())
    {
      if Head == null {
        return None;
      }
      size := size - 1;
      ghost var was := nodes;
      assert LinkAt(nodes, 0);
      r := Some(Head.value);
      if Tail == Head {
        Head, Tail, nodes := null, null, [];
        return;
      }
      assert |nodes| > 1 && LinkAt(nodes, 1);
      Head := Head.next;
      Head.prev := null;
      nodes := nodes[1..];
      forall k: nat | k < |nodes| ensures LinkAt(nodes, k) {
        assert old(LinkAt(nodes, k + 1));
      }
    }

    method push(val: T)
      requires Valid()
      modifies this, nodes
      ensures Valid() && size == |Contents()| && Contents() == old(Contents()) + [val]
      ensures fresh(Nodes() - old(Nodes()))
    {
      size := size + 1;
      var i := new ListNode<T>(val, this);
      if Tail == null {
        Head := i;
        Tail := i;
      } else {
        Tail.next := i;
        i.prev := Tail;
        Tail := i;
      }
      ghost var was := nodes;
      nodes := nodes + [i];
      forall k: nat | k < |nodes| ensures LinkAt(nodes, k) {
        if k < |was| {
          assert old(LinkAt(nodes, k));
        }
      }
    }
  }

  /** `bMutexCondTaskList`, when its lock is free. */
  class bMutexCondTaskList {
    var head: ListNode?<Rid>
    var tail: ListNode?<Rid>
    ghost var nodes: seq<ListNode<Rid>>

    ghost predicate Valid()
      reads this, nodes
    {
      Linked(nodes, head, tail, this)
    }

    ghost function Contents(): seq<Rid>
      reads this
    {
      Values(nodes)
    }

    ghost function Nodes(): set<ListNode<Rid>>
      reads this
    {
      set k | 0 <= k < |nodes| :: nodes[k]
    }

    lemma Owns()
      requires Valid()
      ensures forall n :: n in nodes ==> n.owner == this
    {
    }

    /** Changes elsewhere leave the list alone. */
    twostate lemma Undisturbed()
      requires old(Valid()) && unchanged(this) && unchanged(old(nodes))
      ensures Valid() && Contents() == old(Contents()) && Nodes() == old(Nodes())
    {
      forall k: nat | k < |nodes| ensures LinkAt(nodes, k) {
        assert old(LinkAt(nodes, k));
      }
    }

    constructor ()
      ensures Valid() && Contents() == [] && nodes == []
    {
      head, tail, nodes := null, null, [];
    }

    method add(r: Rid)
      requires Valid()
      modifies this, nodes
      ensures Valid() && Contents() == old(Contents()) + [r]
      ensures fresh(Nodes() - old(Nodes()))
    {
      var i := new ListNode<Rid>(r, this);
      if tail == null {
        head := i;
        tail := i;
      } else {
        tail.next := i;
        i.prev := tail;
        tail := i;
      }
      ghost var was := nodes;
      nodes := nodes + [i];
      forall k: nat | k < |nodes| ensures LinkAt(nodes, k) {
        if k < |was| {
          assert old(LinkAt(nodes, k));
        }
      }
    }

    /** The first waiter, cut off from the list. */
    method pop() returns (result: ListNode?<Rid>)
      requires Valid()
      modifies this, nodes
      ensures Valid() && Nodes() <= old(Nodes())
      ensures result == null <==> old(Contents()) == []
      ensures result == null ==> Contents() == []
      ensures result != null ==> [result.value] + Contents() == old(Contents()) && result.next == null && result.prev == null
    {
      if head == null {
        return null;
      }
      assert LinkAt(nodes, 0) && (|nodes| > 1 ==> LinkAt(nodes, 1));
      ValuesOfRest(nodes);
      hide Values;
      result := head;
      if head == tail {
        assert nodes[1..] == [];
        head, tail, nodes := null, null, nodes[1..];
        return;
      }
      head := head.next;
      head.prev := null;
      result.next := null;
      nodes := nodes[1..];
      forall k: nat | k < |nodes| ensures LinkAt(nodes, k) {
        assert old(LinkAt(nodes, k + 1));
      }
    }
  }
}
