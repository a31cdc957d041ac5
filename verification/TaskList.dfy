/**
  `TaskItem` and `TaskItemsList` on the heap: the intrusive doubly linked list behind the ready
  queue and the timer buckets, as its "unsafe" operations see it with the mutexes already held.
 */
module TaskList {

  /** `ItemCount` is a 32-bit unsigned counter. */
  function Wrap(n: int): (c: nat) {
    n % 0x1_0000_0000
  }

  lemma WrapStep(n: int)
    ensures Wrap(Wrap(n) + 1) == Wrap(n + 1) && Wrap(Wrap(n) - 1) == Wrap(n - 1)
  {
  }

  class TaskItem {
    var prev: TaskItem?
    var next: TaskItem?
    var owner: TaskItemsList?
    const address: nat
    /** The routine this item dispatches, and whether it is the main routine (`self->IsMain`). */
    const self: nat
    const isMain: bool

    predicate Detached()
      reads this
    {
      prev == null && next == null && owner == null
    }

    constructor (address: nat, self: nat, isMain: bool)
      ensures Detached() && this.address == address && this.self == self && this.isMain == isMain
    {
      prev, next, owner := null, null, null;
      this.address, this.self, this.isMain := address, self, isMain;
    }
  }

  class TaskItemsList {
    var head: TaskItem?
    var tail: TaskItem?
    var ItemCount: nat
    /** The items from head to tail. */
    ghost var items: seq<TaskItem>
    /** How often an item left through `RemoveSelfFromOwnerlink_Save`. */
    ghost var cancelled: nat

    ghost predicate LinkAt(k: nat)
      requires k < |items|
      reads `items, items
    {
      var i := items[k];
      && i.owner == this
      && i.prev == (if k == 0 then null else items[k - 1])
      && i.next == (if k == |items| - 1 then null else items[k + 1])
    }

    ghost predicate Linked()
      reads `items, `head, `tail, items
    {
      && (forall j, k :: 0 <= j < k < |items| ==> items[j] != items[k])
      && (forall k: nat :: k < |items| ==> LinkAt(k))
      && head == (if items == [] then null else items[0])
      && tail == (if items == [] then null else items[|items| - 1])
    }

    /** The list is linked and counted, up to one lost decrement for every cancellation. */
    ghost predicate Valid()
      reads this, items
    {
      Linked() && ItemCount == Wrap(|items| + cancelled)
    }

    ghost function All(): set<TaskItem>
      reads this
    {
      set k | 0 <= k < |items| :: items[k]
    }

    lemma OwnsItems()
      requires Linked()
      ensures forall x :: x in items ==> x.owner == this
      ensures items != [] ==> LinkAt(0) && LinkAt(|items| - 1)
      ensures head == (if items == [] then null else items[0]) && (tail != null ==> tail in items)
    {
      forall x | x in items ensures x.owner == this {
        var k :| 0 <= k < |items| && items[k] == x;
        assert LinkAt(k);
      }
    }

    lemma DistinctItems()
      requires Linked()
      ensures forall j, k :: 0 <= j < k < |items| ==> items[j] != items[k]
    {
    }

    constructor ()
      ensures Valid() && items == [] && cancelled == 0
    {
      head, tail, ItemCount := null, null, 0;
      items, cancelled := [], 0;
    }

    method PushBackUnsafe(i: TaskItem?)
      requires Valid() && (i != null ==> i.Detached())
      modifies this, i, tail
      ensures Valid() && cancelled == old(cancelled)
      ensures items == if i == null then old(items) else old(items) + [i]
      ensures i == null ==> unchanged(this)
    {
      if i == null { return; }
      OwnsItems();
      WrapStep(|items| + cancelled);
      ItemCount := Wrap(ItemCount + 1);
      if head == null && tail == null {
        head := i;
        tail := i;
      } else {
        tail.next := i;
        i.prev := tail;
        tail := i;
        i.next := null;
      }
      i.owner := this;
      ghost var was := items;
      items := items + [i];
      forall k: nat | k < |items| ensures LinkAt(k) {
        if k < |was| {
          assert old(LinkAt(k)) && was[k] != i;
          assert k < |was| - 1 ==> was[k] != old(tail);
        }
      }
    }

    /** `RemoveSelfFromOwnerlink`: unlink from the head, the tail or the middle. */
    static method RemoveSelfFromOwnerlink(i: TaskItem?, ghost k: nat) returns (r: TaskItem?)
      requires i != null && i.owner != null ==> i.owner.Linked() && k < |i.owner.items| && i.owner.items[k] == i
      modifies if i != null && i.owner != null then {i, i.owner} + (set x | x in i.owner.items) else {}
      ensures i == null || old(i.owner) == null ==> r == null
      ensures i != null && old(i.owner) != null ==>
                var o := old(i.owner);
                && r == i && i.Detached() && o.Linked()
                && o.items == old(i.owner.items)[..k] + old(i.owner.items)[k + 1..]
                && o.ItemCount == old(i.owner.ItemCount) && o.cancelled == old(i.owner.cancelled)
    {
      if i == null || i.owner == null { return null; }
      var o := i.owner;
      assert o.LinkAt(k);
      assert k > 0 ==> o.LinkAt(k - 1);
      assert k + 1 < |o.items| ==> o.LinkAt(k + 1);
      if o.head == i {
        if i == o.tail {
          o.head := null;
          o.tail := null;
        } else {
          i.next.prev := null;
          o.head := i.next;
        }
        i.next := null;
        i.owner := null;
      } else if i == o.tail {
        o.tail := i.prev;
        i.prev.next := null;
        i.prev := null;
        i.owner := null;
      } else {
        var p, n := i.prev, i.next;
        i.owner := null;
        p.next := n;
        n.prev := p;
        i.next := null;
        i.prev := null;
      }
      o.items := o.items[..k] + o.items[k + 1..];
      forall j: nat | j < |o.items| ensures o.LinkAt(j) {
        assert old(o.LinkAt(if j < k then j else j + 1));
      }
      return i;
    }

    /** `RemoveSelfFromOwnerlink_Save`: a cancellation, after which `ItemCount` is one too high. */
    static method RemoveSelfFromOwnerlinkSave(i: TaskItem, ghost k: nat) returns (r: TaskItem?)
      requires i.owner != null && i.owner.Valid() && k < |i.owner.items| && i.owner.items[k] == i
      modifies i.owner, i.owner.items
      ensures var o := old(i.owner);
              && r == i && i.Detached() && o.Valid()
              && o.items == old(i.owner.items)[..k] + old(i.owner.items)[k + 1..]
              && o.ItemCount == old(i.owner.ItemCount) && o.cancelled == old(i.owner.cancelled) + 1
    {
      var o := i.owner;
      r := RemoveSelfFromOwnerlink(i, k);
      o.cancelled := o.cancelled + 1;
    }

    /**
      `popHeadUnsafe`: it gives up exactly when the list is empty or when length and
      cancellations together are a multiple of 2^32.
     */
    method PopHeadUnsafe() returns (r: TaskItem?)
      requires Valid()
      modifies this, items
      ensures Valid() && cancelled == old(cancelled)
      ensures r == null <==> old(items == [] || Wrap(|items| + cancelled) == 0)
      ensures r == null ==> unchanged(this) && unchanged(old(items))
      ensures r != null ==> old(items) == [r] + items && r.Detached()
    {
      if ItemCount == 0 || tail == null || head == null { return null; }
      OwnsItems();
      WrapStep(|items| + cancelled);
      ItemCount := Wrap(ItemCount - 1);
      r := RemoveSelfFromOwnerlink(head, 0);
    }

    /** Give a detached item to another list; this list does not notice. */
    method HandTo(dst: TaskItemsList, t: TaskItem)
      requires Valid() && dst.Valid() && dst != this && t.Detached()
      modifies dst, t, dst.items
      ensures Valid() && unchanged(this)
      ensures dst.Valid() && dst.items == old(dst.items) + [t] && dst.cancelled == old(dst.cancelled)
    {
      OwnsItems();
      dst.OwnsItems();
      hide Linked, LinkAt;
      assert t !in items && (dst.tail != null ==> dst.tail !in items);
      dst.PushBackUnsafe(t);
      assert unchanged(this) && unchanged(items);
    }

    twostate lemma Undisturbed()
      requires old(Valid()) && unchanged(this) && unchanged(old(items))
      ensures Valid()
    {
      forall k: nat | k < |items| ensures LinkAt(k) {
        assert old(LinkAt(k));
      }
    }

    /** Unlink the head; another list does not notice. */
    method UnlinkHead(ghost other: TaskItemsList) returns (t: TaskItem)
      requires Valid() && items != [] && other.Valid() && other != this
      modifies this, items
      ensures Linked() && items == old(items)[1..] && t == old(items)[0] && t.Detached()
      ensures cancelled == old(cancelled) && ItemCount == old(ItemCount)
      ensures other.Valid() && unchanged(other)
    {
      HeadOf();
      Apart(other);
      hide *;
      t := RemoveSelfFromOwnerlink(head, 0);
      WithoutFirst(old(items));
      other.Undisturbed();
    }

    static lemma WithoutFirst(s: seq<TaskItem>)
      requires s != []
      ensures s[..0] + s[1..] == s[1..]
    {
    }

    lemma HeadOf()
      requires Valid() && items != []
      ensures Linked() && head == items[0] && head.owner == this
    {
      OwnsItems();
    }

    /** Two lists have no item in common. */
    lemma Apart(other: TaskItemsList)
      requires Valid() && other.Valid() && other != this
      ensures forall k :: 0 <= k < |other.items| ==> other.items[k] !in items
    {
      OwnsItems();
      other.OwnsItems();
      hide Linked, LinkAt, Wrap;
    }

    /** Unlink the head and count it; another list does not notice. */
    method TakeHead(ghost other: TaskItemsList) returns (t: TaskItem)
      requires Valid() && items != [] && other.Valid() && other != this
      modifies this, items
      ensures Valid() && items == old(items)[1..] && t == old(items)[0] && t.Detached() && cancelled == old(cancelled)
      ensures other.Valid() && unchanged(other)
    {
      WrapStep(|items| + cancelled);
      hide Linked, LinkAt, Wrap;
      t := UnlinkHead(other);
      other.OwnsItems();
      assert |old(items)| + cancelled - 1 == |items| + cancelled;
      ItemCount := Wrap(ItemCount - 1);
    }

    /** One round of the loop of `pushAll2`. */
    method MoveHead(dst: TaskItemsList)
      requires Valid() && dst.Valid() && dst != this && items != []
      modifies this, items, dst, dst.items
      ensures Valid() && items == old(items)[1..] && cancelled == old(cancelled)
      ensures dst.Valid() && dst.items == old(dst.items) + [old(items)[0]] && dst.cancelled == old(dst.cancelled)
    {
      hide Linked, LinkAt, Wrap, Valid;
      var t := TakeHead(dst);
      HandTo(dst, t);
    }

    lemma HeadIsFirst()
      requires Valid()
      ensures head == null <==> items == []
    {
    }

    /** `pushAll2`: append this list to dst, in order, and leave it empty; cancellations stay counted. */
    method PushAll2(dst: TaskItemsList)
      requires Valid() && dst.Valid() && dst != this
      modifies this, items, dst, dst.items
      ensures Valid() && items == [] && cancelled == old(cancelled)
      ensures dst.Valid() && dst.items == old(dst.items) + old(items) && dst.cancelled == old(dst.cancelled)
    {
      hide Linked, LinkAt, Wrap, Valid;
      HeadIsFirst();
      ghost var mine, theirs := items, dst.items;
      while head != null
        invariant Valid() && cancelled == old(cancelled) && (head == null <==> items == [])
        invariant dst.Valid() && dst.cancelled == old(dst.cancelled)
        invariant dst.items + items == theirs + mine
        invariant forall k :: 0 <= k < |items| ==> items[k] in mine
        invariant forall k :: 0 <= k < |dst.items| ==> dst.items[k] in theirs || dst.items[k] in mine
        decreases |items|
      {
        ghost var all := dst.items + items;
        MoveHead(dst);
        HeadIsFirst();
        assert dst.items + items == all;
      }
    }

    /**
      `Try2stealTask` on this ready queue; t says whether the two trylocks succeed. No cancellation
      touches a ready queue, so its count is its length. What is handed out is out of the list,
      unless it is the main item that was put back.
     */
    method Try2stealTask(t: Try) returns (a: TaskItem?)
      requires Valid() && cancelled == 0 && |items| < 0x1_0000_0000
      modifies this, items
      ensures Valid() && cancelled == 0
      ensures items == Remains(old(items), t) && a == HandedOut(old(items), t)
      ensures a != null && !StealsMain(old(items), t) ==> a.Detached()
    {
      if ItemCount == 0 || !t.headFree { return null; }
      OwnsItems();
      if ItemCount < 2 {
        if !t.tailFree { return null; }
        a := PopHeadUnsafe();
        if a.isMain {
          PushBackUnsafe(a);
        }
      } else {
        a := PopHeadUnsafe();
        if a.isMain {
          PushBackUnsafe(a);
          return null;
        }
      }
    }
  }

  // ---- one attempt to steal, on values ------------------------------------------------------------

  /** Whether the two trylocks of an attempt succeed. */
  datatype Try = Try(headFree: bool, tailFree: bool)

  /** The attempt gets as far as popping the first item of q. */
  predicate Pops(q: seq<TaskItem>, t: Try) {
    q != [] && t.headFree && (|q| >= 2 || t.tailFree)
  }

  /** What the attempt leaves of q: a main item goes from the front to the end. */
  function Remains(q: seq<TaskItem>, t: Try): seq<TaskItem> {
    if !Pops(q, t) then q else if q[0].isMain then q[1..] + [q[0]] else q[1..]
  }

  /** What the attempt hands out. */
  function HandedOut(q: seq<TaskItem>, t: Try): TaskItem? {
    if Pops(q, t) && (!q[0].isMain || |q| == 1) then q[0] else null
  }

  /** The one-item branch hands out the main item although it has put it back. */
  predicate StealsMain(q: seq<TaskItem>, t: Try) {
    Pops(q, t) && |q| == 1 && q[0].isMain
  }

  /** An attempt conserves the tasks, and never hands out a main routine, exactly outside that branch. */
  lemma StealConserves(q: seq<TaskItem>, t: Try)
    ensures var a := HandedOut(q, t);
            && (multiset(Remains(q, t)) + (if a == null then multiset{} else multiset{a}) == multiset(q) <==> !StealsMain(q, t))
            && (a != null && a.isMain <==> StealsMain(q, t))
  {
    if q != [] {
      assert q == [q[0]] + q[1..];
    }
    if StealsMain(q, t) {
      assert Remains(q, t) == q;
      assert multiset(q)[q[0]] == 1;
      assert (multiset(q) + multiset{q[0]})[q[0]] == 2;
    }
  }

  /** An attempt hands out the first item, exactly when it can have the mutexes that it needs and would not hand out the main item of a longer queue. */
  lemma StealsTheFirst(q: seq<TaskItem>, t: Try)
    ensures var a := HandedOut(q, t);
            && (a != null <==> q != [] && t.headFree && (if |q| == 1 then t.tailFree else !q[0].isMain))
            && (a != null ==> a == q[0])
    ensures !StealsMain(q, t) ==> if HandedOut(q, t) != null then Remains(q, t) == q[1..]
                                  else Remains(q, t) == q || Remains(q, t) == q[1..] + q[..1]
  {
  }
}
