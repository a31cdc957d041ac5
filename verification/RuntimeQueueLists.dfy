/** The ready queue and the wait lists on the linked lists of the source, by the specification of the queues on values. */
module RuntimeQueueLists {
  import opened RuntimeSpec
  import opened Lists
  import opened TaskList

  /** The `list` of each mutex and of each condition that has been waited for. */
  class WaitLists {
    var lists: map<ListId, bMutexCondTaskList>

    ghost function Nodes(): set<ListNode<Rid>>
      reads this, lists.Values
    {
      set l, k | l in lists && 0 <= k < |lists[l].nodes| :: lists[l].nodes[k]
    }

    ghost function Repr(): set<object>
      reads this, lists.Values
    {
      lists.Values + Nodes()
    }

    /** Every list is linked, and no two share a node. */
    ghost predicate Valid()
      reads this, lists.Values, Nodes()
    {
      && (forall l :: l in lists ==> lists[l].Valid())
      && (forall l, m :: l in lists && m in lists && l != m ==> lists[l] != lists[m])
    }

    ghost function Waits(): map<ListId, seq<Rid>>
      reads this, lists.Values
    {
      map l | l in lists :: lists[l].Contents()
    }

    lemma Owned()
      requires Valid()
      ensures forall n :: n in Nodes() ==> n.owner is bMutexCondTaskList
    {
      hide Linked, LinkAt;
      forall l | l in lists ensures forall n :: n in lists[l].nodes ==> n.owner == lists[l] { lists[l].Owns(); }
    }

    twostate lemma Undisturbed()
      requires old(Valid()) && unchanged(this) && unchanged(lists.Values) && unchanged(old(Nodes()))
      ensures Valid() && Waits() == old(Waits()) && Repr() == old(Repr())
    {
    }

    constructor ()
      ensures Valid() && Waits() == map[] && Repr() == {}
    {
      lists := map[];
    }

    lemma Apart(l: ListId)
      requires Valid() && l in lists
      ensures forall m :: m in lists && m != l ==>
                lists[m] != lists[l] && forall k :: 0 <= k < |lists[m].nodes| ==> lists[m].nodes[k] !in lists[l].nodes
    {
      forall m | m in lists ensures forall n :: n in lists[m].nodes ==> n.owner == lists[m] { lists[m].Owns(); }
    }

    /** What happens to one list does not reach the others. */
    twostate lemma OthersUndisturbed(l: ListId)
      requires old(Valid()) && l in lists && unchanged(this)
      requires forall m :: m in lists && m != l ==>
                 unchanged(lists[m]) && forall k :: 0 <= k < |old(lists[m].nodes)| ==> unchanged(old(lists[m].nodes[k]))
      ensures forall m :: m in lists && m != l ==> lists[m].Valid() && lists[m].Contents() == old(lists[m].Contents())
      ensures forall n :: n in Nodes() ==> n in old(Nodes()) || n in lists[l].Nodes()
    {
      hide Linked, LinkAt, Values;
      forall m | m in lists && m != l
        ensures lists[m].Valid() && lists[m].Contents() == old(lists[m].Contents())
      {
        lists[m].Undisturbed();
      }
    }

    /** Take the first node off one linked list; the others are not touched. */
    method PopFrom(l: ListId) returns (r: Option<Rid>)
      requires Valid() && l in lists
      modifies lists[l], lists[l].nodes
      ensures Valid() && Nodes() <= old(Nodes())
      ensures r == if old(lists[l].Contents()) == [] then None else Some(old(lists[l].Contents())[0])
      ensures lists[l].Contents() == if r.None? then old(lists[l].Contents()) else old(lists[l].Contents())[1..]
      ensures forall m :: m in lists && m != l ==> lists[m].Contents() == old(lists[m].Contents())
    {
      hide Linked, LinkAt, Values;
      Apart(l);
      ghost var was := lists[l].Contents();
      var task := lists[l].pop();
      OthersUndisturbed(l);
      r := if task == null then None else Some(task.value);
      assert task != null ==> was == [task.value] + lists[l].Contents();
    }

    /** `bMutexCondTaskList::pop` on the list l: its first waiter, if it has one. */
    method Pop(l: ListId) returns (r: Option<Rid>)
      requires Valid()
      modifies Repr()
      ensures Valid() && Repr() <= old(Repr())
      ensures r == if l !in old(Waits()) || old(Waits())[l] == [] then None else Some(old(Waits())[l][0])
      ensures Waits() == if r.None? then old(Waits()) else old(Waits())[l := old(Waits())[l][1..]]
    {
      hide Linked, LinkAt, Values, Valid, bMutexCondTaskList.Contents, bMutexCondTaskList.Valid;
      if l !in lists {
        return None;
      }
      assert forall k :: 0 <= k < |lists[l].nodes| ==> lists[l].nodes[k] in Nodes();
      r := PopFrom(l);
    }

    /** The list of a mutex or condition that has not been waited for yet. */
    method Open(l: ListId)
      requires Valid() && l !in lists
      modifies this
      ensures l in lists && Valid() && fresh(lists[l]) && lists[l].nodes == [] && lists[l].Contents() == []
      ensures lists == old(lists)[l := lists[l]] && Nodes() == old(Nodes())
    {
      hide Linked, LinkAt, Values, bMutexCondTaskList.Contents, bMutexCondTaskList.Valid;
      var list := new bMutexCondTaskList();
      lists := lists[l := list];
      assert forall m :: m in old(lists) ==> lists[m] == old(lists[m]) && lists[m] != list && lists[m].nodes == old(lists[m].nodes);
    }

    /** Append a node to one linked list; the others are not touched. */
    method AppendTo(l: ListId, r: Rid)
      requires Valid() && l in lists
      modifies lists[l], lists[l].nodes
      ensures Valid() && fresh(Nodes() - old(Nodes()))
      ensures lists[l].Contents() == old(lists[l].Contents()) + [r]
      ensures forall m :: m in lists && m != l ==> lists[m].Contents() == old(lists[m].Contents())
    {
      hide Linked, LinkAt, Values;
      Apart(l);
      lists[l].add(r);
      OthersUndisturbed(l);
    }

    method Append(l: ListId, r: Rid)
      requires Valid() && l in lists
      modifies Repr()
      ensures Valid() && fresh(Repr() - old(Repr()))
      ensures Waits() == old(Waits())[l := old(Waits())[l] + [r]]
    {
      hide Linked, LinkAt, Values, Valid, bMutexCondTaskList.Contents, bMutexCondTaskList.Valid;
      assert forall k :: 0 <= k < |lists[l].nodes| ==> lists[l].nodes[k] in Nodes();
      AppendTo(l, r);
    }

    method OpenIfNew(l: ListId)
      requires Valid()
      modifies this
      ensures Valid() && l in lists && fresh(Repr() - old(Repr()))
      ensures Waits() == if l in old(Waits()) then old(Waits()) else old(Waits())[l := []]
    {
      hide Linked, LinkAt, Values, Valid, Nodes, bMutexCondTaskList.Contents, bMutexCondTaskList.Valid;
      if l !in lists {
        Open(l);
        assert lists.Values <= old(lists.Values) + {lists[l]};
      }
    }

    /** `bMutexCondTaskList::add` on the list l. */
    method Add(l: ListId, r: Rid)
      requires Valid()
      modifies this, Repr()
      ensures Valid() && fresh(Repr() - old(Repr()))
      ensures Waits() == old(Waits())[l := (if l in old(Waits()) then old(Waits())[l] else []) + [r]]
    {
      hide Linked, LinkAt, Values, Valid, Waits;
      OpenIfNew(l);
      Append(l, r);
    }
  }

  ghost function Tasks(items: seq<TaskItem>): (t: seq<Item>)
    ensures |t| == |items| && forall k :: 0 <= k < |t| ==> t[k] == Item(items[k].address, items[k].self)
  {
    seq(|items|, k requires 0 <= k < |items| => Item(items[k].address, items[k].self))
  }

  lemma TasksOfMore(items: seq<TaskItem>, i: TaskItem)
    ensures Tasks(items + [i]) == Tasks(items) + [Item(i.address, i.self)]
    ensures Tasks([i] + items) == [Item(i.address, i.self)] + Tasks(items)
  {
  }

  lemma WrapOfNone()
    ensures Wrap(0) == 0
  {
  }

  lemma WakeAllNone(q: Queues, l: ListId)
    ensures WaitsOn(q, l) == [] ==> WakeAll(q, l, []) == q
  {
  }

  lemma WakeAllMore(q: Queues, l: ListId, ts: seq<Tid>, k: nat)
    requires k < |ts| && |WaitsOn(q, l)| == |ts| - k
    ensures var n := WakeFirst(q, l, ts[k]);
            && WaitsOn(n, l) == WaitsOn(q, l)[1..] && WakeAll(n, l, ts[k + 1..]) == WakeAll(q, l, ts[k..])
            && n == RuntimeSpec.AddTask(q.(waits := q.waits[l := WaitsOn(q, l)[1..]]), Item(ts[k], WaitsOn(q, l)[0]))
  {
    assert ts[k..][1..] == ts[k + 1..];
  }

  lemma UnparkNone(q: Queues)
    ensures Unpark(q, Tasks([])) == q
  {
  }

  lemma UnparkMore(q: Queues, tasks: seq<TaskItem>, k: nat)
    requires k < |tasks|
    ensures Unpark(q, Tasks(tasks[..k + 1])) == Unpark(Unpark(q, Tasks(tasks[..k])), [Item(tasks[k].address, tasks[k].self)])
  {
    var i := Item(tasks[k].address, tasks[k].self);
    assert tasks[..k + 1] == tasks[..k] + [tasks[k]];
    TasksOfMore(tasks[..k], tasks[k]);
    assert (Tasks(tasks[..k]) + [i])[..k] == Tasks(tasks[..k]);
    assert [i][..0] == [];
  }

  /** The ready queue, the wait lists of the mutexes and conditions, and where else routines are kept. */
  class bQueues {
    const main: Rid
    const ActivetaskItems: TaskItemsList
    const waitLists: WaitLists
    var parked: set<Item>
    var unstarted: set<Rid>
    var live: set<Rid>
    var items: set<Tid>

    ghost function Repr(): set<object>
      reads ActivetaskItems, waitLists, waitLists.lists.Values
    {
      {ActivetaskItems, waitLists} + ActivetaskItems.All() + waitLists.Repr()
    }

    ghost predicate Valid()
      reads ActivetaskItems, ActivetaskItems.items, waitLists, waitLists.lists.Values, waitLists.Nodes()
    {
      && ActivetaskItems.Valid() && ActivetaskItems.cancelled == 0 && waitLists.Valid()
      && forall i :: i in ActivetaskItems.items ==> Marked(i)
    }

    /** A TaskItem is that of the main routine if it says so (`self->IsMain`), which is what stealing goes by. */
    predicate Marked(i: TaskItem) {
      i.isMain <==> i.self == main
    }

    ghost function View(): Queues
      reads this, ActivetaskItems, waitLists, waitLists.lists.Values
    {
      Queues(Tasks(ActivetaskItems.items), parked, waitLists.Waits(), unstarted, live, items)
    }

    constructor (main: Rid)
      ensures this.main == main && Valid() && forall o :: o in Repr() ==> fresh(o)
      ensures View() == Queues([], {}, map[], {}, {main}, {})
    {
      this.main := main;
      ActivetaskItems := new TaskItemsList();
      waitLists := new WaitLists();
      parked, unstarted, live, items := {}, {}, {main}, {};
    }

    /** Changes to the ready queue leave the wait lists alone. */
    method Link(i: TaskItem)
      requires Valid() && i.Detached() && Marked(i)
      modifies i, ActivetaskItems, ActivetaskItems.items
      ensures Valid() && waitLists.Waits() == old(waitLists.Waits()) && waitLists.Repr() == old(waitLists.Repr())
      ensures ActivetaskItems.items == old(ActivetaskItems.items) + [i]
    {
      ActivetaskItems.OwnsItems();
      hide TaskItemsList.Linked, TaskItemsList.LinkAt, Wrap, WaitLists.Valid, WaitLists.Waits, WaitLists.Repr, TaskItemsList.Valid;
      ActivetaskItems.PushBackUnsafe(i);
      assert unchanged(waitLists) && unchanged(waitLists.lists.Values) && unchanged(old(waitLists.Nodes()));
      waitLists.Undisturbed();
    }

    method Unlink() returns (i: TaskItem?)
      requires Valid()
      modifies ActivetaskItems, ActivetaskItems.items
      ensures Valid() && waitLists.Waits() == old(waitLists.Waits()) && waitLists.Repr() == old(waitLists.Repr())
      ensures i == null <==> Wrap(|old(ActivetaskItems.items)|) == 0
      ensures old(ActivetaskItems.items) == (if i == null then [] else [i]) + ActivetaskItems.items
      ensures i != null ==> Marked(i)
    {
      hide TaskItemsList.Linked, TaskItemsList.LinkAt, Wrap, WaitLists.Valid, WaitLists.Waits, WaitLists.Repr, TaskItemsList.Valid;
      WrapOfNone();
      i := ActivetaskItems.PopHeadUnsafe();
      assert unchanged(waitLists) && unchanged(waitLists.lists.Values) && unchanged(old(waitLists.Nodes()));
      waitLists.Undisturbed();
    }

    lemma Owned()
      requires Valid()
      ensures forall o: object :: o in Repr() ==>
                || o is TaskItemsList || o is TaskItem || o is WaitLists || o is bMutexCondTaskList
                || (o is ListNode<nat> && (o as ListNode<nat>).owner is bMutexCondTaskList)
    {
      hide TaskItemsList.Linked, TaskItemsList.LinkAt, TaskItemsList.Valid, Wrap, WaitLists.Valid;
      waitLists.Owned();
      hide WaitLists.Nodes;
    }

    /** Changes elsewhere leave the queues alone. */
    twostate lemma Undisturbed()
      requires old(Valid()) && unchanged(this) && unchanged(ActivetaskItems) && unchanged(old(ActivetaskItems.items))
      requires unchanged(waitLists) && unchanged(waitLists.lists.Values) && unchanged(old(waitLists.Nodes()))
      ensures Valid() && Repr() == old(Repr()) && View() == old(View())
    {
      hide Valid, WaitLists.Waits;
      ListsUndisturbed();
    }

    twostate lemma ListsUndisturbed()
      requires old(Valid()) && unchanged(ActivetaskItems) && unchanged(old(ActivetaskItems.items))
      requires unchanged(waitLists) && unchanged(waitLists.lists.Values) && unchanged(old(waitLists.Nodes()))
      ensures Valid() && Repr() == old(Repr()) && waitLists.Waits() == old(waitLists.Waits())
    {
      hide TaskItemsList.Linked, TaskItemsList.LinkAt, Wrap, WaitLists.Valid, WaitLists.Waits, TaskItemsList.Valid;
      ActivetaskItems.Undisturbed();
      waitLists.Undisturbed();
    }

    /** The address of a TaskItem that has been allocated. */
    method Allocate(t: Tid)
      requires Valid()
      modifies this`items
      ensures Valid() && Repr() == old(Repr()) && View() == old(View()).(items := old(View()).items + {t})
    {
      hide Valid, Repr, TaskItemsList.All, Tasks, WaitLists.Repr, WaitLists.Waits, WaitLists.Nodes;
      items := items + {t};
      ListsUndisturbed();
    }

    /** `TaskItem::Delete`. */
    method Delete(t: Tid)
      requires Valid()
      modifies this`items
      ensures Valid() && Repr() == old(Repr()) && View() == old(View()).(items := old(View()).items - {t})
    {
      hide Valid, Repr, TaskItemsList.All, Tasks, WaitLists.Repr, WaitLists.Waits, WaitLists.Nodes;
      items := items - {t};
      ListsUndisturbed();
    }

    method Park(i: Item)
      requires Valid()
      modifies this`parked, this`items
      ensures Valid() && Repr() == old(Repr()) && View() == RuntimeSpec.Park(old(View()), i)
    {
      hide Valid, Repr, TaskItemsList.All, Tasks, WaitLists.Repr, WaitLists.Waits, WaitLists.Nodes;
      parked, items := parked + {i}, items + {i.tid};
      ListsUndisturbed();
    }

    method Release(i: Item)
      requires Valid()
      modifies this`parked
      ensures Valid() && Repr() == old(Repr()) && View() == old(View()).(parked := old(View()).parked - {i})
    {
      hide Valid, Repr, TaskItemsList.All, Tasks, WaitLists.Repr, WaitLists.Waits, WaitLists.Nodes;
      parked := parked - {i};
      ListsUndisturbed();
    }

    method Create(r: Rid)
      requires Valid()
      modifies this`live, this`unstarted
      ensures Valid() && Repr() == old(Repr())
      ensures View() == old(View()).(live := old(View()).live + {r}, unstarted := old(View()).unstarted + {r})
    {
      hide Valid, Repr, TaskItemsList.All, Tasks, WaitLists.Repr, WaitLists.Waits, WaitLists.Nodes;
      live, unstarted := live + {r}, unstarted + {r};
      ListsUndisturbed();
    }

    method Start(r: Rid)
      requires Valid()
      modifies this`unstarted
      ensures Valid() && Repr() == old(Repr()) && View() == old(View()).(unstarted := old(View()).unstarted - {r})
    {
      hide Valid, Repr, TaskItemsList.All, Tasks, WaitLists.Repr, WaitLists.Waits, WaitLists.Nodes;
      unstarted := unstarted - {r};
      ListsUndisturbed();
    }

    method Remove(r: Rid)
      requires Valid()
      modifies this`live
      ensures Valid() && Repr() == old(Repr()) && View() == old(View()).(live := old(View()).live - {r})
    {
      hide Valid, Repr, TaskItemsList.All, Tasks, WaitLists.Repr, WaitLists.Waits, WaitLists.Nodes;
      live := live - {r};
      ListsUndisturbed();
    }

    /** `AddTask` throws for a routine that is a scheduler, and else links the item at the tail of the ready queue. */
    method AddTask(i: TaskItem, inProgress: set<Rid>) returns (thrown: bool)
      requires Valid() && i.Detached() && Marked(i)
      modifies this`items, i, ActivetaskItems, ActivetaskItems.items
      ensures Valid() && waitLists.Repr() == old(waitLists.Repr())
      ensures ActivetaskItems.items == if thrown then old(ActivetaskItems.items) else old(ActivetaskItems.items) + [i]
      ensures thrown <==> i.self in inProgress
      ensures View() == if thrown then old(View()) else RuntimeSpec.AddTask(old(View()), Item(i.address, i.self))
    {
      if i.self in inProgress {
        return true;
      }
      TasksOfMore(ActivetaskItems.items, i);
      hide Tasks, Valid, WaitLists.Waits, WaitLists.Repr;
      Allocate(i.address);
      Link(i);
      return false;
    }

    /** `TaskItem::New` and `AddTask`. */
    method Queue(t: Tid, r: Rid, inProgress: set<Rid>) returns (thrown: bool, ghost made: TaskItem)
      requires Valid()
      modifies this`items, Repr()
      ensures Valid() && Repr() <= old(Repr()) + {made} && fresh(made)
      ensures thrown <==> r in inProgress
      ensures View() == if thrown then old(View()) else RuntimeSpec.AddTask(old(View()), Item(t, r))
    {
      hide Valid, View;
      var i := new TaskItem(t, r, r == main);
      thrown := AddTask(i, inProgress);
      made := i;
    }

    /** popHead of the ready queue: null exactly when the 32-bit count is 0. */
    method PopHead() returns (i: TaskItem?)
      requires Valid()
      modifies Repr()
      ensures Valid() && Repr() <= old(Repr())
      ensures i == null <==> Wrap(|old(View()).ready|) == 0
      ensures i == null ==> View() == old(View())
      ensures i != null ==> Marked(i)
      ensures i != null ==> old(View()).ready == [Item(i.address, i.self)] + View().ready
      ensures i != null ==> View() == old(View()).(ready := View().ready)
    {
      hide Tasks, Valid, WaitLists.Waits, WaitLists.Repr, Wrap;
      i := Unlink();
      assert forall k :: 0 <= k < |ActivetaskItems.items| ==> ActivetaskItems.items[k] in old(ActivetaskItems.items);
      if i != null {
        TasksOfMore(ActivetaskItems.items, i);
      }
    }

    /** `bMutexCondTaskList::add`; with one scheduler its lock is always free. */
    method Add(l: ListId, r: Rid)
      requires Valid()
      modifies Repr()
      ensures Valid() && fresh(Repr() - old(Repr()))
      ensures View() == AddWaiter(old(View()), l, r)
    {
      hide TaskItemsList.Linked, TaskItemsList.LinkAt, Wrap, WaitLists.Valid, WaitLists.Waits, TaskItemsList.Valid;
      waitLists.Add(l, r);
      ActivetaskItems.Undisturbed();
    }

    /** `bMutexCondTaskList::pop`. */
    method Pop(l: ListId) returns (r: Option<Rid>)
      requires Valid()
      modifies Repr()
      ensures Valid() && Repr() <= old(Repr())
      ensures r == if WaitsOn(old(View()), l) == [] then None else Some(WaitsOn(old(View()), l)[0])
      ensures View() == if r.None? then old(View()) else old(View()).(waits := old(View()).waits[l := WaitsOn(old(View()), l)[1..]])
    {
      hide TaskItemsList.Linked, TaskItemsList.LinkAt, Wrap, WaitLists.Valid, WaitLists.Waits, TaskItemsList.Valid;
      r := waitLists.Pop(l);
      ActivetaskItems.Undisturbed();
    }

    /** One round of the loop of `signalAll`: the routine r that was popped is queued, and the next one is popped. */
    method WakeOne(l: ListId, t: Tid, r: Rid, inProgress: set<Rid>) returns (next: Option<Rid>, ghost made: TaskItem)
      requires Valid() && r !in inProgress
      modifies this`items, Repr()
      ensures Valid() && Repr() <= old(Repr()) + {made} && fresh(made)
      ensures var q := RuntimeSpec.AddTask(old(View()), Item(t, r));
              && next == (if WaitsOn(q, l) == [] then None else Some(WaitsOn(q, l)[0]))
              && View() == if next.None? then q else q.(waits := q.waits[l := WaitsOn(q, l)[1..]])
    {
      hide Valid, View, Repr;
      var thrown;
      thrown, made := Queue(t, r, inProgress);
      next := Pop(l);
    }

    /** The loop of `signalAll`: ts are the addresses of the TaskItems that it makes. */
    method SignalAll(c: nat, ts: seq<Tid>, inProgress: set<Rid>)
      requires Valid() && |ts| == |WaitsOn(View(), OfCond(c))|
      requires forall r :: r in WaitsOn(View(), OfCond(c)) ==> r !in inProgress
      modifies this`items, Repr()
      ensures Valid() && fresh(Repr() - old(Repr()))
      ensures View() == WakeAll(old(View()), OfCond(c), ts)
    {
      hide Valid, View, Repr, WakeAll, WakeFirst;
      ghost var made: set<object> := {};
      var l, k := OfCond(c), 0;
      ghost var q := View();
      assert ts[0..] == ts;
      var t := Pop(l);
      WakeAllNone(q, l);
      while t.Some?
        invariant Valid() && Repr() <= old(Repr()) + made && fresh(made)
        invariant k <= |ts| && |WaitsOn(q, l)| == |ts| - k
        invariant WakeAll(q, l, ts[k..]) == WakeAll(old(View()), l, ts)
        invariant forall r :: r in WaitsOn(q, l) ==> r !in inProgress
        invariant t == if k == |ts| then None else Some(WaitsOn(q, l)[0])
        invariant View() == if k == |ts| then q else q.(waits := q.waits[l := WaitsOn(q, l)[1..]])
        decreases |ts| - k
      {
        WakeAllMore(q, l, ts, k);
        q := WakeFirst(q, l, ts[k]);
        ghost var i;
        t, i := WakeOne(l, ts[k], t.value, inProgress);
        made := made + {i};
        k := k + 1;
      }
      WakeAllNone(q, l);
    }

    lemma QueuedAreOwned()
      requires Valid()
      ensures forall x :: x in ActivetaskItems.items ==> x.owner == ActivetaskItems
    {
      ActivetaskItems.OwnsItems();
    }

    /** A poll's TaskItem, which has left the wheel, is queued. */
    method ReleaseOne(i: TaskItem, inProgress: set<Rid>)
      requires Valid() && i.Detached() && Marked(i) && i.self !in inProgress
      modifies this`parked, this`items, i, ActivetaskItems, ActivetaskItems.items
      ensures Valid() && Repr() <= old(Repr()) + {i}
      ensures ActivetaskItems.items == old(ActivetaskItems.items) + [i]
      ensures View() == Unpark(old(View()), [Item(i.address, i.self)])
    {
      Release(Item(i.address, i.self));
      hide Valid, View, WaitLists.Repr;
      var thrown := AddTask(i, inProgress);
    }

    /** The queueing part of `Deal`, in the order in which the polls are released. */
    method Deal(tasks: seq<TaskItem>, inProgress: set<Rid>)
      requires Valid()
      requires forall k :: 0 <= k < |tasks| ==> tasks[k].Detached() && Marked(tasks[k]) && tasks[k].self !in inProgress
      requires forall j, k :: 0 <= j < k < |tasks| ==> tasks[j] != tasks[k]
      modifies this`parked, this`items, tasks, ActivetaskItems, ActivetaskItems.items
      ensures Valid() && Repr() <= old(Repr()) + (set i | i in tasks)
      ensures View() == Unpark(old(View()), Tasks(tasks))
    {
      hide Valid, View, Repr, Tasks, Unpark;
      UnparkNone(View());
      assert tasks[..0] == [];
      for k := 0 to |tasks|
        invariant Valid() && Repr() <= old(Repr()) + (set i | i in tasks)
        invariant ActivetaskItems.items == old(ActivetaskItems.items) + tasks[..k]
        invariant forall j :: k <= j < |tasks| ==> tasks[j].Detached()
        invariant View() == Unpark(old(View()), Tasks(tasks[..k]))
      {
        QueuedAreOwned();
        UnparkMore(old(View()), tasks, k);
        assert tasks[..k + 1] == tasks[..k] + [tasks[k]];
        ReleaseOne(tasks[k], inProgress);
      }
      assert tasks[..|tasks|] == tasks;
    }
  }
}
