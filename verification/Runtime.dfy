/**
  One scheduler in the source's own form, on the linked lists. Every method is a step of the state
  machine of RuntimeSpec, and keeps the invariant of its runs.
 */
module Runtime {
  import opened RuntimeSpec
  import opened RuntimePlaces
  import opened RuntimePools
  import opened RuntimeFacts
  import opened RuntimeLaws
  import opened RuntimeWaits
  import opened RuntimePoolLists
  import opened RuntimeQueueLists
  import opened TaskList
  import Lists

  /** The lockCount of each mutex, and where the routines inside lock() are. */
  class bMutexes {
    var lockCount: map<nat, int>
    var retry: map<Rid, Retry>
    var held: set<(Rid, nat)>

    function View(): Locks
      reads this
    {
      Locks(lockCount, retry, held)
    }

    constructor ()
      ensures View() == Locks(map[], map[], {})
    {
      lockCount, retry, held := map[], map[], {};
    }

    /** `compare_exchange_strong(i, 1)` for the routine r; found is the value that a failure leaves in i. */
    method TryLock(m: nat, i: int, r: Rid) returns (ok: bool, found: int)
      modifies this
      ensures found == Count(old(View()), m) && (ok <==> found == i)
      ensures View() == if ok then Locks(old(View()).count[m := 1], old(View()).retry - {r}, old(View()).held + {(r, m)})
                        else old(View()).(retry := old(View()).retry[r := Retry(m, found)])
    {
      found := if m in lockCount then lockCount[m] else 0;
      ok := found == i;
      if ok {
        lockCount := lockCount[m := 1];
        retry := retry - {r};
        held := held + {(r, m)};
      } else {
        retry := retry[r := Retry(m, found)];
      }
    }

    /** `compare_exchange_strong(i, 0)` with i == 1. */
    method TryUnlock(m: nat, r: Rid) returns (ok: bool)
      modifies this
      ensures ok <==> Count(old(View()), m) == 1
      ensures View() == if ok then Locks(old(View()).count[m := 0], old(View()).retry, old(View()).held - {(r, m)}) else old(View())
    {
      ok := m in lockCount && lockCount[m] == 1;
      if ok {
        lockCount := lockCount[m := 0];
        held := held - {(r, m)};
      }
    }

    method LockNext(m: nat, r: Rid)
      modifies this
      ensures View() == old(View()).(retry := old(View()).retry[r := Retry(m, 0)])
    {
      retry := retry[r := Retry(m, 0)];
    }
  }

  /** The queues and the pools never share a node: each node belongs to the list that made it. */
  lemma Apart(q: bQueues, p: bPools)
    requires q.Valid() && p.Valid()
    ensures q.Repr() !! p.Repr() && q !in q.Repr() && q !in p.Repr() && p !in q.Repr() && p !in p.Repr()
    ensures forall o: object :: o in q.Repr() || o in p.Repr() ==> !(o is bMutexes) && !(o is bScheduler)
  {
    p.Owned();
    q.Owned();
    hide *;
  }

  /** The invariant of the runs of RuntimeSpec. */
  ghost predicate InInvariant(s: State) {
    exists w :: Safe(s, w)
  }

  lemma StepKeepsInvariant(s: State, a: Step)
    requires InInvariant(s) && Enabled(s, a) && ResumesUnstarted(s, a)
    ensures InInvariant(Do(AsWritten, s, a))
  {
    var w :| Safe(s, w);
    var w' := StepKeepsSafe(AsWritten, s, w, a);
  }

  lemma EndLaw(s: State)
    requires InInvariant(s) && Enabled(s, DoFinish)
    ensures EndOf(s, Do(AsWritten, s, DoFinish))
  {
    var w :| Safe(s, w);
    FinishLaw(AsWritten, s, w, DoFinish);
  }

  lemma NewcomerIs(s: State, r: Rid, level: StackLevel, sid: Sid)
    ensures Newcomer(s, DoNew(r, level, sid)) == NewRid(s.p, r)
    ensures s.p.routines == [] ==> NewRid(s.p, r) == r
  {
  }

  lemma WaitLaw(s: State, c: nat, m: nat, t: Tid)
    requires Free(s) && AllNew(s.q, [t])
    ensures Count(s.k, m) == 1 ==> WaitOf(s, c, m, Waited(s, c, m, t))
  {
    if Count(s.k, m) == 1 {
      WaitLeaves(AsWritten, s, DoWait(c, m, t));
    }
    hide WaitOf, Waited;
  }

  lemma Contracts(s: State)
    requires InInvariant(s)
    ensures s.d.main !in s.d.progress && s.p.nums >= 0
    ensures UserRuns(s) ==> s.d.occupy !in s.d.progress
    ensures forall l, r :: r in WaitsOn(s.q, l) ==> r !in s.d.progress
    ensures forall i :: Queued(s.q, i) ==> i.self !in s.d.progress
    ensures UserRuns(s) && s.d.occupy != s.d.main ==> s.d.occupy in s.p.stackOf && s.p.stackOf[s.d.occupy] in s.p.size
    ensures s.d.needDelete ==> s.d.pending in s.p.stackOf
  {
    var w :| Safe(s, w);
    ContractsAreMet(s, w);
  }

  class bScheduler {
    var occupyRoutine: Rid
    var pendingRoutine: Rid
    var IsPendingNeedDelete: bool
    var task: TaskItem?
    var inProgress: set<Rid>
    const main: Rid
    const dispatcher: Rid
    const q: bQueues
    const p: bPools
    const k: bMutexes

    function Fields(): Dispatch
      reads this
    {
      Dispatch(occupyRoutine, pendingRoutine, IsPendingNeedDelete, if task == null then None else Some(Item(task.address, task.self)),
               main, dispatcher, inProgress)
    }

    ghost function View(): State
      reads this, q, q.ActivetaskItems, q.waitLists, q.waitLists.lists.Values
      reads p, p.DoneRoutines, p.DoneRoutinesMiniStacks, p.DoneRoutinesMediumStacks, p.DoneRoutinesLargeStacks, k
    {
      State(Fields(), q.View(), p.View(), k.View())
    }

    ghost predicate Linked()
      reads q.ActivetaskItems, q.ActivetaskItems.items, q.waitLists, q.waitLists.lists.Values, q.waitLists.Nodes()
      reads p.DoneRoutines, p.DoneRoutinesMiniStacks, p.DoneRoutinesMediumStacks, p.DoneRoutinesLargeStacks
      reads p.DoneRoutines.Nodes(), p.DoneRoutinesMiniStacks.Nodes(), p.DoneRoutinesMediumStacks.Nodes(), p.DoneRoutinesLargeStacks.Nodes()
    {
      q.main == main && q.Valid() && p.Valid()
    }

    ghost function Repr(): set<object>
      reads q.ActivetaskItems, q.waitLists, q.waitLists.lists.Values
      reads p.DoneRoutines, p.DoneRoutinesMiniStacks, p.DoneRoutinesMediumStacks, p.DoneRoutinesLargeStacks
    {
      {q, p, k} + q.Repr() + p.Repr()
    }

    constructor Boot(main: Rid, dispatcher: Rid, sid: Sid)
      ensures Linked() && forall o :: o in Repr() ==> fresh(o)
      ensures View() == RuntimeSpec.Boot(main, dispatcher, sid)
    {
      hide bQueues.Valid, bQueues.Repr, bQueues.View, bPools.Valid, bPools.Repr, bPools.View;
      this.main, this.dispatcher := main, dispatcher;
      occupyRoutine, pendingRoutine, IsPendingNeedDelete, task := main, dispatcher, false, null;
      inProgress := {main, dispatcher};
      k := new bMutexes();
      var queues := new bQueues(main);
      label Queues:
      var pools := new bPools(dispatcher, sid);
      queues.Undisturbed@Queues();
      label Both:
      q, p := queues, pools;
      new;
      q.Undisturbed@Both();
      p.Undisturbed@Both();
    }

    /** What the pools change is not in the queues. */
    lemma QueuesApart()
      requires Linked()
      ensures q !in p.Repr() && p !in p.Repr() && k !in p.Repr() && this !in p.Repr()
      ensures q.ActivetaskItems !in p.Repr() && q.waitLists !in p.Repr()
      ensures forall k :: 0 <= k < |q.ActivetaskItems.items| ==> q.ActivetaskItems.items[k] !in p.Repr()
      ensures (forall l :: l in q.waitLists.lists.Values ==> l !in p.Repr()) && (forall n :: n in q.waitLists.Nodes() ==> n !in p.Repr())
    {
      Apart(q, p);
      hide bQueues.Valid, bQueues.View, bPools.Valid, bPools.View, bPools.Repr, WaitLists.Nodes;
    }

    /** What the queues change is not in the pools. */
    lemma PoolsApart()
      requires Linked()
      ensures q !in q.Repr() && p !in q.Repr() && k !in q.Repr() && this !in q.Repr()
      ensures p.DoneRoutines !in q.Repr() && forall n :: n in p.DoneRoutines.Nodes() ==> n !in q.Repr()
      ensures p.DoneRoutinesMiniStacks !in q.Repr() && forall n :: n in p.DoneRoutinesMiniStacks.Nodes() ==> n !in q.Repr()
      ensures p.DoneRoutinesMediumStacks !in q.Repr() && forall n :: n in p.DoneRoutinesMediumStacks.Nodes() ==> n !in q.Repr()
      ensures p.DoneRoutinesLargeStacks !in q.Repr() && forall n :: n in p.DoneRoutinesLargeStacks.Nodes() ==> n !in q.Repr()
    {
      Apart(q, p);
      hide bQueues.Valid, bQueues.View, bPools.Valid, bPools.View, bQueues.Repr, Lists.List.Nodes;
    }

    lemma ReadyCovered()
      ensures q.ActivetaskItems in Repr() && forall k :: 0 <= k < |q.ActivetaskItems.items| ==> q.ActivetaskItems.items[k] in Repr()
    {
    }

    // ---- one component at a time --------------------------------------------------------------------

    /** `TaskItem::New` and `AddTask`. */
    method AddTask(t: Tid, r: Rid) returns (thrown: bool, ghost made: object)
      requires Linked()
      modifies Repr()
      ensures Linked() && Repr() <= old(Repr()) + {made} && fresh(made)
      ensures thrown <==> r in inProgress
      ensures Fields() == old(Fields()) && p.View() == old(p.View()) && k.View() == old(k.View())
      ensures q.View() == if thrown then old(q.View()) else RuntimeSpec.AddTask(old(q.View()), Item(t, r))
    {
      hide bQueues.Valid, bQueues.Repr, bQueues.View, bPools.Valid, bPools.Repr, bPools.View;
      PoolsApart();
      thrown, made := q.Queue(t, r, inProgress);
      assert unchanged(this) && unchanged(k);
      p.Undisturbed();
    }

    method TakeTask() returns (i: TaskItem?)
      requires Linked()
      modifies Repr()
      ensures Linked() && Repr() <= old(Repr())
      ensures i == null <==> Wrap(|old(q.View()).ready|) == 0
      ensures i != null ==> old(q.View()).ready == [Item(i.address, i.self)] + q.View().ready
      ensures Fields() == old(Fields()) && p.View() == old(p.View()) && k.View() == old(k.View())
      ensures q.View() == if i == null then old(q.View()) else old(q.View()).(ready := q.View().ready)
    {
      hide bQueues.Valid, bQueues.Repr, bQueues.View, bPools.Valid, bPools.Repr, bPools.View;
      PoolsApart();
      hide Wrap;
      i := q.PopHead();
      assert unchanged(this) && unchanged(k);
      p.Undisturbed();
    }

    method AddWaiter(l: ListId, r: Rid) returns (ghost made: set<object>)
      requires Linked()
      modifies Repr()
      ensures Linked() && Repr() <= old(Repr()) + made && fresh(made)
      ensures Fields() == old(Fields()) && p.View() == old(p.View()) && k.View() == old(k.View())
      ensures q.View() == RuntimeSpec.AddWaiter(old(q.View()), l, r)
    {
      hide bQueues.Valid, bQueues.Repr, bQueues.View, bPools.Valid, bPools.Repr, bPools.View;
      PoolsApart();
      q.Add(l, r);
      assert unchanged(this) && unchanged(k);
      p.Undisturbed();
      made := Repr() - old(Repr());
    }

    method PopWaiter(l: ListId) returns (r: Option<Rid>)
      requires Linked()
      modifies Repr()
      ensures Linked() && Repr() <= old(Repr())
      ensures r == if WaitsOn(old(q.View()), l) == [] then None else Some(WaitsOn(old(q.View()), l)[0])
      ensures Fields() == old(Fields()) && p.View() == old(p.View()) && k.View() == old(k.View())
      ensures q.View() == if r.None? then old(q.View()) else old(q.View()).(waits := old(q.View()).waits[l := WaitsOn(old(q.View()), l)[1..]])
    {
      hide bQueues.Valid, bQueues.Repr, bQueues.View, bPools.Valid, bPools.Repr, bPools.View;
      PoolsApart();
      r := q.Pop(l);
      assert unchanged(this) && unchanged(k);
      p.Undisturbed();
    }

    method Park(t: Tid)
      requires Linked()
      modifies Repr()
      ensures Linked() && Repr() == old(Repr())
      ensures Fields() == old(Fields()) && p.View() == old(p.View()) && k.View() == old(k.View())
      ensures q.View() == RuntimeSpec.Park(old(q.View()), Item(t, occupyRoutine))
    {
      hide bQueues.Valid, bQueues.Repr, bQueues.View, bPools.Valid, bPools.Repr, bPools.View;
      q.Park(Item(t, occupyRoutine));
      p.Undisturbed();
    }

    method Create(r: Rid)
      requires Linked()
      modifies Repr()
      ensures Linked() && Repr() == old(Repr())
      ensures Fields() == old(Fields()) && p.View() == old(p.View()) && k.View() == old(k.View())
      ensures q.View() == old(q.View()).(live := old(q.View()).live + {r}, unstarted := old(q.View()).unstarted + {r})
    {
      hide bQueues.Valid, bQueues.Repr, bQueues.View, bPools.Valid, bPools.Repr, bPools.View;
      q.Create(r);
      p.Undisturbed();
    }

    method Start(r: Rid)
      requires Linked()
      modifies Repr()
      ensures Linked() && Repr() == old(Repr())
      ensures Fields() == old(Fields()) && p.View() == old(p.View()) && k.View() == old(k.View())
      ensures q.View() == old(q.View()).(unstarted := old(q.View()).unstarted - {r})
    {
      hide bQueues.Valid, bQueues.Repr, bQueues.View, bPools.Valid, bPools.Repr, bPools.View;
      q.Start(r);
      p.Undisturbed();
    }

    method Remove(r: Rid)
      requires Linked()
      modifies Repr()
      ensures Linked() && Repr() == old(Repr())
      ensures Fields() == old(Fields()) && p.View() == old(p.View()) && k.View() == old(k.View())
      ensures q.View() == old(q.View()).(live := old(q.View()).live - {r})
    {
      hide bQueues.Valid, bQueues.Repr, bQueues.View, bPools.Valid, bPools.Repr, bPools.View;
      q.Remove(r);
      p.Undisturbed();
    }

    method FreeItem(t: Tid)
      requires Linked()
      modifies Repr()
      ensures Linked() && Repr() == old(Repr())
      ensures Fields() == old(Fields()) && p.View() == old(p.View()) && k.View() == old(k.View())
      ensures q.View() == old(q.View()).(items := old(q.View()).items - {t})
    {
      hide bQueues.Valid, bQueues.Repr, bQueues.View, bPools.Valid, bPools.Repr, bPools.View;
      q.Delete(t);
      p.Undisturbed();
    }

    method TakeRoutine(r: Rid, level: StackLevel, sid: Sid) returns (i: Rid)
      requires Linked()
      modifies Repr()
      ensures Linked() && Repr() <= old(Repr())
      ensures i == NewRid(old(p.View()), r)
      ensures Fields() == old(Fields()) && q.View() == old(q.View()) && k.View() == old(k.View())
      ensures p.View() == NewRoutine(old(p.View()), r, level, sid)
    {
      hide bQueues.Valid, bQueues.Repr, bQueues.View, bPools.Valid, bPools.Repr, bPools.View;
      QueuesApart();
      i := p.New(r, level, sid);
      assert unchanged(this) && unchanged(k);
      q.Undisturbed();
    }

    /** `bRoutineRecycle`. */
    method Recycle(r: Rid) returns (kept: bool)
      requires Linked() && r in p.View().stackOf && p.View().stackOf[r] in p.View().size && p.View().nums >= 0
      modifies Repr()
      ensures Linked() && fresh(Repr() - old(Repr()))
      ensures kept <==> old(p.View()).nums < MAX_KEEP
      ensures Fields() == old(Fields()) && q.View() == old(q.View()) && k.View() == old(k.View())
      ensures p.View() == if kept then RuntimeSpec.Recycle(old(p.View()), r) else old(p.View())
    {
      hide bQueues.Valid, bQueues.Repr, bQueues.View, bPools.Valid, bPools.Repr, bPools.View;
      QueuesApart();
      ghost var made;
      kept, made := p.Recycle(r);
      assert unchanged(this) && unchanged(k);
      q.Undisturbed();
    }

    method DeleteRoutine(r: Rid)
      requires Linked() && r in p.View().stackOf
      modifies Repr()
      ensures Linked() && Repr() == old(Repr())
      ensures Fields() == old(Fields()) && q.View() == old(q.View()) && k.View() == old(k.View())
      ensures p.View() == RuntimeSpec.Delete(old(p.View()), r)
    {
      hide bQueues.Valid, bQueues.Repr, bQueues.View, bPools.Valid, bPools.Repr, bPools.View;
      p.Del(r);
      q.Undisturbed();
    }

    method TryLock(m: nat, i: int) returns (ok: bool, found: int)
      requires Linked()
      modifies Repr()
      ensures Linked() && Repr() == old(Repr())
      ensures found == Count(old(k.View()), m) && (ok <==> found == i)
      ensures Fields() == old(Fields()) && q.View() == old(q.View()) && p.View() == old(p.View())
      ensures k.View() == if ok then Locks(old(k.View()).count[m := 1], old(k.View()).retry - {occupyRoutine}, old(k.View()).held + {(occupyRoutine, m)})
                          else old(k.View()).(retry := old(k.View()).retry[occupyRoutine := Retry(m, found)])
    {
      hide bQueues.Valid, bQueues.Repr, bQueues.View, bPools.Valid, bPools.Repr, bPools.View;
      ok, found := k.TryLock(m, i, occupyRoutine);
      q.Undisturbed();
      p.Undisturbed();
    }

    method TryUnlock(m: nat) returns (ok: bool)
      requires Linked()
      modifies Repr()
      ensures Linked() && Repr() == old(Repr())
      ensures ok <==> Count(old(k.View()), m) == 1
      ensures Fields() == old(Fields()) && q.View() == old(q.View()) && p.View() == old(p.View())
      ensures k.View() == if ok then Locks(old(k.View()).count[m := 0], old(k.View()).retry, old(k.View()).held - {(occupyRoutine, m)}) else old(k.View())
    {
      hide bQueues.Valid, bQueues.Repr, bQueues.View, bPools.Valid, bPools.Repr, bPools.View;
      ok := k.TryUnlock(m, occupyRoutine);
      q.Undisturbed();
      p.Undisturbed();
    }

    method LockNext(m: nat)
      requires Linked()
      modifies Repr()
      ensures Linked() && Repr() == old(Repr())
      ensures Fields() == old(Fields()) && q.View() == old(q.View()) && p.View() == old(p.View())
      ensures k.View() == old(k.View()).(retry := old(k.View()).retry[occupyRoutine := Retry(m, 0)])
    {
      hide bQueues.Valid, bQueues.Repr, bQueues.View, bPools.Valid, bPools.Repr, bPools.View;
      k.LockNext(m, occupyRoutine);
      q.Undisturbed();
      p.Undisturbed();
    }

    method WakeList(c: nat, ts: seq<Tid>)
      requires Linked() && |ts| == |WaitsOn(q.View(), OfCond(c))|
      requires forall r :: r in WaitsOn(q.View(), OfCond(c)) ==> r !in inProgress
      modifies Repr()
      ensures Linked() && fresh(Repr() - old(Repr()))
      ensures Fields() == old(Fields()) && p.View() == old(p.View()) && k.View() == old(k.View())
      ensures q.View() == WakeAll(old(q.View()), OfCond(c), ts)
    {
      hide bQueues.Valid, bQueues.Repr, bQueues.View, bPools.Valid, bPools.Repr, bPools.View;
      PoolsApart();
      q.SignalAll(c, ts, inProgress);
      assert unchanged(this) && unchanged(k);
      p.Undisturbed();
    }

    method ReleaseTasks(tasks: seq<TaskItem>)
      requires Linked()
      requires forall k :: 0 <= k < |tasks| ==> tasks[k].Detached() && (tasks[k].isMain <==> tasks[k].self == main) && tasks[k].self !in inProgress
      requires forall j, k :: 0 <= j < k < |tasks| ==> tasks[j] != tasks[k]
      modifies Repr(), tasks
      ensures Linked() && Repr() <= old(Repr()) + (set i | i in tasks)
      ensures Fields() == old(Fields()) && p.View() == old(p.View()) && k.View() == old(k.View())
      ensures q.View() == Unpark(old(q.View()), Tasks(tasks))
    {
      hide bQueues.Valid, bQueues.Repr, bQueues.View, bPools.Valid, bPools.Repr, bPools.View;
      PoolsApart();
      ReadyCovered();
      q.Deal(tasks, inProgress);
      assert unchanged(this) && unchanged(k);
      p.Undisturbed();
    }

    /** Only fields of the scheduler itself have changed. */
    twostate lemma FieldsOnly()
      requires old(Linked()) && unchanged(q) && unchanged(q.ActivetaskItems) && unchanged(old(q.ActivetaskItems.items))
      requires unchanged(q.waitLists) && unchanged(q.waitLists.lists.Values) && unchanged(old(q.waitLists.Nodes()))
      requires unchanged(p) && unchanged(k)
      requires unchanged(p.DoneRoutines) && unchanged(old(p.DoneRoutines.Nodes()))
      requires unchanged(p.DoneRoutinesMiniStacks) && unchanged(old(p.DoneRoutinesMiniStacks.Nodes()))
      requires unchanged(p.DoneRoutinesMediumStacks) && unchanged(old(p.DoneRoutinesMediumStacks.Nodes()))
      requires unchanged(p.DoneRoutinesLargeStacks) && unchanged(old(p.DoneRoutinesLargeStacks.Nodes()))
      ensures Linked() && Repr() == old(Repr())
      ensures q.View() == old(q.View()) && p.View() == old(p.View()) && k.View() == old(k.View())
    {
      hide bQueues.Valid, bQueues.Repr, bQueues.View, bPools.Valid, bPools.Repr, bPools.View;
      q.Undisturbed();
      p.Undisturbed();
    }

    // ---- the calls, and the dispatch loop -----------------------------------------------------------

    /** The lists are linked, and the state is one that a run can be in. */
    ghost predicate Valid()
      reads this, q, q.ActivetaskItems, q.ActivetaskItems.items, q.waitLists, q.waitLists.lists.Values, q.waitLists.Nodes()
      reads p, p.DoneRoutines, p.DoneRoutinesMiniStacks, p.DoneRoutinesMediumStacks, p.DoneRoutinesLargeStacks, k
      reads p.DoneRoutines.Nodes(), p.DoneRoutinesMiniStacks.Nodes(), p.DoneRoutinesMediumStacks.Nodes(), p.DoneRoutinesLargeStacks.Nodes()
    {
      Linked() && InInvariant(View())
    }

    method Exchange()
      requires Linked()
      modifies this
      ensures Linked() && Repr() == old(Repr())
      ensures View() == old(View()).(d := Switch(old(Fields())))
    {
      hide Linked, Repr, bQueues.View, bPools.View, bMutexes.View;
      occupyRoutine, pendingRoutine := pendingRoutine, occupyRoutine;
      FieldsOnly();
    }

    method SwapContext(t: Tid) returns (ghost made: set<object>)
      requires Linked()
      modifies this, Repr()
      ensures Linked() && Repr() <= old(Repr()) + made && fresh(made)
      ensures View() == RuntimeSpec.SwapContext(old(View()), t)
    {
      hide Linked, Repr, bQueues.View, bPools.View, bMutexes.View;
      made := {};
      if occupyRoutine == main && occupyRoutine in inProgress {
        inProgress := inProgress - {occupyRoutine};
        FieldsOnly();
        ghost var i;
        var thrown;
        thrown, i := AddTask(t, occupyRoutine);
        made := {i};
      }
      Exchange();
    }

    /** The first switch, from main to the dispatcher. */
    method FirstSwitch(t: Tid, ghost sid: Sid)
      requires Linked() && main != dispatcher && View() == RuntimeSpec.Boot(main, dispatcher, sid)
      modifies this, Repr()
      ensures Valid() && fresh(Repr() - old(Repr()))
      ensures View() == RuntimeSpec.SwapContext(old(View()), t)
    {
      hide Linked, Repr, bQueues.View, bPools.View, bMutexes.View;
      BootIsSafe(main, dispatcher, sid, t);
      ghost var made := SwapContext(t);
    }

    /** `bRoutine::New`; r and sid are what calloc and mmap would answer. */
    method New(r: Rid, level: StackLevel, sid: Sid) returns (i: Rid)
      requires Valid() && Enabled(View(), DoNew(r, level, sid))
      modifies Repr()
      ensures Valid() && fresh(Repr() - old(Repr()))
      ensures View() == Do(AsWritten, old(View()), DoNew(r, level, sid))
      ensures NewOf(old(View()).p, level, sid, View().p, i) && (old(View()).p.routines == [] ==> i == r)
    {
      ghost var s := View();
      hide *;
      NewcomerIs(s, r, level, sid);
      NewLaw(AsWritten, s, DoNew(r, level, sid));
      i := NewStep(r, level, sid);
    }

    method NewStep(r: Rid, level: StackLevel, sid: Sid) returns (i: Rid)
      requires Valid() && Enabled(View(), DoNew(r, level, sid))
      modifies Repr()
      ensures Valid() && fresh(Repr() - old(Repr()))
      ensures i == NewRid(old(View()).p, r) && View() == Do(AsWritten, old(View()), DoNew(r, level, sid))
    {
      hide Linked, Repr, bQueues.View, bPools.View, bMutexes.View, InInvariant;
      StepKeepsInvariant(View(), DoNew(r, level, sid));
      i := TakeRoutine(r, level, sid);
      Create(i);
    }

    /** `bRoutine::Resume`: the resumed routine is queued, then the running one. */
    method Resume(x: Rid, t1: Tid, t2: Tid) returns (thrown: bool)
      requires Valid() && Enabled(View(), DoResume(x, t1, t2))
      modifies this, Repr()
      ensures Linked() && fresh(Repr() - old(Repr()))
      ensures !thrown && View() == Do(AsWritten, old(View()), DoResume(x, t1, t2))
      ensures x in old(View()).q.unstarted ==> Valid()
    {
      hide Linked, Repr, bQueues.View, bPools.View, bMutexes.View, InInvariant;
      Contracts(View());
      if x in q.View().unstarted { StepKeepsInvariant(View(), DoResume(x, t1, t2)); }
      ghost var i, j;
      Start(x);
      thrown, i := AddTask(t1, x);
      thrown, j := AddTask(t2, occupyRoutine);
      ghost var made := SwapContext(0);
    }

    /** `bRoutine::yield`. */
    method Yield(t: Tid) returns (thrown: bool)
      requires Valid() && Enabled(View(), DoYield(t))
      modifies this, Repr()
      ensures Valid() && fresh(Repr() - old(Repr()))
      ensures !thrown && View() == Do(AsWritten, old(View()), DoYield(t))
    {
      hide Linked, Repr, bQueues.View, bPools.View, bMutexes.View, InInvariant;
      Contracts(View());
      StepKeepsInvariant(View(), DoYield(t));
      ghost var i;
      thrown, i := AddTask(t, occupyRoutine);
      ghost var made := SwapContext(0);
    }

    /** `poll` as far as its routine is concerned: its TaskItem is in the wheel, and it gives way. */
    method Poll(t: Tid)
      requires Valid() && Enabled(View(), DoPoll(t))
      modifies this, Repr()
      ensures Valid() && fresh(Repr() - old(Repr()))
      ensures View() == Do(AsWritten, old(View()), DoPoll(t))
    {
      hide Linked, Repr, bQueues.View, bPools.View, bMutexes.View, InInvariant;
      Contracts(View());
      StepKeepsInvariant(View(), DoPoll(t));
      Park(t);
      ghost var made := SwapContext(0);
    }

    /** `bMutex::lock` from one `retry:` to the next, with i expected: either it returns, or the routine gives way. */
    method Attempt(m: nat, i: int) returns (locked: bool)
      requires Linked() && main !in inProgress
      modifies this, Repr()
      ensures Linked() && fresh(Repr() - old(Repr()))
      ensures locked <==> Count(old(View()).k, m) == i
      ensures View() == RuntimeSpec.Attempt(AsWritten, old(View()), m, i)
    {
      hide Linked, Repr, bQueues.View, bPools.View, bMutexes.View;
      var found;
      locked, found := TryLock(m, i);
      if !locked {
        ghost var made := AddWaiter(OfMutex(m), occupyRoutine);
        ghost var none := SwapContext(0);
      }
    }

    /** The first attempt of `bMutex::lock`. */
    method Lock(m: nat) returns (locked: bool)
      requires Valid() && Enabled(View(), DoLock(m))
      modifies this, Repr()
      ensures Valid() && fresh(Repr() - old(Repr()))
      ensures locked <==> Count(old(View()).k, m) == 0
      ensures View() == Do(AsWritten, old(View()), DoLock(m))
    {
      hide Linked, Repr, bQueues.View, bPools.View, bMutexes.View, InInvariant;
      Contracts(View());
      StepKeepsInvariant(View(), DoLock(m));
      locked := Attempt(m, 0);
    }

    /** A further attempt of `bMutex::lock`, with the value that the last one has left. */
    method LockAgain() returns (locked: bool)
      requires Valid() && UserRuns(View()) && View().d.occupy in View().k.retry
      modifies this, Repr()
      ensures Valid() && fresh(Repr() - old(Repr()))
      ensures var again := old(View()).k.retry[old(View()).d.occupy];
              && (locked <==> Count(old(View()).k, again.m) == again.expected)
              && View() == RuntimeSpec.Attempt(AsWritten, old(View()), again.m, again.expected)
    {
      Contracts(View());
      StepKeepsInvariant(View(), DoRetry);
      var again := k.retry[occupyRoutine];
      hide Linked, Repr, bQueues.View, bPools.View, bMutexes.View, InInvariant;
      locked := Attempt(again.m, again.expected);
    }

    /** `bMutex::unlock`; it aborts when the count is not 1. */
    method Unlock(m: nat, t: Tid) returns (aborted: bool)
      requires Valid() && Free(View()) && AllNew(View().q, [t])
      modifies Repr()
      ensures Valid() && fresh(Repr() - old(Repr()))
      ensures aborted <==> Count(old(View()).k, m) != 1
      ensures View() == if aborted then old(View()) else RuntimeSpec.Unlock(old(View()), m, t)
    {
      hide Linked, Repr, bQueues.View, bPools.View, bMutexes.View, InInvariant;
      Contracts(View());
      if Count(View().k, m) == 1 { StepKeepsInvariant(View(), DoUnlock(m, t)); }
      var ok := TryUnlock(m);
      if !ok {
        return true;
      }
      var mt := PopWaiter(OfMutex(m));
      if mt.Some? {
        var thrown;
        ghost var i;
        thrown, i := AddTask(t, mt.value);
      }
      return false;
    }

    /** `bCond::wait` up to its switch; lock() follows when the routine runs again. */
    method Wait(c: nat, m: nat, t: Tid) returns (aborted: bool)
      requires Valid() && Free(View()) && AllNew(View().q, [t])
      modifies this, Repr()
      ensures Valid() && fresh(Repr() - old(Repr()))
      ensures aborted <==> Count(old(View()).k, m) != 1
      ensures View() == if aborted then old(View()) else Waited(old(View()), c, m, t)
      ensures !aborted ==> WaitOf(old(View()), c, m, View())
    {
      hide *;
      WaitLaw(View(), c, m, t);
      aborted := WaitStep(c, m, t);
    }

    method WaitStep(c: nat, m: nat, t: Tid) returns (aborted: bool)
      requires Valid() && Free(View()) && AllNew(View().q, [t])
      modifies this, Repr()
      ensures Valid() && fresh(Repr() - old(Repr()))
      ensures aborted <==> Count(old(View()).k, m) != 1
      ensures View() == if aborted then old(View()) else Waited(old(View()), c, m, t)
    {
      hide Linked, Repr, bQueues.View, bPools.View, bMutexes.View, InInvariant;
      Contracts(View());
      if Count(View().k, m) == 1 { StepKeepsInvariant(View(), DoWait(c, m, t)); }
      aborted := Unlock(m, t);
      if aborted {
        return;
      }
      LockNext(m);
      ghost var made := AddWaiter(OfCond(c), occupyRoutine);
      ghost var none := SwapContext(0);
    }

    /** `bCond::signalAll`; ts are the addresses of its TaskItems. */
    method SignalAll(c: nat, ts: seq<Tid>)
      requires Valid() && Enabled(View(), DoSignalAll(c, ts))
      modifies Repr()
      ensures Valid() && fresh(Repr() - old(Repr()))
      ensures View() == Do(AsWritten, old(View()), DoSignalAll(c, ts))
    {
      hide Linked, Repr, bQueues.View, bPools.View, bMutexes.View, InInvariant;
      Contracts(View());
      StepKeepsInvariant(View(), DoSignalAll(c, ts));
      WakeList(c, ts);
    }

    lemma InRun()
      requires Valid()
      ensures InInvariant(View())
    {
    }

    /** The end of a routine: `RoutineBegin` after its function, or `deleteSelf`. */
    method End()
      requires Valid() && Enabled(View(), DoFinish)
      modifies this, Repr()
      ensures Valid() && fresh(Repr() - old(Repr()))
      ensures View() == Do(AsWritten, old(View()), DoFinish)
      ensures EndOf(old(View()), View())
    {
      hide *;
      InRun();
      EndLaw(View());
      EndStep();
    }

    method EndStep()
      requires Valid() && Enabled(View(), DoFinish)
      modifies this, Repr()
      ensures Valid() && fresh(Repr() - old(Repr()))
      ensures View() == Do(AsWritten, old(View()), DoFinish)
    {
      hide Linked, Repr, bQueues.View, bPools.View, bMutexes.View, InInvariant;
      Contracts(View());
      StepKeepsInvariant(View(), DoFinish);
      if occupyRoutine != main {
        var kept := Recycle(occupyRoutine);
        if !kept {
          label Full:
          IsPendingNeedDelete := true;
          FieldsOnly@Full();
        }
      }
      Remove(occupyRoutine);
      ghost var made := SwapContext(0);
    }

    /** The queueing part of `Deal`, for the TaskItems of the polls that it releases. */
    method Deal(tasks: seq<TaskItem>)
      requires Valid() && Enabled(View(), DoDeal(Tasks(tasks)))
      requires forall k :: 0 <= k < |tasks| ==> tasks[k].Detached() && (tasks[k].isMain <==> tasks[k].self == main)
      modifies Repr(), tasks
      ensures Valid() && Repr() <= old(Repr()) + (set i | i in tasks)
      ensures View() == Do(AsWritten, old(View()), DoDeal(Tasks(tasks)))
    {
      hide Linked, Repr, bQueues.View, bPools.View, bMutexes.View, InInvariant;
      Contracts(View());
      StepKeepsInvariant(View(), DoDeal(Tasks(tasks)));
      ReleaseTasks(tasks);
    }

    /** A loop of `ProcessBegin` up to the switch; without a task the thread goes idle. */
    method DispatchNext() returns (idle: bool)
      requires Valid() && !UserRuns(View()) && View().d.task.None?
      modifies this, Repr()
      ensures Valid() && fresh(Repr() - old(Repr()))
      ensures idle <==> Wrap(|old(View()).q.ready|) == 0
      ensures idle ==> View() == old(View())
      ensures !idle ==> old(View()).q.ready != [] && View() == Dispatched(old(View()))
    {
      hide Linked, Repr, bQueues.View, bPools.View, bMutexes.View, InInvariant;
      Contracts(View());
      if View().q.ready != [] { StepKeepsInvariant(View(), DoDispatch); }
      var head := TakeTask();
      if head == null {
        return true;
      }
      label Taken:
      task := head;
      pendingRoutine := head.self;
      FieldsOnly@Taken();
      ghost var made := SwapContext(0);
      return false;
    }

    /** The rest of the loop, when the dispatched routine has given way. */
    method Epilogue()
      requires Valid() && Enabled(View(), DoEpilogue)
      modifies this, Repr()
      ensures Valid() && fresh(Repr() - old(Repr()))
      ensures View() == Do(AsWritten, old(View()), DoEpilogue)
    {
      hide Linked, Repr, bQueues.View, bPools.View, bMutexes.View, InInvariant;
      Contracts(View());
      StepKeepsInvariant(View(), DoEpilogue);
      if IsPendingNeedDelete {
        if pendingRoutine != main {
          DeleteRoutine(pendingRoutine);
        }
        label Deleted:
        IsPendingNeedDelete := false;
        FieldsOnly@Deleted();
      }
      FreeItem(task.address);
      label Freed:
      task := null;
      FieldsOnly@Freed();
    }
  }
}
