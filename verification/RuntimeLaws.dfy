/**
  What the steps of the scheduler do, component by component: what each step adds to and takes from
  each queue, and what it makes of every other part of the state. Over runs this makes every queue
  and every pool a FIFO queue.
 */
module RuntimeLaws {
  import opened RuntimeSpec
  import opened RuntimePlaces
  import opened RuntimePools

  // ---- the ready queue -------------------------------------------------------------------------

  /** The TaskItems that a step puts behind the ready queue. */
  function Readied(s: State, a: Step): seq<Item> {
    match a
    case DoResume(x, t1, t2) => [Item(t1, x), Item(t2, s.d.occupy)]
    case DoYield(t) => [Item(t, s.d.occupy)]
    case DoUnlock(m, t) => FirstWaiter(s, m, t)
    case DoWait(_, m, t) => FirstWaiter(s, m, t)
    case DoSignalAll(c, ts) => ItemsFor(ts, WaitsOn(s.q, OfCond(c)))
    case DoDeal(released) => released
    case _ => []
  }

  function FirstWaiter(s: State, m: nat, t: Tid): seq<Item> {
    if WaitsOn(s.q, OfMutex(m)) == [] then [] else [Item(t, WaitsOn(s.q, OfMutex(m))[0])]
  }

  /** One TaskItem for each routine, in order. */
  function ItemsFor(ts: seq<Tid>, rs: seq<Rid>): seq<Item> {
    if |ts| != |rs| || ts == [] then [] else [Item(ts[0], rs[0])] + ItemsFor(ts[1..], rs[1..])
  }

  lemma {:induction false} ItemsForIs(ts: seq<Tid>, rs: seq<Rid>)
    requires |ts| == |rs|
    ensures |ItemsFor(ts, rs)| == |rs| && forall k :: 0 <= k < |rs| ==> ItemsFor(ts, rs)[k] == Item(ts[k], rs[k])
  {
    if ts != [] { ItemsForIs(ts[1..], rs[1..]); }
  }

  /** The TaskItem that a step takes off the ready queue. */
  function Dequeued(s: State, a: Step): seq<Item> {
    if a.DoDispatch? && s.q.ready != [] then [s.q.ready[0]] else []
  }

  /** What one round of signalAll does. */
  lemma WakeFirstIs(q: Queues, l: ListId, t: Tid)
    requires WaitsOn(q, l) != []
    ensures var r, x := WakeFirst(q, l, t), WaitsOn(q, l)[0];
            && [x] + WaitsOn(r, l) == WaitsOn(q, l) && (forall m :: m != l ==> WaitsOn(r, m) == WaitsOn(q, m))
            && r.ready == q.ready + [Item(t, x)] && r.items == q.items + {t}
            && r.parked == q.parked && r.unstarted == q.unstarted && r.live == q.live
  {
  }

  lemma ItemsForMore(ts: seq<Tid>, rs: seq<Rid>)
    requires |ts| == |rs| && ts != []
    ensures ItemsFor(ts, rs) == [Item(ts[0], rs[0])] + ItemsFor(ts[1..], rs[1..])
    ensures (set t | t in ts) == {ts[0]} + (set t | t in ts[1..])
  {
    assert ts == [ts[0]] + ts[1..];
  }

  lemma {:induction false} WakeAllReady(q: Queues, l: ListId, ts: seq<Tid>)
    requires |ts| == |WaitsOn(q, l)|
    ensures WakeAll(q, l, ts).ready == q.ready + ItemsFor(ts, WaitsOn(q, l))
    decreases |ts|
  {
    hide *;
    if ts == [] {
      WakeAllNone(q, l);
    } else {
      var one, i := WakeFirst(q, l, ts[0]), Item(ts[0], WaitsOn(q, l)[0]);
      WakeAllMore(q, l, ts);
      ItemsForMore(ts, WaitsOn(q, l));
      WakeFirstIs(q, l, ts[0]);
      RestOf(WaitsOn(q, l)[0], WaitsOn(one, l), WaitsOn(q, l));
      WakeAllReady(one, l, ts[1..]);
      Three(q.ready, i, ItemsFor(ts[1..], WaitsOn(one, l)));
    }
  }

  lemma RestOf<T>(x: T, rest: seq<T>, s: seq<T>)
    requires [x] + rest == s
    ensures s[1..] == rest
  {
  }

  lemma Three<T>(a: seq<T>, x: T, b: seq<T>)
    ensures (a + [x]) + b == a + ([x] + b)
  {
  }

  lemma {:induction false} WakeAllItems(q: Queues, l: ListId, ts: seq<Tid>)
    requires |ts| == |WaitsOn(q, l)|
    ensures WakeAll(q, l, ts).items == q.items + (set t | t in ts)
    decreases |ts|
  {
    hide *;
    if ts == [] {
      WakeAllNone(q, l);
    } else {
      WakeAllMore(q, l, ts);
      ItemsForMore(ts, WaitsOn(q, l));
      WakeFirstIs(q, l, ts[0]);
      WakeAllItems(WakeFirst(q, l, ts[0]), l, ts[1..]);
    }
  }

  lemma {:induction false} WakeAllRest(q: Queues, l: ListId, ts: seq<Tid>)
    requires |ts| == |WaitsOn(q, l)|
    ensures var r := WakeAll(q, l, ts);
            && WaitsOn(r, l) == [] && (forall m :: m != l ==> WaitsOn(r, m) == WaitsOn(q, m))
            && r.parked == q.parked && r.unstarted == q.unstarted && r.live == q.live
    decreases |ts|
  {
    hide *;
    if ts == [] {
      WakeAllNone(q, l);
    } else {
      WakeAllMore(q, l, ts);
      WakeFirstIs(q, l, ts[0]);
      WakeAllRest(WakeFirst(q, l, ts[0]), l, ts[1..]);
    }
  }

  /** signalAll empties one list into the ready queue, in order, and touches nothing else. */
  lemma WakeAllIs(q: Queues, l: ListId, ts: seq<Tid>)
    requires |ts| == |WaitsOn(q, l)|
    ensures var r := WakeAll(q, l, ts);
            && WaitsOn(r, l) == [] && (forall m :: m != l ==> WaitsOn(r, m) == WaitsOn(q, m))
            && r.ready == q.ready + ItemsFor(ts, WaitsOn(q, l)) && r.items == q.items + (set t | t in ts)
            && r.parked == q.parked && r.unstarted == q.unstarted && r.live == q.live
  {
    hide *;
    WakeAllReady(q, l, ts);
    WakeAllItems(q, l, ts);
    WakeAllRest(q, l, ts);
  }

  lemma WakeAllNone(q: Queues, l: ListId)
    requires WaitsOn(q, l) == []
    ensures WakeAll(q, l, []) == q && ItemsFor([], WaitsOn(q, l)) == []
  {
  }

  lemma WakeAllMore(q: Queues, l: ListId, ts: seq<Tid>)
    requires |ts| == |WaitsOn(q, l)| && ts != []
    ensures |ts[1..]| == |WaitsOn(WakeFirst(q, l, ts[0]), l)|
    ensures WakeAll(q, l, ts) == WakeAll(WakeFirst(q, l, ts[0]), l, ts[1..])
  {
  }

  /** Deal moves the released TaskItems from the wheel to the ready queue, in order, and touches nothing else. */
  lemma {:induction false} UnparkIs(q: Queues, released: seq<Item>)
    ensures var r := Unpark(q, released);
            && r.ready == q.ready + released && r.parked == q.parked - (set i | i in released)
            && r.items == q.items + (set i | i in released :: i.tid)
            && r.waits == q.waits && r.unstarted == q.unstarted && r.live == q.live
  {
    if released != [] {
      var b, i := released[..|released| - 1], released[|released| - 1];
      UnparkIs(q, b);
      assert released == b + [i];
    }
  }

  /** Every step adds to the end of the ready queue and takes from its front. */
  lemma ReadyLaw(v: Variant, s: State, a: Step)
    requires Enabled(s, a)
    ensures s.q.ready + Readied(s, a) == Dequeued(s, a) + Do(v, s, a).q.ready
  {
    if a.DoSignalAll? {
      WakeAllIs(s.q, OfCond(a.c), a.ts);
    } else if a.DoDeal? {
      UnparkIs(s.q, a.released);
    }
    hide WakeAll, Unpark;
  }

  // ---- the wait lists --------------------------------------------------------------------------

  /** The running routine finds the mutex m not as it expects it. */
  predicate Fails(s: State, a: Step, m: nat) {
    match a
    case DoLock(n) => n == m && Count(s.k, m) != 0
    case DoRetry => s.d.occupy in s.k.retry && s.k.retry[s.d.occupy].m == m && Count(s.k, m) != s.k.retry[s.d.occupy].expected
    case _ => false
  }

  predicate Succeeds(s: State, a: Step, m: nat) {
    match a
    case DoLock(n) => n == m && Count(s.k, m) == 0
    case DoRetry => s.d.occupy in s.k.retry && s.k.retry[s.d.occupy].m == m && Count(s.k, m) == s.k.retry[s.d.occupy].expected
    case _ => false
  }

  predicate GivesUp(a: Step, m: nat) {
    match a
    case DoUnlock(n, _) => n == m
    case DoWait(_, n, _) => n == m
    case _ => false
  }

  /** The routine that a step puts behind a wait list: the running one, on the mutex that it failed to lock or the condition that it waits for. */
  function Joins(s: State, a: Step, l: ListId): seq<Rid> {
    if (l.OfMutex? && Fails(s, a, l.m)) || (l.OfCond? && a.DoWait? && a.c == l.c) then [s.d.occupy] else []
  }

  /** Those whom a step takes off a wait list: the first one of a mutex that is given up, all of a condition that is signalled. */
  function Woken(s: State, a: Step, l: ListId): seq<Rid> {
    match l
    case OfMutex(m) => if GivesUp(a, m) && WaitsOn(s.q, l) != [] then [WaitsOn(s.q, l)[0]] else []
    case OfCond(c) => if a.DoSignalAll? && a.c == c then WaitsOn(s.q, l) else []
  }

  lemma AttemptWaits(v: Variant, s: State, m: nat, expected: int, l: ListId)
    ensures WaitsOn(Attempt(v, s, m, expected).q, l)
              == WaitsOn(s.q, l) + if l == OfMutex(m) && Count(s.k, m) != expected then [s.d.occupy] else []
  {
  }

  lemma UnlockWaits(s: State, m: nat, t: Tid, l: ListId)
    ensures WaitsOn(s.q, l)
              == (if l == OfMutex(m) && WaitsOn(s.q, l) != [] then [WaitsOn(s.q, l)[0]] else []) + WaitsOn(Unlock(s, m, t).q, l)
  {
  }

  lemma WaitedWaits(s: State, c: nat, m: nat, t: Tid, l: ListId)
    ensures WaitsOn(Waited(s, c, m, t).q, l) == WaitsOn(Unlock(s, m, t).q, l) + if l == OfCond(c) then [s.d.occupy] else []
  {
    hide Unlock;
  }

  /** Every step adds to the end of the wait lists and takes from their fronts. */
  lemma WaitsLaw(v: Variant, s: State, a: Step, l: ListId)
    requires Enabled(s, a)
    ensures WaitsOn(s.q, l) + Joins(s, a, l) == Woken(s, a, l) + WaitsOn(Do(v, s, a).q, l)
  {
    hide WakeAll, Unpark, Attempt, Unlock, Waited, WaitsOn;
    match a
    case DoLock(m) => AttemptWaits(v, s, m, 0, l);
    case DoRetry => AttemptWaits(v, s, s.k.retry[s.d.occupy].m, s.k.retry[s.d.occupy].expected, l);
    case DoUnlock(m, t) => UnlockWaits(s, m, t, l);
    case DoWait(c, m, t) =>
      UnlockWaits(s, m, t, l);
      WaitedWaits(s, c, m, t, l);
    case DoSignalAll(c, ts) => WakeAllIs(s.q, OfCond(c), ts);
    case DoDeal(released) =>
      UnparkIs(s.q, released);
      SameWaits(s.q, Do(v, s, a).q, l);
    case _ =>
      SameWaits(s.q, Do(v, s, a).q, l);
  }

  lemma SameWaits(q: Queues, q': Queues, l: ListId)
    requires q'.waits == q.waits
    ensures WaitsOn(q', l) == WaitsOn(q, l)
  {
  }

  // ---- where else routines are, and the TaskItems ------------------------------------------------

  /** Only poll puts a TaskItem into the wheel, that of its caller, and only Deal takes TaskItems out. */
  lemma ParkedLaw(v: Variant, s: State, a: Step)
    requires Enabled(s, a)
    ensures forall i :: i in Do(v, s, a).q.parked <==>
              || (a.DoPoll? && i == Item(a.t, s.d.occupy))
              || (i in s.q.parked && !(a.DoDeal? && i in a.released))
  {
    if a.DoSignalAll? {
      WakeAllIs(s.q, OfCond(a.c), a.ts);
    } else if a.DoDeal? {
      UnparkIs(s.q, a.released);
    }
    hide WakeAll, Unpark;
  }

  /** The routine that New gives, a pooled one if there is one. */
  function Newcomer(s: State, a: Step): Rid
    requires a.DoNew?
  {
    if s.p.routines == [] then a.r else s.p.routines[0]
  }

  /** Only New makes a routine live, and it has not been started; only its own end and Resume change that. */
  lemma LiveLaw(v: Variant, s: State, a: Step, r: Rid)
    requires Enabled(s, a)
    ensures r in Do(v, s, a).q.live <==>
              (a.DoNew? && r == Newcomer(s, a)) || (r in s.q.live && !(a.DoFinish? && r == s.d.occupy))
    ensures r in Do(v, s, a).q.unstarted <==>
              (a.DoNew? && r == Newcomer(s, a)) || (r in s.q.unstarted && !(a.DoResume? && r == a.x))
  {
    if a.DoSignalAll? {
      WakeAllIs(s.q, OfCond(a.c), a.ts);
    } else if a.DoDeal? {
      UnparkIs(s.q, a.released);
    }
    hide WakeAll, Unpark;
  }

  /** A TaskItem that is queued or parked is allocated, and the one that was dispatched is freed in the end. */
  lemma ItemsLaw(v: Variant, s: State, a: Step, t: Tid)
    requires Enabled(s, a)
    ensures t in Do(v, s, a).q.items <==>
              || (exists i :: i in Readied(s, a) && i.tid == t)
              || (a.DoPoll? && t == a.t)
              || (t in s.q.items && !(a.DoEpilogue? && t == s.d.task.value.tid))
  {
    var s' := Do(v, s, a);
    match a
    case DoSignalAll(c, ts) =>
      WakeAllIs(s.q, OfCond(c), ts);
      ItemsForIs(ts, WaitsOn(s.q, OfCond(c)));
      var made := ItemsFor(ts, WaitsOn(s.q, OfCond(c)));
      hide WakeAll;
      if t in ts {
        var k :| 0 <= k < |ts| && ts[k] == t;
        assert made[k] in made && made[k].tid == t;
      }
    case DoDeal(released) =>
      UnparkIs(s.q, released);
      hide Unpark;
    case DoResume(x, t1, t2) =>
      assert Item(t1, x) in Readied(s, a) && Item(t2, s.d.occupy) in Readied(s, a);
    case DoYield(u) =>
      assert Item(u, s.d.occupy) in Readied(s, a);
    case DoUnlock(m, u) =>
      assert WaitsOn(s.q, OfMutex(m)) != [] ==> Item(u, WaitsOn(s.q, OfMutex(m))[0]) in Readied(s, a);
    case DoWait(_, m, u) =>
      assert WaitsOn(s.q, OfMutex(m)) != [] ==> Item(u, WaitsOn(s.q, OfMutex(m))[0]) in Readied(s, a);
    case _ =>
  }

  // ---- who runs ----------------------------------------------------------------------------------

  /** The running routine gives way: the dispatcher goes on. */
  ghost predicate Yields(s: State, a: Step) {
    || a.DoResume? || a.DoYield? || a.DoPoll? || a.DoWait? || a.DoFinish?
    || exists m :: Fails(s, a, m)
  }

  /** The routine that ends is deleted later, because the pools are full. */
  predicate Overflows(s: State, a: Step) {
    a.DoFinish? && s.d.occupy != s.d.main && s.p.nums >= 1000
  }

  lemma DispatchLaw(v: Variant, s: State, a: Step)
    requires Enabled(s, a)
    ensures var d, d' := s.d, Do(v, s, a).d;
            && d'.main == d.main && d'.dispatcher == d.dispatcher && d'.progress == d.progress
            && (if Yields(s, a) then d'.occupy == d.pending && d'.pending == d.occupy
                else if a.DoDispatch? then d'.occupy == s.q.ready[0].self && d'.pending == d.occupy
                else d'.occupy == d.occupy && d'.pending == d.pending)
            && d'.task == (if a.DoDispatch? then Some(s.q.ready[0]) else if a.DoEpilogue? then None else d.task)
            && d'.needDelete == (Overflows(s, a) || (d.needDelete && !a.DoEpilogue?))
  {
    match a
    case DoLock(m) => assert Count(s.k, m) != 0 ==> Fails(s, a, m);
    case DoRetry => assert Count(s.k, s.k.retry[s.d.occupy].m) != s.k.retry[s.d.occupy].expected ==> Fails(s, a, s.k.retry[s.d.occupy].m);
    case _ =>
  }

  // ---- the mutexes ---------------------------------------------------------------------------------

  lemma LocksLaw(v: Variant, s: State, a: Step, m: nat)
    requires Enabled(s, a)
    ensures Count(Do(v, s, a).k, m) == if Succeeds(s, a, m) then 1 else if GivesUp(a, m) then 0 else Count(s.k, m)
    ensures forall r :: (r, m) in Do(v, s, a).k.held <==>
              (r == s.d.occupy && Succeeds(s, a, m)) || ((r, m) in s.k.held && !(r == s.d.occupy && GivesUp(a, m)))
  {
  }

  /** What the running routine expects at its next attempt, and at which mutex: after a wait, 0 at the mutex that it gave up. */
  lemma RetryLaw(v: Variant, s: State, a: Step)
    requires Enabled(s, a)
    ensures var o, k, k' := s.d.occupy, s.k, Do(v, s, a).k;
            && (forall r :: r != o ==> (r in k'.retry <==> r in k.retry) && (r in k.retry ==> k'.retry[r] == k.retry[r]))
            && (a.DoWait? ==> o in k'.retry && k'.retry[o].m == a.m && k'.retry[o].expected == 0)
            && (forall m :: Fails(s, a, m) ==> o in k'.retry && k'.retry[o].m == m && k'.retry[o].expected == if v.Reset? then 0 else Count(k, m))
            && (forall m :: Succeeds(s, a, m) ==> o !in k'.retry)
            && (!a.DoWait? && !a.DoLock? && !a.DoRetry? ==> k'.retry == k.retry)
  {
  }

  // ---- the pools -----------------------------------------------------------------------------------

  /** New takes the first stack of its list, or maps a new one if the list is empty. */
  predicate TakesStack(p: Pools, p': Pools, list: seq<Sid>, list': seq<Sid>, n: Rid, sid: Sid, bytes: nat) {
    && n in p'.stackOf
    && if list == [] then
         list' == [] && p'.stackOf[n] == sid && p'.size == p.size[sid := bytes] && p'.nums == p.nums
       else
         [p'.stackOf[n]] + list' == list && p'.size == p.size && p'.nums == p.nums - 1
  }

  /** What New makes of the pools, for the routine n; each level has a list of its own: 128 KiB, 1 MiB and 4 MiB. */
  predicate NewOf(p: Pools, level: StackLevel, sid: Sid, p': Pools, n: Rid) {
    && p'.routines == (if p.routines == [] then [] else p.routines[1..]) && (p.routines != [] ==> n == p.routines[0])
    && p'.stackOf.Keys == p.stackOf.Keys + {n} && (forall r :: r in p.stackOf && r != n ==> p'.stackOf[r] == p.stackOf[r])
    && match level
       case MiniStack => TakesStack(p, p', p.mini, p'.mini, n, sid, 131072) && p'.medium == p.medium && p'.large == p.large
       case MediumStack => TakesStack(p, p', p.medium, p'.medium, n, sid, 1048576) && p'.mini == p.mini && p'.large == p.large
       case LargeStack => TakesStack(p, p', p.large, p'.large, n, sid, 4194304) && p'.mini == p.mini && p'.medium == p.medium
  }

  lemma NewMini(p: Pools, r: Rid, sid: Sid)
    ensures NewOf(p, MiniStack, sid, NewRoutine(p, r, MiniStack, sid), NewRid(p, r))
  {
    assert p.mini != [] ==> [p.mini[0]] + p.mini[1..] == p.mini;
  }

  lemma NewMedium(p: Pools, r: Rid, sid: Sid)
    ensures NewOf(p, MediumStack, sid, NewRoutine(p, r, MediumStack, sid), NewRid(p, r))
  {
    assert p.medium != [] ==> [p.medium[0]] + p.medium[1..] == p.medium;
  }

  lemma NewLarge(p: Pools, r: Rid, sid: Sid)
    ensures NewOf(p, LargeStack, sid, NewRoutine(p, r, LargeStack, sid), NewRid(p, r))
  {
    assert p.large != [] ==> [p.large[0]] + p.large[1..] == p.large;
  }

  lemma NewLaw(v: Variant, s: State, a: Step)
    requires Enabled(s, a) && a.DoNew?
    ensures NewOf(s.p, a.level, a.sid, Do(v, s, a).p, Newcomer(s, a))
  {
    hide Enabled, NewOf, NewRoutine;
    match a.level
    case MiniStack => NewMini(s.p, a.r, a.sid);
    case MediumStack => NewMedium(s.p, a.r, a.sid);
    case LargeStack => NewLarge(s.p, a.r, a.sid);
  }

  /** The end of a routine other than main, while less than 1000 stacks are pooled. */
  predicate Recycles(s: State, a: Step) {
    a.DoFinish? && s.d.occupy != s.d.main && s.p.nums < 1000
  }

  /**
    What the end of the running routine o makes of the pools: it goes to them with its stack, a
    1 MiB stack to the medium list and any other to the mini list, and is not marked for deletion;
    at the limit it is marked and the pools stay; for main neither happens.
   */
  predicate EndOf(s: State, s': State) {
    var o, p, p' := s.d.occupy, s.p, s'.p;
    if o != s.d.main && s.p.nums < 1000 then
      && o in p.stackOf && p.stackOf[o] in p.size && !s'.d.needDelete
      && p'.routines == p.routines + [o] && p'.nums == p.nums + 1
      && p'.mini == p.mini + (if p.size[p.stackOf[o]] == 1048576 then [] else [p.stackOf[o]])
      && p'.medium == p.medium + (if p.size[p.stackOf[o]] == 1048576 then [p.stackOf[o]] else [])
      && p'.large == p.large && p'.size == p.size && p'.stackOf == (map r | r in p.stackOf && r != o :: p.stackOf[r])
    else p' == p && (s'.d.needDelete <==> o != s.d.main)
  }

  lemma FinishLaw(v: Variant, s: State, w: map<Rid, Place>, a: Step)
    requires Safe(s, w) && Enabled(s, a) && a.DoFinish?
    ensures EndOf(s, Do(v, s, a))
  {
    var o := s.d.occupy;
    assert Holds(s, o, Running);
    assert o != s.d.main ==> o in Owners(s) && Owned(s.p, s.p.stackOf[o]);
    hide PlacesOk;
  }

  /** The routine that was marked is deleted with its stack; no other step but New and the end of a routine changes the pools. */
  lemma PoolsLaw(v: Variant, s: State, w: map<Rid, Place>, a: Step)
    requires Safe(s, w) && Enabled(s, a) && !a.DoNew? && !a.DoFinish?
    ensures var p, p', x := s.p, Do(v, s, a).p, s.d.pending;
            if a.DoEpilogue? && s.d.needDelete then
              && x in p.stackOf && p'.stackOf == (map r | r in p.stackOf && r != x :: p.stackOf[r])
              && p'.size == (map y | y in p.size && y != p.stackOf[x] :: p.size[y])
              && p' == p.(stackOf := p'.stackOf, size := p'.size)
            else p' == p
  {
    assert s.d.needDelete ==> s.d.pending in Owners(s);
    hide PlacesOk, StacksOk, SizesOk, CountsOk;
  }
}
