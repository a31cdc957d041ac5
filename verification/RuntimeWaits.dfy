/** What a routine that waits may rely on, over whole runs: in bCond::wait, in lock() and in poll. */
module RuntimeWaits {
  import opened RuntimeSpec
  import opened RuntimePlaces
  import opened RuntimePools
  import opened RuntimeLaws
  import opened RuntimeOrder

  /** The routine is inside lock() for m, or will be when it runs again. */
  predicate Locking(s: State, r: Rid, m: nat) {
    r in s.k.retry && s.k.retry[r].m == m
  }

  /**
    What a wait for the condition c with the mutex m leaves: the caller is at the end of the list of
    c, the mutex is free, and the caller will lock it again, starting from 0.
   */
  ghost predicate WaitOf(s: State, c: nat, m: nat, s': State) {
    var o := s.d.occupy;
    && WaitsOn(s'.q, OfCond(c)) == WaitsOn(s.q, OfCond(c)) + [o]
    && (forall b :: b != c ==> WaitsOn(s'.q, OfCond(b)) == WaitsOn(s.q, OfCond(b)))
    && Locking(s', o, m) && s'.k.retry[o].expected == 0
    && Count(s'.k, m) == 0 && (o, m) !in s'.k.held && s'.d.occupy == s.d.pending
  }

  lemma WaitLeaves(v: Variant, s: State, a: Step)
    requires Enabled(s, a) && a.DoWait?
    ensures WaitOf(s, a.c, a.m, Do(v, s, a))
  {
    RetryLaw(v, s, a);
    LocksLaw(v, s, a, a.m);
    DispatchLaw(v, s, a);
    forall c ensures WaitsOn(Do(v, s, a).q, OfCond(c)) == WaitsOn(s.q, OfCond(c)) + if c == a.c then [s.d.occupy] else [] {
      WaitsLaw(v, s, a, OfCond(c));
      Plain(WaitsOn(s.q, OfCond(c)), Joins(s, a, OfCond(c)), WaitsOn(Do(v, s, a).q, OfCond(c)));
    }
  }

  lemma WaitIs(s: State, c: nat, m: nat, s': State)
    requires WaitOf(s, c, m, s')
    ensures WaitsOn(s'.q, OfCond(c)) == WaitsOn(s.q, OfCond(c)) + [s.d.occupy]
    ensures Locking(s', s.d.occupy, m) && s'.k.retry[s.d.occupy].expected == 0
  {
  }

  lemma Plain<T>(s: seq<T>, more: seq<T>, t: seq<T>)
    requires s + more == [] + t
    ensures s + more == t && s <= t
  {
    assert [] + t == t;
  }

  /** Whoever is on a list does not run. */
  lemma WaiterIsOut(s: State, w: map<Rid, Place>, l: ListId, r: Rid)
    requires Safe(s, w) && r in WaitsOn(s.q, l)
    ensures r != s.d.occupy && r in s.q.live
  {
    assert Holds(s, r, WaitsIn(l));
    assert UserRuns(s) && r == s.d.occupy ==> Holds(s, r, Running);
  }

  /** A step that does not signal its condition leaves a waiter where it is, with the same mutex to lock. */
  lemma WaiterStays(v: Variant, s: State, w: map<Rid, Place>, a: Step, c: nat, r: Rid, m: nat)
    requires Safe(s, w) && Enabled(s, a) && r in WaitsOn(s.q, OfCond(c)) && Locking(s, r, m)
    requires !(a.DoSignalAll? && a.c == c)
    ensures var s' := Do(v, s, a);
            r in WaitsOn(s'.q, OfCond(c)) && Locking(s', r, m) && s'.k.retry[r] == s.k.retry[r]
  {
    WaiterIsOut(s, w, OfCond(c), r);
    RetryLaw(v, s, a);
    WaitsLaw(v, s, a, OfCond(c));
    Plain(WaitsOn(s.q, OfCond(c)), Joins(s, a, OfCond(c)), WaitsOn(Do(v, s, a).q, OfCond(c)));
    hide Safe, Do, Enabled, WaitsOn;
  }

  /** Between the steps i and j nobody signals the condition. */
  predicate Unsignalled(steps: seq<Step>, c: nat, i: nat, j: nat)
    requires j <= |steps|
  {
    forall k :: i <= k < j && steps[k].DoSignalAll? ==> steps[k].c != c
  }

  lemma UnsignalledLess(steps: seq<Step>, c: nat, i: nat, j: nat)
    requires i < j <= |steps| && Unsignalled(steps, c, i, j)
    ensures Unsignalled(steps, c, i, j - 1) && !(steps[j - 1].DoSignalAll? && steps[j - 1].c == c)
  {
  }

  lemma AtTheEnd<T>(s: seq<T>, x: T)
    ensures x in s + [x]
  {
  }

  /** Who waits for a condition waits until it is signalled. */
  lemma {:induction false} WaitsUntilSignalled(v: Variant, states: seq<State>, steps: seq<Step>, i: nat, j: nat)
    requires IsRun(v, states, steps) && ResumedOnce(states, steps) && i < j <= |steps| && |states| == |steps| + 1
    requires steps[i].DoWait? && Unsignalled(steps, steps[i].c, i + 1, j)
    ensures var r := states[i].d.occupy;
            r in WaitsOn(states[j].q, OfCond(steps[i].c)) && Locking(states[j], r, steps[i].m) && states[j].k.retry[r].expected == 0
    decreases j
  {
    hide *;
    if j == i + 1 {
      RunStep(v, states, steps, i);
      WaitLeaves(v, states[i], steps[i]);
      WaitIs(states[i], steps[i].c, steps[i].m, states[i + 1]);
      AtTheEnd(WaitsOn(states[i].q, OfCond(steps[i].c)), states[i].d.occupy);
    } else {
      UnsignalledLess(steps, steps[i].c, i + 1, j);
      WaitsUntilSignalled(v, states, steps, i, j - 1);
      RunStep(v, states, steps, j - 1);
      var w := RunSafe(v, states, steps, j - 1);
      WaiterStays(v, states[j - 1], w, steps[j - 1], steps[i].c, states[i].d.occupy, steps[i].m);
    }
  }

  /** signalAll queues a waiter, and takes it off the list. */
  lemma SignalQueues(v: Variant, s: State, a: Step, r: Rid) returns (t: Tid)
    requires Enabled(s, a) && a.DoSignalAll? && r in WaitsOn(s.q, OfCond(a.c))
    ensures Item(t, r) in Do(v, s, a).q.ready && r !in WaitsOn(Do(v, s, a).q, OfCond(a.c)) && Do(v, s, a).k == s.k
  {
    var waiters := WaitsOn(s.q, OfCond(a.c));
    ReadyLaw(v, s, a);
    WakeAllIs(s.q, OfCond(a.c), a.ts);
    ItemsForIs(a.ts, waiters);
    var k :| 0 <= k < |waiters| && waiters[k] == r;
    t := a.ts[k];
    assert ItemsFor(a.ts, waiters)[k] in ItemsFor(a.ts, waiters);
    hide WakeAll, ItemsFor;
  }

  /** The next signalAll wakes everybody who waits for the condition. */
  lemma NextSignalWakes(v: Variant, states: seq<State>, steps: seq<Step>, i: nat, j: nat) returns (t: Tid)
    requires IsRun(v, states, steps) && ResumedOnce(states, steps) && i < j < |steps| && |states| == |steps| + 1
    requires steps[i].DoWait? && Unsignalled(steps, steps[i].c, i + 1, j) && steps[j].DoSignalAll? && steps[j].c == steps[i].c
    ensures var r := states[i].d.occupy;
            && Item(t, r) in states[j + 1].q.ready && r !in WaitsOn(states[j + 1].q, OfCond(steps[i].c))
            && Locking(states[j + 1], r, steps[i].m) && states[j + 1].k.retry[r].expected == 0
  {
    hide *;
    WaitsUntilSignalled(v, states, steps, i, j);
    RunStep(v, states, steps, j);
    t := SignalQueues(v, states[j], steps[j], states[i].d.occupy);
    SameRetry(states[j], states[j + 1], states[i].d.occupy, steps[i].m);
  }

  lemma SameRetry(s: State, s': State, r: Rid, m: nat)
    requires Locking(s, r, m) && s'.k == s.k
    ensures Locking(s', r, m) && s'.k.retry[r] == s.k.retry[r]
  {
  }

  // ---- lock() ------------------------------------------------------------------------------------

  /** A routine inside lock() stays there, for the same mutex, until it has locked it. */
  lemma LockingStep(v: Variant, s: State, a: Step, r: Rid, m: nat)
    requires Enabled(s, a) && Locking(s, r, m)
    ensures var s' := Do(v, s, a);
            if r in s'.k.retry then s'.k.retry[r].m == m
            else a == DoRetry && s.d.occupy == r && (r, m) in s'.k.held && Count(s'.k, m) == 1
  {
    RetryLaw(v, s, a);
    LocksLaw(v, s, a, m);
    if r == s.d.occupy && a.DoRetry? {
      assert Fails(s, a, m) || Succeeds(s, a, m);
    }
    hide Do;
  }

  lemma LockingIs(s: State, r: Rid, m: nat)
    ensures Locking(s, r, m) <==> r in s.k.retry && s.k.retry[r].m == m
  {
  }

  /** From state i to state n the routine does not leave lock(). */
  predicate Inside(states: seq<State>, r: Rid, i: nat, n: nat)
    requires n < |states|
  {
    forall k :: i <= k <= n ==> r in states[k].k.retry
  }

  lemma InsideLess(states: seq<State>, r: Rid, i: nat, n: nat)
    requires i < n < |states| && Inside(states, r, i, n)
    ensures Inside(states, r, i, n - 1) && r in states[n].k.retry
  {
  }

  lemma {:induction false} LocksTheSame(v: Variant, states: seq<State>, steps: seq<Step>, r: Rid, m: nat, i: nat, n: nat)
    requires IsRun(v, states, steps) && i <= n <= |steps| && |states| == |steps| + 1
    requires Locking(states[i], r, m) && Inside(states, r, i, n)
    ensures Locking(states[n], r, m)
    decreases n
  {
    hide *;
    if i < n {
      InsideLess(states, r, i, n);
      LocksTheSame(v, states, steps, r, m, i, n - 1);
      RunStep(v, states, steps, n - 1);
      LockingStep(v, states[n - 1], steps[n - 1], r, m);
      LockingIs(states[n], r, m);
    }
  }

  /** The first signal of the condition from step i on, if there is one before step n. */
  lemma {:induction false} FirstSignal(steps: seq<Step>, c: nat, i: nat, n: nat) returns (j: nat)
    requires i <= n <= |steps|
    ensures i <= j <= n && Unsignalled(steps, c, i, j) && (j < n ==> steps[j].DoSignalAll? && steps[j].c == c)
    decreases n - i
  {
    if i == n || (steps[i].DoSignalAll? && steps[i].c == c) {
      j := i;
    } else {
      j := FirstSignal(steps, c, i + 1, n);
    }
  }

  /**
    The whole of bCond::wait: when it returns, after step n, its caller has been woken by a signalAll
    of its condition, has waited until the first one, and holds the mutex that it gave up.
   */
  lemma WaitReturnsSignalledAndLocked(v: Variant, states: seq<State>, steps: seq<Step>, i: nat, n: nat) returns (j: nat, t: Tid)
    requires IsRun(v, states, steps) && ResumedOnce(states, steps) && i < n < |steps| && |states| == |steps| + 1
    requires steps[i].DoWait? && Inside(states, states[i].d.occupy, i + 1, n) && states[i].d.occupy !in states[n + 1].k.retry
    ensures i < j < n && Unsignalled(steps, steps[i].c, i + 1, j) && steps[j].DoSignalAll? && steps[j].c == steps[i].c
    ensures Item(t, states[i].d.occupy) in states[j + 1].q.ready
    ensures steps[n] == DoRetry && states[n].d.occupy == states[i].d.occupy
    ensures (states[i].d.occupy, steps[i].m) in states[n + 1].k.held && Count(states[n + 1].k, steps[i].m) == 1
  {
    var r, c, m := states[i].d.occupy, steps[i].c, steps[i].m;
    hide *;
    RunStep(v, states, steps, i);
    WaitLeaves(v, states[i], steps[i]);
    WaitIs(states[i], steps[i].c, steps[i].m, states[i + 1]);
    LocksTheSame(v, states, steps, r, m, i + 1, n);
    RunStep(v, states, steps, n);
    LockingStep(v, states[n], steps[n], r, m);
    j := FirstSignal(steps, c, i + 1, n);
    if j == n {
      WaitsUntilSignalled(v, states, steps, i, n);
      var w := RunSafe(v, states, steps, n);
      WaiterIsOut(states[n], w, OfCond(c), r);
      assert false;
    } else {
      t := NextSignalWakes(v, states, steps, i, j);
    }
  }

  // ---- poll --------------------------------------------------------------------------------------

  /** From step i to step j no Deal releases the TaskItem. */
  predicate Unreleased(steps: seq<Step>, x: Item, i: nat, j: nat)
    requires j <= |steps|
  {
    forall k :: i <= k < j && steps[k].DoDeal? ==> x !in steps[k].released
  }

  lemma UnreleasedLess(steps: seq<Step>, x: Item, i: nat, j: nat)
    requires i < j <= |steps| && Unreleased(steps, x, i, j)
    ensures Unreleased(steps, x, i, j - 1) && !(steps[j - 1].DoDeal? && x in steps[j - 1].released)
  {
  }

  /** The routine of the TaskItem is parked under it, and neither ready nor running. */
  predicate OnlyParked(s: State, x: Item) {
    x in s.q.parked && s.d.occupy != x.self && forall i :: i in s.q.ready ==> i.self != x.self
  }

  lemma PollParks(v: Variant, s: State, a: Step)
    requires Enabled(s, a) && a.DoPoll?
    ensures Item(a.t, s.d.occupy) in Do(v, s, a).q.parked
  {
    ParkedLaw(v, s, a);
  }

  lemma ParkedStays(v: Variant, s: State, a: Step, x: Item)
    requires Enabled(s, a) && OnlyParked(s, x) && !(a.DoDeal? && x in a.released)
    ensures x in Do(v, s, a).q.parked
  {
    ParkedLaw(v, s, a);
  }

  lemma ParkedIsOut(s: State, w: map<Rid, Place>, x: Item)
    requires Safe(s, w) && x in s.q.parked
    ensures OnlyParked(s, x)
  {
    assert Holds(s, x.self, ParkedAs(x.tid));
    assert UserRuns(s) && x.self == s.d.occupy ==> Holds(s, x.self, Running);
    forall i | i in s.q.ready ensures i.self != x.self {
      assert Holds(s, i.self, ReadyAs(i.tid));
    }
  }

  /** Who polls is parked, neither ready nor running, until a Deal releases its TaskItem. */
  lemma {:induction false} ParkedUntilReleased(v: Variant, states: seq<State>, steps: seq<Step>, i: nat, j: nat)
    requires IsRun(v, states, steps) && ResumedOnce(states, steps) && i < j <= |steps| && |states| == |steps| + 1
    requires steps[i].DoPoll? && Unreleased(steps, Item(steps[i].t, states[i].d.occupy), i + 1, j)
    ensures OnlyParked(states[j], Item(steps[i].t, states[i].d.occupy))
    decreases j
  {
    hide *;
    var x := Item(steps[i].t, states[i].d.occupy);
    RunStep(v, states, steps, j - 1);
    if i + 1 < j {
      UnreleasedLess(steps, x, i + 1, j);
      ParkedUntilReleased(v, states, steps, i, j - 1);
      ParkedStays(v, states[j - 1], steps[j - 1], x);
    } else {
      PollParks(v, states[i], steps[i]);
    }
    var w := RunSafe(v, states, steps, j);
    ParkedIsOut(states[j], w, x);
  }

  /** And the Deal that releases it queues it. */
  lemma DealMoves(v: Variant, s: State, a: Step)
    requires Enabled(s, a) && a.DoDeal?
    ensures forall x :: x in a.released ==> x in Do(v, s, a).q.ready && x !in Do(v, s, a).q.parked
  {
    UnparkIs(s.q, a.released);
    hide Unpark;
  }
}
