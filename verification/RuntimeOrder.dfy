/** Over whole runs the ready queue, the wait lists and the pools give back what was put in, in the same order. */
module RuntimeOrder {
  import opened RuntimeSpec
  import opened RuntimePlaces
  import opened RuntimePools
  import opened RuntimeLaws

  ghost predicate ResumedOnce(states: seq<State>, steps: seq<Step>)
    requires |states| == |steps| + 1
  {
    forall k :: 0 <= k < |steps| ==> ResumesUnstarted(states[k], steps[k])
  }

  lemma RunStep(v: Variant, states: seq<State>, steps: seq<Step>, k: nat)
    requires IsRun(v, states, steps) && k < |steps|
    ensures |states| == |steps| + 1 && Enabled(states[k], steps[k]) && states[k + 1] == Do(v, states[k], steps[k])
  {
  }

  lemma RunLength(v: Variant, states: seq<State>, steps: seq<Step>)
    requires IsRun(v, states, steps)
    ensures |states| == |steps| + 1
  {
  }

  lemma RunSafe(v: Variant, states: seq<State>, steps: seq<Step>, k: nat) returns (w: map<Rid, Place>)
    requires IsRun(v, states, steps) && ResumedOnce(states, steps) && k <= |steps|
    ensures |states| == |steps| + 1 && Safe(states[k], w)
  {
    RunPrefix(v, states, steps, k);
    hide *;
    w := RunsAreSafe(v, states[..k + 1], steps[..k]);
  }

  lemma RunPrefix(v: Variant, states: seq<State>, steps: seq<Step>, n: nat)
    requires IsRun(v, states, steps) && ResumedOnce(states, steps) && n <= |steps|
    ensures |states| == |steps| + 1 && IsRun(v, states[..n + 1], steps[..n]) && states[..n + 1][n] == states[n]
    ensures forall k :: 0 <= k < n ==> ResumesUnstarted(states[..n + 1][k], steps[..n][k])
  {
    hide Enabled, Do, ResumesUnstarted;
  }

  /** In the first state of a run main is queued, and everything else is empty. */
  lemma RunStarts(v: Variant, states: seq<State>, steps: seq<Step>)
    requires IsRun(v, states, steps)
    ensures |states| == |steps| + 1
    ensures var s := states[0];
            && |s.q.ready| == 1 && s.q.ready[0].self == s.d.main && s.q.live == {s.d.main}
            && s.q.parked == {} && s.q.unstarted == {} && (forall l :: WaitsOn(s.q, l) == [])
            && s.d.occupy == s.d.dispatcher && s.d.pending == s.d.main && s.d.task == None && !s.d.needDelete
            && s.d.progress == {s.d.dispatcher}
            && s.p.routines == s.p.mini == s.p.medium == s.p.large == [] && s.p.nums == 0 && s.p.stackOf.Keys == {s.d.dispatcher}
            && (forall m :: Count(s.k, m) == 0) && s.k.retry == map[] && s.k.held == {}
  {
    var main, dispatcher, sid, t :| main != dispatcher && states[0] == SwapContext(Boot(main, dispatcher, sid), t);
    assert states[0].q.ready == [Item(t, main)];
  }

  // ---- the ready queue -------------------------------------------------------------------------

  /** All that the first n steps put behind the ready queue, and all that they dispatched. */
  function ReadiedBy(states: seq<State>, steps: seq<Step>, n: nat): seq<Item>
    requires n <= |steps| < |states|
  {
    if n == 0 then [] else ReadiedBy(states, steps, n - 1) + Readied(states[n - 1], steps[n - 1])
  }

  function DispatchedBy(states: seq<State>, steps: seq<Step>, n: nat): seq<Item>
    requires n <= |steps| < |states|
  {
    if n == 0 then [] else DispatchedBy(states, steps, n - 1) + Dequeued(states[n - 1], steps[n - 1])
  }

  lemma Fifo<T>(start: seq<T>, put: seq<T>, got: seq<T>, now: seq<T>, more: seq<T>, less: seq<T>, next: seq<T>)
    requires start + put == got + now && now + more == less + next
    ensures start + (put + more) == (got + less) + next
  {
    assert start + (put + more) == (start + put) + more == got + (now + more);
    assert got + (less + next) == (got + less) + next;
  }

  /** The same, when there was nothing at the start. */
  lemma Exchange<T>(put: seq<T>, got: seq<T>, now: seq<T>, more: seq<T>, less: seq<T>, next: seq<T>)
    requires put == got + now && now + more == less + next
    ensures put + more == (got + less) + next
  {
    assert put + more == got + (now + more) == got + (less + next);
  }

  /** Routines are dispatched in the order in which they were queued, main first. */
  lemma {:induction false} ReadyQueueIsFifo(v: Variant, states: seq<State>, steps: seq<Step>, n: nat)
    requires IsRun(v, states, steps) && n <= |steps|
    ensures |states| == |steps| + 1
    ensures states[0].q.ready + ReadiedBy(states, steps, n) == DispatchedBy(states, steps, n) + states[n].q.ready
  {
    if n == 0 {
      assert states[0].q.ready + [] == [] + states[0].q.ready;
    } else {
      hide Readied, Dequeued, IsRun;
      ReadyQueueIsFifo(v, states, steps, n - 1);
      RunStep(v, states, steps, n - 1);
      ReadyLaw(v, states[n - 1], steps[n - 1]);
      Fifo(states[0].q.ready, ReadiedBy(states, steps, n - 1), DispatchedBy(states, steps, n - 1), states[n - 1].q.ready,
           Readied(states[n - 1], steps[n - 1]), Dequeued(states[n - 1], steps[n - 1]), states[n].q.ready);
    }
  }

  // ---- the wait lists --------------------------------------------------------------------------

  function JoinedBy(states: seq<State>, steps: seq<Step>, l: ListId, n: nat): seq<Rid>
    requires n <= |steps| < |states|
  {
    if n == 0 then [] else JoinedBy(states, steps, l, n - 1) + Joins(states[n - 1], steps[n - 1], l)
  }

  function WokenBy(states: seq<State>, steps: seq<Step>, l: ListId, n: nat): seq<Rid>
    requires n <= |steps| < |states|
  {
    if n == 0 then [] else WokenBy(states, steps, l, n - 1) + Woken(states[n - 1], steps[n - 1], l)
  }

  /** Those who wait for a mutex or a condition are woken in the order in which they began to wait. */
  lemma {:induction false} WaitListsAreFifo(v: Variant, states: seq<State>, steps: seq<Step>, l: ListId, n: nat)
    requires IsRun(v, states, steps) && n <= |steps|
    ensures |states| == |steps| + 1
    ensures JoinedBy(states, steps, l, n) == WokenBy(states, steps, l, n) + WaitsOn(states[n].q, l)
  {
    RunStarts(v, states, steps);
    hide Joins, Woken, IsRun, WaitsOn;
    if n > 0 {
      WaitListsAreFifo(v, states, steps, l, n - 1);
      RunStep(v, states, steps, n - 1);
      WaitsLaw(v, states[n - 1], steps[n - 1], l);
      Exchange(JoinedBy(states, steps, l, n - 1), WokenBy(states, steps, l, n - 1), WaitsOn(states[n - 1].q, l),
           Joins(states[n - 1], steps[n - 1], l), Woken(states[n - 1], steps[n - 1], l), WaitsOn(states[n].q, l));
    }
  }

  // ---- the pools -------------------------------------------------------------------------------

  function StacksIn(p: Pools, medium: bool): seq<Sid> {
    if medium then p.medium else p.mini
  }

  /** The stack of the routine that ends goes to the medium list if it has 1 MiB, else to the mini list. */
  function Filed(s: State, a: Step, medium: bool): seq<Sid> {
    var o := s.d.occupy;
    if Recycles(s, a) && o in s.p.stackOf && s.p.stackOf[o] in s.p.size && (medium <==> s.p.size[s.p.stackOf[o]] == 1048576)
    then [s.p.stackOf[o]] else []
  }

  /** New takes a stack from the list of its level. */
  function Reused(s: State, a: Step, medium: bool): seq<Sid> {
    if a.DoNew? && (if medium then a.level.MediumStack? else a.level.MiniStack?) then
      if StacksIn(s.p, medium) == [] then [] else [StacksIn(s.p, medium)[0]]
    else []
  }

  lemma NewStacks(v: Variant, s: State, a: Step, medium: bool)
    requires Enabled(s, a) && a.DoNew?
    ensures StacksIn(s.p, medium) + Filed(s, a, medium) == Reused(s, a, medium) + StacksIn(Do(v, s, a).p, medium)
  {
    NewLaw(v, s, a);
    hide Do, Enabled, Newcomer;
  }

  lemma FinishedStacks(v: Variant, s: State, w: map<Rid, Place>, a: Step, medium: bool)
    requires Safe(s, w) && Enabled(s, a) && a.DoFinish?
    ensures StacksIn(s.p, medium) + Filed(s, a, medium) == Reused(s, a, medium) + StacksIn(Do(v, s, a).p, medium)
  {
    FinishLaw(v, s, w, a);
    hide Do, Enabled, Safe;
  }

  lemma OtherStacks(v: Variant, s: State, w: map<Rid, Place>, a: Step, medium: bool)
    requires Safe(s, w) && Enabled(s, a) && !a.DoNew? && !a.DoFinish?
    ensures StacksIn(s.p, medium) + Filed(s, a, medium) == Reused(s, a, medium) + StacksIn(Do(v, s, a).p, medium)
  {
    PoolsLaw(v, s, w, a);
    hide Do, Enabled, Safe;
  }

  lemma StackLaw(v: Variant, s: State, w: map<Rid, Place>, a: Step, medium: bool)
    requires Safe(s, w) && Enabled(s, a)
    ensures StacksIn(s.p, medium) + Filed(s, a, medium) == Reused(s, a, medium) + StacksIn(Do(v, s, a).p, medium)
  {
    hide *;
    if a.DoNew? {
      NewStacks(v, s, a, medium);
    } else if a.DoFinish? {
      FinishedStacks(v, s, w, a, medium);
    } else {
      OtherStacks(v, s, w, a, medium);
    }
  }

  function FiledBy(states: seq<State>, steps: seq<Step>, medium: bool, n: nat): seq<Sid>
    requires n <= |steps| < |states|
  {
    if n == 0 then [] else FiledBy(states, steps, medium, n - 1) + Filed(states[n - 1], steps[n - 1], medium)
  }

  function ReusedBy(states: seq<State>, steps: seq<Step>, medium: bool, n: nat): seq<Sid>
    requires n <= |steps| < |states|
  {
    if n == 0 then [] else ReusedBy(states, steps, medium, n - 1) + Reused(states[n - 1], steps[n - 1], medium)
  }

  lemma FiledMore(states: seq<State>, steps: seq<Step>, medium: bool, n: nat)
    requires n < |steps| < |states|
    ensures FiledBy(states, steps, medium, 0) == [] == ReusedBy(states, steps, medium, 0)
    ensures FiledBy(states, steps, medium, n + 1) == FiledBy(states, steps, medium, n) + Filed(states[n], steps[n], medium)
    ensures ReusedBy(states, steps, medium, n + 1) == ReusedBy(states, steps, medium, n) + Reused(states[n], steps[n], medium)
  {
  }

  lemma NothingFiled(v: Variant, states: seq<State>, steps: seq<Step>, medium: bool)
    requires IsRun(v, states, steps)
    ensures |states| == |steps| + 1
    ensures FiledBy(states, steps, medium, 0) == ReusedBy(states, steps, medium, 0) + StacksIn(states[0].p, medium)
  {
    RunStarts(v, states, steps);
    hide IsRun, WaitsOn;
  }

  /** The stacks of ended routines are used again in the order in which the routines ended, level by level. */
  lemma {:induction false} StackPoolsAreFifo(v: Variant, states: seq<State>, steps: seq<Step>, medium: bool, n: nat)
    requires IsRun(v, states, steps) && ResumedOnce(states, steps) && n <= |steps|
    ensures |states| == |steps| + 1
    ensures FiledBy(states, steps, medium, n) == ReusedBy(states, steps, medium, n) + StacksIn(states[n].p, medium)
  {
    hide *;
    NothingFiled(v, states, steps, medium);
    if n > 0 {
      StackPoolsAreFifo(v, states, steps, medium, n - 1);
      RunStep(v, states, steps, n - 1);
      var w := RunSafe(v, states, steps, n - 1);
      var s, a := states[n - 1], steps[n - 1];
      StackLaw(v, s, w, a, medium);
      FiledMore(states, steps, medium, n - 1);
      Exchange(FiledBy(states, steps, medium, n - 1), ReusedBy(states, steps, medium, n - 1), StacksIn(s.p, medium),
               Filed(s, a, medium), Reused(s, a, medium), StacksIn(states[n].p, medium));
    }
  }

  /** From step i to step j nobody asks for a stack of the level. */
  predicate NobodyAsks(steps: seq<Step>, medium: bool, i: nat, j: nat)
    requires j <= |steps|
  {
    forall k :: i <= k < j && steps[k].DoNew? ==> if medium then !steps[k].level.MediumStack? else !steps[k].level.MiniStack?
  }

  predicate Grows(p: Pools, q: Pools, medium: bool) {
    StacksIn(p, medium) <= StacksIn(q, medium)
  }

  lemma StackStays(v: Variant, s: State, w: map<Rid, Place>, steps: seq<Step>, medium: bool, i: nat, k: nat)
    requires k < |steps| && Safe(s, w) && Enabled(s, steps[k]) && i <= k && NobodyAsks(steps, medium, i, k + 1)
    ensures Grows(s.p, Do(v, s, steps[k]).p, medium) && NobodyAsks(steps, medium, i, k)
  {
    assert Reused(s, steps[k], medium) == [];
    hide Filed, Safe, Do, Enabled, Reused;
    StackLaw(v, s, w, steps[k], medium);
    Extends(StacksIn(s.p, medium), Filed(s, steps[k], medium), StacksIn(Do(v, s, steps[k]).p, medium));
  }

  lemma Extends<T>(s: seq<T>, more: seq<T>, t: seq<T>)
    requires s + more == [] + t
    ensures s <= t
  {
    assert [] + t == t;
  }

  lemma GrowsSelf(p: Pools, medium: bool)
    ensures Grows(p, p, medium)
  {
  }

  lemma GrowsOn(p: Pools, q: Pools, r: Pools, medium: bool)
    requires Grows(p, q, medium) && Grows(q, r, medium)
    ensures Grows(p, r, medium)
  {
  }

  lemma {:induction false} StaysFirst(v: Variant, states: seq<State>, steps: seq<Step>, medium: bool, i: nat, j: nat)
    requires IsRun(v, states, steps) && ResumedOnce(states, steps) && i <= j <= |steps| && NobodyAsks(steps, medium, i, j)
    ensures |states| == |steps| + 1 && Grows(states[i].p, states[j].p, medium)
    decreases j
  {
    hide *;
    RunLength(v, states, steps);
    GrowsSelf(states[i].p, medium);
    if i < j {
      RunStep(v, states, steps, j - 1);
      var w := RunSafe(v, states, steps, j - 1);
      StackStays(v, states[j - 1], w, steps, medium, i, j - 1);
      StaysFirst(v, states, steps, medium, i, j - 1);
      GrowsOn(states[i].p, states[j - 1].p, states[j].p, medium);
    }
  }

  /**
    A stack that goes to an empty list when its routine ends is the one that the next New of that
    level gets, however many steps later, and then no stack is mapped.
   */
  lemma RecycledStackIsReused(v: Variant, states: seq<State>, steps: seq<Step>, medium: bool, i: nat, j: nat)
    requires IsRun(v, states, steps) && ResumedOnce(states, steps) && i < j < |steps| && NobodyAsks(steps, medium, i + 1, j)
    requires |states| == |steps| + 1 && Recycles(states[i], steps[i]) && StacksIn(states[i].p, medium) == []
    requires steps[j].DoNew? && (if medium then steps[j].level.MediumStack? else steps[j].level.MiniStack?)
    ensures var o, p, q := states[i].d.occupy, states[i].p, states[j + 1].p;
            && o in p.stackOf && p.stackOf[o] in p.size
            && ((p.size[p.stackOf[o]] == 1048576 <==> medium) ==>
                  Newcomer(states[j], steps[j]) in q.stackOf && q.stackOf[Newcomer(states[j], steps[j])] == p.stackOf[o] && q.size == states[j].p.size)
  {
    RunStep(v, states, steps, i);
    var w := RunSafe(v, states, steps, i);
    FinishLaw(v, states[i], w, steps[i]);
    RunStep(v, states, steps, j);
    NewLaw(v, states[j], steps[j]);
    StaysFirst(v, states, steps, medium, i + 1, j);
    hide IsRun, Safe, Do, Enabled, Newcomer, ResumedOnce;
  }

  /** At no time are more than 1000 stacks, or more than 1000 routines, kept. */
  lemma PoolsStayBounded(v: Variant, states: seq<State>, steps: seq<Step>, k: nat)
    requires IsRun(v, states, steps) && ResumedOnce(states, steps) && k <= |steps|
    ensures |states| == |steps| + 1
    ensures var p := states[k].p;
            p.large == [] && p.nums == |p.mini| + |p.medium| <= 1000 && |p.routines| <= 1000
  {
    var w := RunSafe(v, states, steps, k);
    hide IsRun, PlacesOk;
  }

  /** A routine that ends is the one that New gives once those that ended before it are used up. */
  function Ended(s: State, a: Step): seq<Rid> {
    if Recycles(s, a) then [s.d.occupy] else []
  }

  function Renewed(s: State, a: Step): seq<Rid> {
    if a.DoNew? && s.p.routines != [] then [s.p.routines[0]] else []
  }

  function EndedBy(states: seq<State>, steps: seq<Step>, n: nat): seq<Rid>
    requires n <= |steps| < |states|
  {
    if n == 0 then [] else EndedBy(states, steps, n - 1) + Ended(states[n - 1], steps[n - 1])
  }

  function RenewedBy(states: seq<State>, steps: seq<Step>, n: nat): seq<Rid>
    requires n <= |steps| < |states|
  {
    if n == 0 then [] else RenewedBy(states, steps, n - 1) + Renewed(states[n - 1], steps[n - 1])
  }

  lemma RoutinesLaw(v: Variant, s: State, w: map<Rid, Place>, a: Step)
    requires Safe(s, w) && Enabled(s, a)
    ensures s.p.routines + Ended(s, a) == Renewed(s, a) + Do(v, s, a).p.routines
  {
    if a.DoNew? {
      NewLaw(v, s, a);
    } else if a.DoFinish? {
      FinishLaw(v, s, w, a);
    } else {
      PoolsLaw(v, s, w, a);
    }
    hide Do, Enabled, Safe;
  }

  /** Ended routines are used again in the order in which they ended. */
  lemma {:induction false} RoutinePoolIsFifo(v: Variant, states: seq<State>, steps: seq<Step>, n: nat)
    requires IsRun(v, states, steps) && ResumedOnce(states, steps) && n <= |steps|
    ensures |states| == |steps| + 1
    ensures EndedBy(states, steps, n) == RenewedBy(states, steps, n) + states[n].p.routines
  {
    RunStarts(v, states, steps);
    hide Ended, Renewed, IsRun, WaitsOn;
    if n > 0 {
      RoutinePoolIsFifo(v, states, steps, n - 1);
      RunStep(v, states, steps, n - 1);
      var w := RunSafe(v, states, steps, n - 1);
      var s, a := states[n - 1], steps[n - 1];
      hide Safe;
      RoutinesLaw(v, s, w, a);
      Exchange(EndedBy(states, steps, n - 1), RenewedBy(states, steps, n - 1), s.p.routines, Ended(s, a), Renewed(s, a), states[n].p.routines);
    }
  }
}
