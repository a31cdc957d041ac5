/** lock() as written, on any two routines: a waiter that is never woken again, and two holders at once. */
module RuntimeMutexBreaks {
  import opened RuntimeSpec
  import opened RuntimePools
  import opened RuntimeMutex
  import opened RuntimeMutexRuns

  /** Three routines: main, the dispatcher, and another one. The mutex is 0. */
  datatype Cast = Cast(main: Rid, disp: Rid, other: Rid)

  predicate Different(n: Cast) {
    n.main != n.disp && n.main != n.other && n.disp != n.other
  }

  /** One step of the code as written, within the rules for its callers. */
  predicate Link(n: Cast, s: State, a: Step, t: State) {
    && Enabled(s, a) && ResumesUnstarted(s, a) && Disciplined(s, a) && t == Do(AsWritten, s, a)
    && (a.DoLock? ==> s.d.occupy == n.main || s.d.occupy == n.other)
  }

  function OneStack(n: Cast): Pools { Pools([], [], [], [], 0, map[n.disp := 10], map[10 := LARGE_BYTES]) }
  function TwoStacks(n: Cast): Pools { Pools([], [], [], [], 0, map[n.disp := 10, n.other := 11], map[10 := LARGE_BYTES, 11 := MINI_BYTES]) }

  /** The dispatcher runs, after the routine r or before it. */
  function Dispatcher(n: Cast, r: Rid, task: Option<Item>): Dispatch { Dispatch(n.disp, r, false, task, n.main, n.disp, {n.disp}) }
  function Runs(n: Cast, r: Rid, t: Tid): Dispatch { Dispatch(r, n.disp, false, Some(Item(t, r)), n.main, n.disp, {n.disp}) }
  function Both(n: Cast): set<Rid> { {n.main, n.other} }

  // The states up to a contended mutex: main holds it, and the other one waits with 1 as its next expected value.
  function S0(n: Cast): State { State(Dispatcher(n, n.main, None), Queues([Item(20, n.main)], {}, map[], {}, {n.main}, {20}), OneStack(n), Locks(map[], map[], {})) }
  function S1(n: Cast): State { State(Runs(n, n.main, 20), Queues([], {}, map[], {}, {n.main}, {20}), OneStack(n), Locks(map[], map[], {})) }
  function S2(n: Cast): State { State(Runs(n, n.main, 20), Queues([], {}, map[], {n.other}, Both(n), {20}), TwoStacks(n), Locks(map[], map[], {})) }
  function Held(n: Cast): Locks { Locks(map[0 := 1], map[], {(n.main, 0)}) }
  function S3(n: Cast): State { S2(n).(k := Held(n)) }
  function S4(n: Cast): State { State(Dispatcher(n, n.main, Some(Item(20, n.main))), Queues([Item(21, n.other), Item(22, n.main)], {}, map[], {}, Both(n), {20, 21, 22}), TwoStacks(n), Held(n)) }
  function S5(n: Cast): State { State(Dispatcher(n, n.main, None), Queues([Item(21, n.other), Item(22, n.main)], {}, map[], {}, Both(n), {21, 22}), TwoStacks(n), Held(n)) }
  function S6(n: Cast): State { State(Runs(n, n.other, 21), Queues([Item(22, n.main)], {}, map[], {}, Both(n), {21, 22}), TwoStacks(n), Held(n)) }
  function Waiters(n: Cast): map<ListId, seq<Rid>> { map[OfMutex(0) := [n.other]] }
  function Carried(n: Cast): map<Rid, Retry> { map[n.other := Retry(0, 1)] }
  function S7(n: Cast): State { State(Dispatcher(n, n.other, Some(Item(21, n.other))), Queues([Item(22, n.main)], {}, Waiters(n), {}, Both(n), {21, 22}), TwoStacks(n), Held(n).(retry := Carried(n))) }
  function S8(n: Cast): State { State(Dispatcher(n, n.other, None), Queues([Item(22, n.main)], {}, Waiters(n), {}, Both(n), {22}), TwoStacks(n), Held(n).(retry := Carried(n))) }
  function S9(n: Cast): State { State(Runs(n, n.main, 22), Queues([], {}, Waiters(n), {}, Both(n), {22}), TwoStacks(n), Held(n).(retry := Carried(n))) }

  // Main unlocks, which wakes the other one, and gives way.
  function NoWaiters(): map<ListId, seq<Rid>> { map[OfMutex(0) := []] }
  function Open(n: Cast): Locks { Locks(map[0 := 0], Carried(n), {}) }
  function S10(n: Cast): State { State(Runs(n, n.main, 22), Queues([Item(23, n.other)], {}, NoWaiters(), {}, Both(n), {22, 23}), TwoStacks(n), Open(n)) }
  function S11(n: Cast): State { State(Dispatcher(n, n.main, Some(Item(22, n.main))), Queues([Item(23, n.other), Item(24, n.main)], {}, NoWaiters(), {}, Both(n), {22, 23, 24}), TwoStacks(n), Open(n)) }
  function S12(n: Cast): State { State(Dispatcher(n, n.main, None), Queues([Item(23, n.other), Item(24, n.main)], {}, NoWaiters(), {}, Both(n), {23, 24}), TwoStacks(n), Open(n)) }
  function S13(n: Cast): State { State(Runs(n, n.other, 23), Queues([Item(24, n.main)], {}, NoWaiters(), {}, Both(n), {23, 24}), TwoStacks(n), Open(n)) }
  // Its retry expects 1 and finds 0.
  function S14(n: Cast): State { State(Dispatcher(n, n.other, Some(Item(23, n.other))), Queues([Item(24, n.main)], {}, Waiters(n), {}, Both(n), {23, 24}), TwoStacks(n), Locks(map[0 := 0], map[n.other := Retry(0, 0)], {})) }

  // Or main takes the mutex again before it gives way, and the retry finds 1.
  function Again(n: Cast): Locks { Locks(map[0 := 1], Carried(n), {(n.main, 0)}) }
  function T11(n: Cast): State { S10(n).(k := Again(n)) }
  function T12(n: Cast): State { S11(n).(k := Again(n)) }
  function T13(n: Cast): State { S12(n).(k := Again(n)) }
  function T14(n: Cast): State { S13(n).(k := Again(n)) }
  function T15(n: Cast): State { T14(n).(k := Locks(map[0 := 1], map[], {(n.main, 0), (n.other, 0)})) }

  lemma Dispatches(n: Cast)
    requires Different(n)
    ensures Link(n, S0(n), DoDispatch, S1(n)) && Link(n, S5(n), DoDispatch, S6(n)) && Link(n, S8(n), DoDispatch, S9(n))
    ensures Link(n, S12(n), DoDispatch, S13(n)) && Link(n, T13(n), DoDispatch, T14(n))
  {
    assert S12(n).q.ready[1..] == [Item(24, n.main)];
  }

  lemma Epilogues(n: Cast)
    requires Different(n)
    ensures Link(n, S4(n), DoEpilogue, S5(n)) && Link(n, S7(n), DoEpilogue, S8(n)) && Link(n, S11(n), DoEpilogue, S12(n)) && Link(n, T12(n), DoEpilogue, T13(n))
  {
  }

  lemma Starts(n: Cast)
    requires Different(n)
    ensures Link(n, S1(n), DoNew(n.other, MiniStack, 11), S2(n)) && Link(n, S3(n), DoResume(n.other, 21, 22), S4(n))
  {
    assert Do(AsWritten, S1(n), DoNew(n.other, MiniStack, 11)).p == TwoStacks(n);
    assert AllNew(S3(n).q, [21, 22]) by { assert [21, 22][0] == 21 && [21, 22][1] == 22; }
  }

  lemma FirstLocks(n: Cast)
    requires Different(n)
    ensures Link(n, S2(n), DoLock(0), S3(n)) && Link(n, S6(n), DoLock(0), S7(n))
  {
    assert Do(AsWritten, S2(n), DoLock(0)).k == Held(n);
    assert WaitsOn(S6(n).q, OfMutex(0)) + [n.other] == [n.other];
    assert Do(AsWritten, S6(n), DoLock(0)).k == S7(n).k;
  }

  lemma Unlocks(n: Cast)
    requires Different(n)
    ensures Link(n, S9(n), DoUnlock(0, 23), S10(n))
  {
    assert [23][0] == 23;
    assert WaitsOn(S9(n).q, OfMutex(0))[1..] == [];
    assert Do(AsWritten, S9(n), DoUnlock(0, 23)).k == S10(n).k;
  }

  lemma LocksAgain(n: Cast)
    requires Different(n)
    ensures Link(n, S10(n), DoLock(0), T11(n))
  {
    assert Do(AsWritten, S10(n), DoLock(0)).k == Again(n);
  }

  lemma Yields(n: Cast)
    requires Different(n)
    ensures Link(n, S10(n), DoYield(24), S11(n)) && Link(n, T11(n), DoYield(24), T12(n))
  {
    assert [24][0] == 24;
    assert S10(n).q.ready + [Item(24, n.main)] == S11(n).q.ready;
  }

  lemma Retries(n: Cast)
    requires Different(n)
    ensures Link(n, S13(n), DoRetry, S14(n)) && Link(n, T14(n), DoRetry, T15(n))
  {
    assert WaitsOn(S13(n).q, OfMutex(0)) + [n.other] == [n.other];
    assert Do(AsWritten, S13(n), DoRetry).k == S14(n).k;
    assert Do(AsWritten, T14(n), DoRetry).k == T15(n).k;
  }

  /** Linked states from the start to t. */
  ghost predicate Chain(n: Cast, states: seq<State>, steps: seq<Step>, t: State) {
    && |states| == |steps| + 1 && states[0] == S0(n) && states[|steps|] == t
    && forall k :: 0 <= k < |steps| ==> Link(n, states[k], steps[k], states[k + 1])
  }

  lemma Then(n: Cast, states: seq<State>, steps: seq<Step>, s: State, a: Step, t: State) returns (states': seq<State>, steps': seq<Step>)
    requires Chain(n, states, steps, s) && Link(n, s, a, t)
    ensures Chain(n, states', steps', t)
  {
    states', steps' := states + [t], steps + [a];
    hide Link, S0;
  }

  lemma ChainIsRun(n: Cast, states: seq<State>, steps: seq<Step>, t: State)
    requires Different(n) && Chain(n, states, steps, t)
    ensures IsRun(AsWritten, states, steps) && WellUsed(states, steps) && LockedBy(states, steps, Both(n)) && states[|steps|] == t
  {
    assert n.main != n.disp && SwapContext(Boot(n.main, n.disp, 10), 20) == S0(n);
    forall k | 0 <= k < |steps|
      ensures Enabled(states[k], steps[k]) && states[k + 1] == Do(AsWritten, states[k], steps[k])
      ensures ResumesUnstarted(states[k], steps[k]) && Disciplined(states[k], steps[k]) && (steps[k].DoLock? ==> states[k].d.occupy in Both(n))
    {
      assert Link(n, states[k], steps[k], states[k + 1]);
    }
    hide Link, Enabled, Do, Disciplined, ResumesUnstarted, S0;
  }

  /** Up to the unlock that wakes the other routine. */
  lemma ToWoken(n: Cast) returns (states: seq<State>, steps: seq<Step>)
    requires Different(n)
    ensures Chain(n, states, steps, S10(n))
  {
    states, steps := [S0(n)], [];
    assert Chain(n, states, steps, S0(n));
    hide *;
    Dispatches(n);
    Epilogues(n);
    Starts(n);
    FirstLocks(n);
    Unlocks(n);
    states, steps := Then(n, states, steps, S0(n), DoDispatch, S1(n));
    states, steps := Then(n, states, steps, S1(n), DoNew(n.other, MiniStack, 11), S2(n));
    states, steps := Then(n, states, steps, S2(n), DoLock(0), S3(n));
    states, steps := Then(n, states, steps, S3(n), DoResume(n.other, 21, 22), S4(n));
    states, steps := Then(n, states, steps, S4(n), DoEpilogue, S5(n));
    states, steps := Then(n, states, steps, S5(n), DoDispatch, S6(n));
    states, steps := Then(n, states, steps, S6(n), DoLock(0), S7(n));
    states, steps := Then(n, states, steps, S7(n), DoEpilogue, S8(n));
    states, steps := Then(n, states, steps, S8(n), DoDispatch, S9(n));
    states, steps := Then(n, states, steps, S9(n), DoUnlock(0, 23), S10(n));
  }

  /** A dispatcher beside two routines. */
  lemma CastOf(main: Rid, other: Rid) returns (n: Cast)
    requires main != other
    ensures Different(n) && n.main == main && n.other == other
  {
    n := Cast(main, main + other + 1, other);
  }

  /**
    As written, one contended lock() is enough to strand a routine: whichever two routines use the
    mutex, they have a run after which it is free, one waits for it, and nobody is left to try it
    or to unlock it.
   */
  lemma LockStrandsAWaiter(main: Rid, other: Rid) returns (states: seq<State>, steps: seq<Step>)
    requires main != other
    ensures IsRun(AsWritten, states, steps) && WellUsed(states, steps) && LockedBy(states, steps, {main, other})
    ensures Count(states[|steps|].k, 0) == 0 && WaitsOn(states[|steps|].q, OfMutex(0)) == [other]
    ensures forall r :: !Contender(states[|steps|], 0, r)
  {
    var n := CastOf(main, other);
    assert Count(S14(n).k, 0) == 0 && WaitsOn(S14(n).q, OfMutex(0)) == [other] && forall r :: !Contender(S14(n), 0, r);
    assert Both(n) == {main, other};
    hide *;
    states, steps := ToWoken(n);
    Yields(n);
    Epilogues(n);
    Dispatches(n);
    Retries(n);
    states, steps := Then(n, states, steps, S10(n), DoYield(24), S11(n));
    states, steps := Then(n, states, steps, S11(n), DoEpilogue, S12(n));
    states, steps := Then(n, states, steps, S12(n), DoDispatch, S13(n));
    states, steps := Then(n, states, steps, S13(n), DoRetry, S14(n));
    ChainIsRun(n, states, steps, S14(n));
  }

  /** As written, a retry can take a mutex that another routine holds. */
  lemma LockHasTwoHolders(main: Rid, other: Rid) returns (states: seq<State>, steps: seq<Step>)
    requires main != other
    ensures IsRun(AsWritten, states, steps) && WellUsed(states, steps) && LockedBy(states, steps, {main, other})
    ensures (main, 0) in states[|steps|].k.held && (other, 0) in states[|steps|].k.held
  {
    var n := CastOf(main, other);
    assert (main, 0) in T15(n).k.held && (other, 0) in T15(n).k.held;
    assert Both(n) == {main, other};
    hide *;
    states, steps := ToWoken(n);
    LocksAgain(n);
    Yields(n);
    Epilogues(n);
    Dispatches(n);
    Retries(n);
    states, steps := Then(n, states, steps, S10(n), DoLock(0), T11(n));
    states, steps := Then(n, states, steps, T11(n), DoYield(24), T12(n));
    states, steps := Then(n, states, steps, T12(n), DoEpilogue, T13(n));
    states, steps := Then(n, states, steps, T13(n), DoDispatch, T14(n));
    states, steps := Then(n, states, steps, T14(n), DoRetry, T15(n));
    ChainIsRun(n, states, steps, T15(n));
  }
}
