/** For which callers lock() as written is right. */
module RuntimeMutexUse {
  import opened RuntimeSpec
  import opened RuntimePlaces
  import opened RuntimePools
  import opened RuntimeMutex
  import opened RuntimeMutexRuns
  import opened RuntimeMutexBreaks
  import opened Sequences

  /** Only routine r has ever locked: if it expects 1 next, it waits for a mutex of its own, for ever. */
  ghost predicate OneUser(s: State, r: Rid) {
    && (forall x :: x in s.k.retry ==> x == r)
    && (forall x, m :: (x, m) in s.k.held ==> x == r)
    && (r in s.k.retry && s.k.retry[r].expected != 0 ==> r in WaitsOn(s.q, OfMutex(s.k.retry[r].m)))
  }

  /** Whoever waits for a mutex does not run. */
  lemma WaiterIsOut(s: State, w: map<Rid, Place>, m: nat)
    requires PlacesOk(s, w) && UserRuns(s)
    ensures s.d.occupy !in WaitsOn(s.q, OfMutex(m))
  {
    var o := s.d.occupy;
    assert Holds(s, o, Running);
    assert o in WaitsOn(s.q, OfMutex(m)) ==> Holds(s, o, WaitsIn(OfMutex(m)));
  }

  lemma OneUserRetries(s: State, w: map<Rid, Place>, r: Rid)
    requires PlacesOk(s, w) && OneUser(s, r) && Enabled(s, DoRetry)
    ensures s.d.occupy == r && s.k.retry[r].expected == 0 && !BadRetry(s, DoRetry)
  {
    WaiterIsOut(s, w, s.k.retry[s.d.occupy].m);
  }

  /** An attempt of r: if it fails, r waits. */
  lemma OneUserAttempts(s: State, r: Rid, m: nat)
    requires OneUser(s, r) && s.d.occupy == r
    ensures OneUser(Attempt(AsWritten, s, m, 0), r)
  {
  }

  lemma OneUserQuiet(s: State, s': State, r: Rid)
    requires OneUser(s, r) && s'.k == s.k && SameMutexLists(s.q, s'.q)
    ensures OneUser(s', r)
  {
  }

  lemma OneUserStep(s: State, w: map<Rid, Place>, a: Step, r: Rid)
    requires PlacesOk(s, w) && OneUser(s, r) && Enabled(s, a) && Disciplined(s, a) && (a.DoLock? ==> s.d.occupy == r)
    ensures OneUser(Do(AsWritten, s, a), r)
  {
    var s' := Do(AsWritten, s, a);
    match a
    case DoLock(m) => OneUserAttempts(s, r, m);
    case DoRetry =>
      OneUserRetries(s, w, r);
      OneUserAttempts(s, r, s.k.retry[r].m);
    case DoUnlock(_, _) =>
    case DoWait(_, _, _) =>
    case DoSignalAll(c, ts) =>
      WakeAllQuiet(s.q, c, ts);
      OneUserQuiet(s, s', r);
    case DoDeal(released) =>
      UnparkQuiet(s.q, released);
      OneUserQuiet(s, s', r);
    case _ => OneUserQuiet(s, s', r);
  }

  lemma {:induction false} OneUserRuns(states: seq<State>, steps: seq<Step>, r: Rid, n: nat)
    requires IsRun(AsWritten, states, steps) && WellUsed(states, steps) && LockedBy(states, steps, {r}) && n <= |steps|
    ensures OneUser(states[n], r)
    ensures forall k :: 0 <= k < n ==> !BadRetry(states[k], steps[k])
  {
    if n == 0 {
      StartsUnlocked(states, steps);
    } else {
      hide *;
      OneUserRuns(states, steps, r, n - 1);
      RunStep(AsWritten, states, steps, n - 1);
      if steps[n - 1].DoLock? { OneUserLocks(states, steps, r, n - 1); }
      var w := PlacesAt(AsWritten, states, steps, n - 1);
      OneUserStep(states[n - 1], w, steps[n - 1], r);
      OneUserIsGood(states[n - 1], w, steps[n - 1], r);
    }
  }

  lemma StartsUnlocked(states: seq<State>, steps: seq<Step>)
    requires IsRun(AsWritten, states, steps)
    ensures |states| == |steps| + 1 && forall r :: OneUser(states[0], r)
  {
  }

  lemma OneUserLocks(states: seq<State>, steps: seq<Step>, r: Rid, k: nat)
    requires |states| == |steps| + 1 && LockedBy(states, steps, {r}) && k < |steps| && steps[k].DoLock?
    ensures states[k].d.occupy == r
  {
    assert states[k].d.occupy in {r};
  }

  lemma PlacesAt(v: Variant, states: seq<State>, steps: seq<Step>, k: nat) returns (w: map<Rid, Place>)
    requires IsRun(v, states, steps) && WellUsed(states, steps) && k < |steps|
    ensures |states| == |steps| + 1 && PlacesOk(states[k], w)
  {
    assert |states| == |steps| + 1;
    hide *;
    RunPrefix(v, states, steps, k);
    WellUsedResumes(v, states[..k + 1], steps[..k]);
    w := RunsAreSafe(v, states[..k + 1], steps[..k]);
    SafePlaces(states[k], w);
  }

  lemma SafePlaces(s: State, w: map<Rid, Place>)
    requires Safe(s, w)
    ensures PlacesOk(s, w)
  {
  }

  lemma OneUserIsGood(s: State, w: map<Rid, Place>, a: Step, r: Rid)
    requires PlacesOk(s, w) && OneUser(s, r) && Enabled(s, a)
    ensures !BadRetry(s, a)
  {
    hide PlacesOk, OneUser;
    if a == DoRetry {
      OneUserRetries(s, w, r);
    }
  }

  ghost predicate RunBy(states: seq<State>, steps: seq<Step>, R: set<Rid>) {
    IsRun(AsWritten, states, steps) && WellUsed(states, steps) && LockedBy(states, steps, R)
  }

  /** In every run of the code in which only the routines R lock, the mutexes are right in all states. */
  ghost predicate AlwaysRight(R: set<Rid>) {
    forall states, steps, k: nat :: RunBy(states, steps, R) && k < |states| ==> LocksOk(states[k])
  }

  lemma OneRoutineIsRight(R: set<Rid>, r: Rid, states: seq<State>, steps: seq<Step>, k: nat)
    requires R <= {r} && RunBy(states, steps, R) && k < |states|
    ensures LocksOk(states[k])
  {
    hide LocksOk, BadRetry, OneUser;
    OneUserRuns(states, steps, r, |steps|);
    RunIsRightIffNoBadRetry(AsWritten, states, steps);
  }

  lemma TwoRoutinesBreak(main: Rid, other: Rid) returns (states: seq<State>, steps: seq<Step>)
    requires main != other
    ensures RunBy(states, steps, {main, other}) && |states| == |steps| + 1 && !LocksOk(states[|steps|])
  {
    states, steps := LockStrandsAWaiter(main, other);
    assert !NoneStranded(states[|steps|], 0);
  }

  lemma AtMostOne(R: set<Rid>) returns (r: Rid)
    requires |R| <= 1
    ensures R <= {r}
  {
    r := 0;
    if R != {} { r :| r in R; }
    forall x | x in R ensures x == r {
      SameMember(R, x, r);
    }
  }

  /**
    The exact condition for the callers: lock() as written keeps the mutexes right in every run
    if and only if at most one routine ever locks.
   */
  lemma CodeLockIsRightForOneRoutine(R: set<Rid>)
    ensures AlwaysRight(R) <==> |R| <= 1
  {
    hide LocksOk, IsRun, WellUsed;
    if |R| <= 1 {
      var r := AtMostOne(R);
      forall states, steps, k: nat | RunBy(states, steps, R) && k < |states| ensures LocksOk(states[k]) {
        OneRoutineIsRight(R, r, states, steps, k);
      }
    } else {
      var main, other := TwoMembers(R);
      var states, steps := TwoRoutinesBreak(main, other);
      assert RunBy(states, steps, R);
    }
  }
}
