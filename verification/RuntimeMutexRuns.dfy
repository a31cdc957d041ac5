/** Exactly when a step breaks the mutex, the runs of the repaired lock(), and the runs that break the one as written. */
module RuntimeMutexRuns {
  import opened RuntimeSpec
  import opened RuntimePlaces
  import opened RuntimePools
  import opened RuntimeMutex

  /**
    A retry that expects 1: it takes a mutex that another routine holds, or goes back to the wait
    list of a free one with nobody left to wake it.
   */
  ghost predicate BadRetry(s: State, a: Step) {
    && a.DoRetry? && UserRuns(s) && s.d.occupy in s.k.retry
    && var t := s.k.retry[s.d.occupy];
       && t.expected == 1
       && if Count(s.k, t.m) == 1 then (s.d.occupy, t.m) !in s.k.held else !OtherContender(s, t.m)
  }

  /** A compare-exchange that expects 1 and finds it. */
  lemma WrongSuccess(v: Variant, s: State, w: map<Rid, Place>, m: nat)
    requires PlacesOk(s, w) && LocksOk(s) && UserRuns(s) && Count(s.k, m) == 1
    requires s.d.occupy in s.k.retry ==> s.k.retry[s.d.occupy].m == m
    ensures LocksOk(Attempt(v, s, m, 1)) <==> (s.d.occupy, m) in s.k.held
  {
    var s', o := Attempt(v, s, m, 1), s.d.occupy;
    assert Holds(s, o, Running);
    assert OneHolder(s.k, m);
    var h :| (h, m) in s.k.held;
    assert (h, m) in s'.k.held && (o, m) in s'.k.held;
    if h == o {
      forall n ensures OneHolder(s'.k, n) {
        assert OneHolder(s.k, n);
        assert s'.k.held == s.k.held;
      }
      forall n ensures NoneStranded(s', n) {
        assert NoneStranded(s, n);
        if Count(s'.k, n) == 0 && WaitsOn(s'.q, OfMutex(n)) != [] {
          var r :| Contender(s, n, r);
          assert Contender(s', n, r);
        }
      }
      forall n, r | r in WaitsOn(s'.q, OfMutex(n))
        ensures r in s'.k.retry && s'.k.retry[r].m == n
      {
        assert Holds(s, r, WaitsIn(OfMutex(n)));
      }
    } else {
      assert !OneHolder(s'.k, m);
    }
  }

  lemma RetryExactly(v: Variant, s: State, w: map<Rid, Place>)
    requires PlacesOk(s, w) && LocksOk(s) && Enabled(s, DoRetry)
    ensures LocksOk(Do(v, s, DoRetry)) <==> !BadRetry(s, DoRetry)
  {
    var t := s.k.retry[s.d.occupy];
    assert OneHolder(s.k, t.m);
    if Count(s.k, t.m) != t.expected {
      FailureKeepsLocks(v, s, w, t.m, t.expected);
    } else if t.expected == 1 {
      WrongSuccess(v, s, w, t.m);
    } else {
      SuccessKeepsLocks(v, s, w, t.m);
    }
    hide LocksOk, OtherContender, PlacesOk;
  }

  lemma LockKeepsLocks(v: Variant, s: State, w: map<Rid, Place>, m: nat)
    requires PlacesOk(s, w) && LocksOk(s) && Enabled(s, DoLock(m))
    ensures LocksOk(Do(v, s, DoLock(m)))
  {
    assert OneHolder(s.k, m);
    if Count(s.k, m) == 0 {
      SuccessKeepsLocks(v, s, w, m);
    } else {
      FailureKeepsLocks(v, s, w, m, 0);
    }
    hide LocksOk, OtherContender, PlacesOk;
  }

  lemma WaitKeeps(v: Variant, s: State, w: map<Rid, Place>, c: nat, m: nat, t: Tid)
    requires PlacesOk(s, w) && LocksOk(s) && Enabled(s, DoWait(c, m, t)) && (s.d.occupy, m) in s.k.held
    ensures LocksOk(Do(v, s, DoWait(c, m, t)))
  {
    assert [t][0] == t;
    var u := Unlock(s, m, t);
    UnlockKeepsLocks(s, w, m, t);
    var w' := ListToReady(s, w, OfMutex(m), t, u);
    hide LocksOk, PlacesOk;
    WaitKeepsLocks(u, w', c, m, Do(v, s, DoWait(c, m, t)));
  }

  /** The steps that leave the mutexes and their lists alone. */
  lemma QuietStep(v: Variant, s: State, w: map<Rid, Place>, a: Step)
    requires PlacesOk(s, w) && LocksOk(s) && Enabled(s, a)
    requires a.DoNew? || a.DoResume? || a.DoYield? || a.DoPoll? || a.DoFinish? || a.DoEpilogue? || a.DoSignalAll? || a.DoDeal?
    ensures LocksOk(Do(v, s, a))
  {
    var s' := Do(v, s, a);
    if a.DoSignalAll? {
      WakeAllQuiet(s.q, a.c, a.ts);
    } else if a.DoDeal? {
      UnparkQuiet(s.q, a.released);
    }
    hide LocksOk, PlacesOk, WakeAll, Unpark;
    Quiet(s, s');
  }

  /** A step keeps the mutexes right if and only if it is not a bad retry. */
  lemma StepKeepsLocksExactly(v: Variant, s: State, w: map<Rid, Place>, a: Step)
    requires Safe(s, w) && LocksOk(s) && Enabled(s, a) && Disciplined(s, a)
    ensures LocksOk(Do(v, s, a)) <==> !BadRetry(s, a)
  {
    if !a.DoRetry? {
      assert !BadRetry(s, a);
    }
    match a
    case DoRetry =>
      RetryExactly(v, s, w);
    case DoLock(m) =>
      LockKeepsLocks(v, s, w, m);
    case DoUnlock(m, t) =>
      UnlockKeepsLocks(s, w, m, t);
    case DoWait(c, m, t) =>
      WaitKeeps(v, s, w, c, m, t);
    case DoDispatch =>
      assert Holds(s, s.q.ready[0].self, ReadyAs(s.q.ready[0].tid));
      DispatchKeepsLocks(s);
    case _ =>
      hide Do;
      QuietStep(v, s, w, a);
  }

  // ---- the repaired lock() ---------------------------------------------------------------------------

  predicate StartsFromZero(s: State) {
    forall r :: r in s.k.retry ==> s.k.retry[r].expected == 0
  }

  lemma ResetStartsFromZero(s: State, a: Step)
    requires StartsFromZero(s) && Enabled(s, a)
    ensures StartsFromZero(Do(Reset, s, a)) && !BadRetry(s, a)
  {
  }

  /** The callers' side of a run: Resume for unstarted routines, unlock by the holder. */
  ghost predicate WellUsed(states: seq<State>, steps: seq<Step>)
    requires |states| == |steps| + 1
  {
    forall k :: 0 <= k < |steps| ==> ResumesUnstarted(states[k], steps[k]) && Disciplined(states[k], steps[k])
  }

  /** Only the routines R call lock(). */
  predicate LockedBy(states: seq<State>, steps: seq<Step>, R: set<Rid>)
    requires |states| == |steps| + 1
  {
    forall k :: 0 <= k < |steps| && steps[k].DoLock? ==> states[k].d.occupy in R
  }

  /** Either way of retrying: a run in which no bad retry happens keeps the mutexes right. */
  lemma {:induction false} LockRun(v: Variant, states: seq<State>, steps: seq<Step>)
    requires IsRun(v, states, steps) && WellUsed(states, steps)
    requires v == Reset || forall k :: 0 <= k < |steps| ==> !BadRetry(states[k], steps[k])
    ensures LocksOk(states[|steps|]) && (v == Reset ==> StartsFromZero(states[|steps|]))
    decreases |steps|
  {
    if steps != [] {
      var n := |steps| - 1;
      LockRun(v, states[..n + 1], steps[..n]);
      var w := RunsAreSafe(v, states[..n + 1], steps[..n]);
      assert states[..n + 1][n] == states[n];
      if v == Reset {
        ResetStartsFromZero(states[n], steps[n]);
      }
      hide LocksOk, Safe, StartsFromZero, BadRetry;
      StepKeepsLocksExactly(v, states[n], w, steps[n]);
    }
  }

  lemma RunPrefix(v: Variant, states: seq<State>, steps: seq<Step>, n: nat)
    requires IsRun(v, states, steps) && WellUsed(states, steps) && n <= |steps|
    ensures IsRun(v, states[..n + 1], steps[..n]) && WellUsed(states[..n + 1], steps[..n]) && states[..n + 1][n] == states[n]
  {
    hide Enabled, Do, ResumesUnstarted, Disciplined;
  }

  lemma RunStep(v: Variant, states: seq<State>, steps: seq<Step>, k: nat)
    requires IsRun(v, states, steps) && WellUsed(states, steps) && k < |steps|
    ensures |states| == |steps| + 1 && Enabled(states[k], steps[k]) && states[k + 1] == Do(v, states[k], steps[k])
    ensures Disciplined(states[k], steps[k])
  {
  }

  /** A run of the code keeps the mutexes right in all its states if and only if it has no bad retry. */
  lemma RunIsRightIffNoBadRetry(v: Variant, states: seq<State>, steps: seq<Step>)
    requires IsRun(v, states, steps) && WellUsed(states, steps)
    ensures (forall k :: 0 <= k <= |steps| ==> LocksOk(states[k])) <==> (forall k :: 0 <= k < |steps| ==> !BadRetry(states[k], steps[k]))
  {
    assert |states| == |steps| + 1;
    hide *;
    if forall k :: 0 <= k <= |steps| ==> LocksOk(states[k]) {
      forall k | 0 <= k < |steps| ensures !BadRetry(states[k], steps[k]) {
        RunPrefix(v, states, steps, k);
        RunStep(v, states, steps, k);
        WellUsedResumes(v, states[..k + 1], steps[..k]);
        var w := RunsAreSafe(v, states[..k + 1], steps[..k]);
        StepKeepsLocksExactly(v, states[k], w, steps[k]);
        assert LocksOk(states[k + 1]);
      }
    }
    if forall k :: 0 <= k < |steps| ==> !BadRetry(states[k], steps[k]) {
      forall k | 0 <= k <= |steps| ensures LocksOk(states[k]) {
        RunPrefix(v, states, steps, k);
        LockRun(v, states[..k + 1], steps[..k]);
      }
    }
  }

  lemma WellUsedResumes(v: Variant, states: seq<State>, steps: seq<Step>)
    requires |states| == |steps| + 1 && WellUsed(states, steps)
    ensures forall k :: 0 <= k < |steps| ==> ResumesUnstarted(states[k], steps[k])
  {
  }

  /** With 0 expected at each attempt, every run keeps at most one holder and strands nobody. */
  lemma RepairedLockIsRight(states: seq<State>, steps: seq<Step>)
    requires IsRun(Reset, states, steps) && WellUsed(states, steps)
    ensures LocksOk(states[|steps|])
  {
    LockRun(Reset, states, steps);
  }
}
