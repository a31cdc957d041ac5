/** bMutex: at most one holder, and no waiter stranded; where the code keeps this and where it does not. */
module RuntimeMutex {
  import opened RuntimeSpec
  import opened RuntimePlaces

  predicate InReady(q: Queues, r: Rid) {
    exists k :: 0 <= k < |q.ready| && q.ready[k].self == r
  }

  /** A routine that has been woken, or is running, to try the mutex again. */
  predicate Contender(s: State, m: nat, r: Rid) {
    && r in s.k.retry && s.k.retry[r].m == m
    && (InReady(s.q, r) || (UserRuns(s) && s.d.occupy == r))
  }

  ghost predicate OneHolder(k: Locks, m: nat) {
    && (Count(k, m) == 0 || Count(k, m) == 1)
    && (forall r :: (r, m) in k.held ==> Count(k, m) == 1)
    && (Count(k, m) == 1 ==> exists r :: (r, m) in k.held)
    && (forall r, x :: (r, m) in k.held && (x, m) in k.held ==> r == x)
  }

  /** A free mutex that is waited for has a contender. */
  ghost predicate NoneStranded(s: State, m: nat) {
    Count(s.k, m) == 0 && WaitsOn(s.q, OfMutex(m)) != [] ==> exists r :: Contender(s, m, r)
  }

  /** Those who wait for a mutex are inside lock(). */
  ghost predicate WaitersRetry(s: State) {
    && (forall m, r :: r in WaitsOn(s.q, OfMutex(m)) ==> r in s.k.retry && s.k.retry[r].m == m)
    && (forall r :: r in s.k.retry ==> s.k.retry[r].expected == 0 || s.k.retry[r].expected == 1)
  }

  ghost predicate LocksOk(s: State) {
    (forall m :: OneHolder(s.k, m)) && (forall m :: NoneStranded(s, m)) && WaitersRetry(s)
  }

  /** A mutex is unlocked by the routine that holds it. */
  predicate Disciplined(s: State, a: Step) {
    match a
    case DoUnlock(m, _) => (s.d.occupy, m) in s.k.held
    case DoWait(_, m, _) => (s.d.occupy, m) in s.k.held
    case _ => true
  }

  // ---- one step ----------------------------------------------------------------------------------

  ghost predicate SameMutexLists(q: Queues, q': Queues) {
    forall m :: WaitsOn(q', OfMutex(m)) == WaitsOn(q, OfMutex(m))
  }

  lemma StillReady(q: Queues, q': Queues, r: Rid)
    requires q.ready <= q'.ready && InReady(q, r)
    ensures InReady(q', r)
  {
    var k :| 0 <= k < |q.ready| && q.ready[k].self == r;
    assert q'.ready[k].self == r;
  }

  /** A step outside lock() that adds to the ready queue and leaves the mutexes and their lists alone. */
  lemma Quiet(s: State, s': State)
    requires LocksOk(s) && s'.k == s.k && SameMutexLists(s.q, s'.q) && s.q.ready <= s'.q.ready
    requires UserRuns(s) ==> s.d.occupy !in s.k.retry
    ensures LocksOk(s')
  {
    forall m ensures NoneStranded(s', m) {
      assert NoneStranded(s, m);
      if Count(s'.k, m) == 0 && WaitsOn(s'.q, OfMutex(m)) != [] {
        var r :| Contender(s, m, r);
        StillReady(s.q, s'.q, r);
        assert Contender(s', m, r);
      }
    }
  }

  lemma DispatchKeepsLocks(s: State)
    requires LocksOk(s) && !UserRuns(s) && s.q.ready != []
    requires s.q.ready[0].self != s.d.dispatcher
    ensures LocksOk(Dispatched(s))
  {
    var s' := Dispatched(s);
    forall m ensures NoneStranded(s', m) {
      assert NoneStranded(s, m);
      if Count(s'.k, m) == 0 && WaitsOn(s'.q, OfMutex(m)) != [] {
        var r :| Contender(s, m, r);
        var k :| 0 <= k < |s.q.ready| && s.q.ready[k].self == r;
        assert k > 0 ==> s'.q.ready[k - 1].self == r;
        assert Contender(s', m, r);
      }
    }
    assert WaitersRetry(s') by { forall m ensures WaitsOn(s'.q, OfMutex(m)) == WaitsOn(s.q, OfMutex(m)) {} }
  }

  lemma {:induction false} WakeAllQuiet(q: Queues, c: nat, ts: seq<Tid>)
    requires |ts| == |WaitsOn(q, OfCond(c))|
    ensures SameMutexLists(q, WakeAll(q, OfCond(c), ts)) && q.ready <= WakeAll(q, OfCond(c), ts).ready
    decreases |ts|
  {
    if ts != [] {
      WakeAllQuiet(WakeFirst(q, OfCond(c), ts[0]), c, ts[1..]);
    }
  }

  lemma {:induction false} UnparkQuiet(q: Queues, released: seq<Item>)
    ensures Unpark(q, released).waits == q.waits && q.ready <= Unpark(q, released).ready
  {
    if released != [] {
      UnparkQuiet(q, released[..|released| - 1]);
    }
  }

  /** unlock by the holder: the mutex is free, and the first waiter becomes a contender. */
  lemma UnlockKeepsLocks(s: State, w: map<Rid, Place>, m: nat, t: Tid)
    requires PlacesOk(s, w) && LocksOk(s) && Free(s) && (s.d.occupy, m) in s.k.held
    ensures LocksOk(Unlock(s, m, t))
  {
    var s' := Unlock(s, m, t);
    assert OneHolder(s.k, m);
    forall n ensures OneHolder(s'.k, n) {
      assert OneHolder(s.k, n);
      if n != m && Count(s.k, n) == 1 {
        var r :| (r, n) in s.k.held;
        assert (r, n) in s'.k.held;
      }
    }
    forall n ensures NoneStranded(s', n) {
      assert NoneStranded(s, n);
      if Count(s'.k, n) == 0 && WaitsOn(s'.q, OfMutex(n)) != [] {
        if n == m {
          var r := WaitsOn(s.q, OfMutex(m))[0];
          assert s'.q.ready[|s.q.ready|].self == r && r in WaitsOn(s.q, OfMutex(m));
          assert Contender(s', m, r);
        } else {
          var r :| Contender(s, n, r);
          StillReady(s.q, s'.q, r);
          assert Contender(s', n, r);
        }
      }
    }
    forall n, r ensures r in WaitsOn(s'.q, OfMutex(n)) ==> r in WaitsOn(s.q, OfMutex(n)) {}
  }

  /** A routine that waits for a condition has its lock() still to come. */
  lemma WaitKeepsLocks(s: State, w: map<Rid, Place>, c: nat, m: nat, s': State)
    requires PlacesOk(s, w) && LocksOk(s) && Free(s)
    requires s'.k == s.k.(retry := s.k.retry[s.d.occupy := Retry(m, 0)])
    requires s'.q == AddWaiter(s.q, OfCond(c), s.d.occupy) && s'.d == Switch(s.d)
    ensures LocksOk(s')
  {
    var o := s.d.occupy;
    assert Holds(s, o, Running);
    forall n ensures OneHolder(s'.k, n) {
      assert OneHolder(s.k, n);
    }
    forall n ensures NoneStranded(s', n) {
      assert NoneStranded(s, n);
      if Count(s'.k, n) == 0 && WaitsOn(s'.q, OfMutex(n)) != [] {
        var r :| Contender(s, n, r);
        StillReady(s.q, s'.q, r);
        assert Contender(s', n, r);
      }
    }
    forall n, r | r in WaitsOn(s'.q, OfMutex(n))
      ensures r in s'.k.retry && s'.k.retry[r].m == n
    {
      assert Holds(s, r, WaitsIn(OfMutex(n)));
    }
  }

  /** An attempt that succeeds on a free mutex. */
  lemma SuccessKeepsLocks(v: Variant, s: State, w: map<Rid, Place>, m: nat)
    requires PlacesOk(s, w) && LocksOk(s) && UserRuns(s) && Count(s.k, m) == 0
    requires s.d.occupy in s.k.retry ==> s.k.retry[s.d.occupy].m == m
    ensures LocksOk(Attempt(v, s, m, 0))
  {
    var s', o := Attempt(v, s, m, 0), s.d.occupy;
    assert Holds(s, o, Running);
    forall n ensures OneHolder(s'.k, n) {
      assert OneHolder(s.k, n);
      assert (o, m) in s'.k.held;
      if n != m && Count(s.k, n) == 1 {
        var r :| (r, n) in s.k.held;
        assert (r, n) in s'.k.held;
      }
    }
    forall n ensures NoneStranded(s', n) {
      assert NoneStranded(s, n);
      if Count(s'.k, n) == 0 && WaitsOn(s'.q, OfMutex(n)) != [] {
        var r :| Contender(s, n, r);
        assert Contender(s', n, r);
      }
    }
    forall n, r | r in WaitsOn(s'.q, OfMutex(n))
      ensures r in s'.k.retry && s'.k.retry[r].m == n
    {
      assert Holds(s, r, WaitsIn(OfMutex(n)));
    }
  }

  /** Another routine that has been woken to try the mutex. */
  ghost predicate OtherContender(s: State, m: nat) {
    exists r :: r != s.d.occupy && Contender(s, m, r)
  }

  /** An attempt that fails keeps everything but, for a free mutex, that somebody will try it again. */
  lemma FailureKeepsLocks(v: Variant, s: State, w: map<Rid, Place>, m: nat, expected: int)
    requires PlacesOk(s, w) && LocksOk(s) && UserRuns(s) && Count(s.k, m) != expected
    requires s.d.occupy in s.k.retry ==> s.k.retry[s.d.occupy].m == m
    ensures LocksOk(Attempt(v, s, m, expected)) <==> Count(s.k, m) == 1 || OtherContender(s, m)
  {
    var s', o := Attempt(v, s, m, expected), s.d.occupy;
    assert Holds(s, o, Running);
    assert OneHolder(s.k, m);
    forall n ensures OneHolder(s'.k, n) {
      assert OneHolder(s.k, n);
    }
    assert s'.q.ready == s.q.ready && s'.d.occupy == s.d.dispatcher;
    assert !InReady(s.q, o) by {
      forall k | 0 <= k < |s.q.ready| ensures s.q.ready[k].self != o {
        assert s.q.ready[k] in s.q.ready;
        assert !Holds(s, o, ReadyAs(s.q.ready[k].tid));
      }
    }
    forall n, r ensures Contender(s', n, r) <==> Contender(s, n, r) && r != o {
      assert InReady(s'.q, r) == InReady(s.q, r);
    }
    forall n | n != m ensures NoneStranded(s', n) {
      assert NoneStranded(s, n);
    }
    assert NoneStranded(s', m) <==> Count(s.k, m) == 1 || OtherContender(s, m);
    forall n, r | r in WaitsOn(s'.q, OfMutex(n))
      ensures r in s'.k.retry && s'.k.retry[r].m == n
    {
      assert r == o || r in WaitsOn(s.q, OfMutex(n));
      assert r in WaitsOn(s.q, OfMutex(n)) ==> Holds(s, r, WaitsIn(OfMutex(n)));
    }
  }
}
