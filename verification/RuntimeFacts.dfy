/** What the invariant of the runtime says about a single state, and where Resume breaks it. */
module RuntimeFacts {
  import opened RuntimeSpec
  import opened RuntimePlaces
  import opened RuntimePools

  /** A live routine is held by one place, and a routine that is not live by none. */
  lemma OnePlaceEach(s: State, w: map<Rid, Place>, r: Rid)
    requires Safe(s, w)
    ensures r in s.q.live ==> exists p :: Holds(s, r, p) && forall o :: Holds(s, r, o) ==> o == p
    ensures r !in s.q.live ==> forall p :: !Holds(s, r, p)
  {
    if r in s.q.live {
      assert Holds(s, r, w[r]);
    }
  }

  /**
    When the dispatcher has control again, pendingRoutine is the routine that it dispatched; what
    it deletes then is a routine that has ended, that no place holds, and that is in no pool.
   */
  lemma DeletesTheFinished(s: State, w: map<Rid, Place>, v: Variant)
    requires Safe(s, w) && Enabled(s, DoEpilogue)
    ensures s.d.pending == s.d.task.value.self
    ensures s.d.needDelete ==>
              && s.d.pending !in s.q.live && s.d.pending !in s.p.routines && s.d.pending != s.d.main
              && (forall p :: !Holds(s, s.d.pending, p))
              && s.d.pending in s.p.stackOf && !Pooled(s.p, s.p.stackOf[s.d.pending])
              && s.p.stackOf[s.d.pending] !in Do(v, s, DoEpilogue).p.size
    ensures forall i :: Queued(s.q, i) ==> i.tid in Do(v, s, DoEpilogue).q.items
  {
    if s.d.needDelete {
      OnePlaceEach(s, w, s.d.pending);
      assert s.d.pending in Owners(s);
      assert Owned(s.p, s.p.stackOf[s.d.pending]);
    }
  }

  /** A step between two states runs one routine at a time, and only a live one. */
  lemma DispatchesALiveRoutine(s: State, w: map<Rid, Place>, v: Variant)
    requires Safe(s, w) && Enabled(s, DoDispatch)
    ensures var d := Do(v, s, DoDispatch).d;
            && d.occupy == s.q.ready[0].self && d.occupy in s.q.live && d.pending == s.d.dispatcher
            && (d.occupy != s.d.main ==> d.occupy in s.p.stackOf && !Pooled(s.p, s.p.stackOf[d.occupy]))
            && (d.occupy == s.d.main || forall r :: r in s.p.stackOf && r != d.occupy ==> s.p.stackOf[r] != s.p.stackOf[d.occupy])
  {
    var r := s.q.ready[0].self;
    assert Holds(s, r, ReadyAs(s.q.ready[0].tid));
    if r != s.d.main {
      assert r in Owners(s);
      assert Owned(s.p, s.p.stackOf[r]);
    }
  }

  /** A routine that Resume queues a second time, or after its end, has not the one place that it should have. */
  lemma ResumeTwice(v: Variant, s: State, w: map<Rid, Place>, a: Step, w': map<Rid, Place>)
    requires Safe(s, w) && Enabled(s, a) && a.DoResume? && a.x !in s.q.unstarted
    ensures !Ledger(Do(v, s, a), w')
  {
    var s' := Do(v, s, a);
    var x := a.x;
    assert [a.t1, a.t2][0] == a.t1 && [a.t1, a.t2][1] == a.t2;
    assert s'.q.ready == s.q.ready + [Item(a.t1, x)] + [Item(a.t2, s.d.occupy)];
    assert Item(a.t1, x) in s'.q.ready && Item(a.t2, s.d.occupy) in s'.q.ready;
    assert Holds(s', x, ReadyAs(a.t1));
    if x in s.q.live {
      var p := w[x];
      assert Holds(s, x, p);
      if p == Running {
        assert Holds(s', x, ReadyAs(a.t2));
      } else {
        assert Holds(s', x, p);
        if p.ReadyAs? {
          assert Queued(s.q, Item(p.t, x));
        }
      }
    }
  }

  /** Resume keeps the invariant for routines that were never started, and for no others, be they live, finished or pooled. */
  lemma ResumeIsForUnstarted(v: Variant, s: State, w: map<Rid, Place>, a: Step)
    requires Safe(s, w) && Enabled(s, a) && a.DoResume?
    ensures (exists w' :: Safe(Do(v, s, a), w')) <==> a.x in s.q.unstarted
  {
    if a.x in s.q.unstarted {
      var w' := StepKeepsSafe(v, s, w, a);
    } else {
      forall w' ensures !Ledger(Do(v, s, a), w') {
        ResumeTwice(v, s, w, a, w');
      }
    }
  }

  /** What the methods of the scheduler require of its state always holds: AddTask never throws, End finds a stack. */
  lemma ContractsAreMet(s: State, w: map<Rid, Place>)
    requires Safe(s, w)
    ensures s.d.main !in s.d.progress && s.p.nums >= 0
    ensures forall r :: r in s.q.live ==> r !in s.d.progress
    ensures forall l, r :: r in WaitsOn(s.q, l) ==> r !in s.d.progress
    ensures forall i :: Queued(s.q, i) ==> i.self !in s.d.progress
    ensures UserRuns(s) ==> s.d.occupy in s.q.live
    ensures UserRuns(s) && s.d.occupy != s.d.main ==> s.d.occupy in s.p.stackOf && s.p.stackOf[s.d.occupy] in s.p.size
    ensures s.d.needDelete ==> s.d.pending in s.p.stackOf
  {
    forall l, r | r in WaitsOn(s.q, l) ensures r in s.q.live {
      assert Holds(s, r, WaitsIn(l));
    }
    forall i | Queued(s.q, i) ensures i.self in s.q.live {
      assert Holds(s, i.self, ReadyAs(i.tid)) || Holds(s, i.self, ParkedAs(i.tid));
    }
    if UserRuns(s) {
      assert Holds(s, s.d.occupy, Running);
      if s.d.occupy != s.d.main {
        assert s.d.occupy in Owners(s) && Owned(s.p, s.p.stackOf[s.d.occupy]);
      }
    }
    if s.d.needDelete {
      assert s.d.pending in Owners(s);
    }
  }
}
