/** Stacks are private over whole runs, and the pools stay within their limits. */
module RuntimePools {
  import opened Sequences
  import opened RuntimeSpec
  import opened RuntimePlaces

  predicate Pooled(p: Pools, sid: Sid) {
    sid in p.mini || sid in p.medium || sid in p.large
  }

  predicate Owned(p: Pools, sid: Sid) {
    exists r :: r in p.stackOf && p.stackOf[r] == sid
  }

  /** No routine shares its stack; every mapped stack belongs to one routine or lies in one list. */
  ghost predicate StacksOk(p: Pools) {
    && (forall r, x :: r in p.stackOf && x in p.stackOf && p.stackOf[r] == p.stackOf[x] ==> r == x)
    && (forall sid :: sid in p.size <==> Owned(p, sid) || Pooled(p, sid))
    && (forall sid :: !(Owned(p, sid) && Pooled(p, sid)))
    && NoRepeat(p.mini) && NoRepeat(p.medium) && p.large == []
    && (forall sid :: !(sid in p.mini && sid in p.medium))
  }

  predicate IsSize(bytes: nat) {
    bytes == MINI_BYTES || bytes == MEDIUM_BYTES || bytes == LARGE_BYTES
  }

  /** The lists hold stacks of at least their level; a large stack is filed with the mini ones. */
  ghost predicate SizesOk(p: Pools) {
    && (forall sid :: sid in p.size ==> IsSize(p.size[sid]))
    && (forall sid :: sid in p.medium && sid in p.size ==> p.size[sid] == MEDIUM_BYTES)
    && (forall sid :: sid in p.mini && sid in p.size ==> p.size[sid] != MEDIUM_BYTES)
  }

  /** The counter is the number of pooled stacks, and covers the pooled routines. */
  predicate CountsOk(p: Pools) {
    p.nums == |p.mini| + |p.medium| + |p.large| && |p.routines| <= p.nums <= MAX_KEEP
  }

  /** The routines that have a stack: the live ones but main, the dispatcher, and one that is about to be deleted. */
  function Owners(s: State): set<Rid> {
    s.q.live - {s.d.main} + {s.d.dispatcher} + if s.d.needDelete then {s.d.pending} else {}
  }

  ghost predicate PoolsFit(p: Pools, owners: set<Rid>) {
    && StacksOk(p) && SizesOk(p) && CountsOk(p)
    && p.stackOf.Keys == owners
    && NoRepeat(p.routines) && forall r :: r in p.routines ==> r !in owners
  }

  ghost predicate PoolsOk(s: State) {
    && PoolsFit(s.p, Owners(s))
    && s.d.main !in s.p.routines
    && (s.d.needDelete ==> s.d.pending !in s.q.live && s.d.pending != s.d.dispatcher && s.d.pending != s.d.main)
  }

  lemma TailOf<T>(s: seq<T>)
    requires s != [] && NoRepeat(s)
    ensures NoRepeat(s[1..]) && s[0] !in s[1..] && forall x :: x in s <==> x == s[0] || x in s[1..]
  {
    assert s == [s[0]] + s[1..];
  }

  lemma Longer<T>(s: seq<T>, x: T)
    requires NoRepeat(s) && x !in s
    ensures NoRepeat(s + [x])
  {
  }

  /** The pooled stacks after New: all but the one that it took, if it took one. */
  lemma NewPooled(p: Pools, r: Rid, level: StackLevel, sid: Sid)
    requires StacksOk(p) && sid !in p.size
    ensures var n, y := NewRoutine(p, r, level, sid), NewSid(p, level, sid);
            && !Owned(p, y) && (forall z :: Pooled(n, z) <==> Pooled(p, z) && z != y)
            && n.size.Keys == p.size.Keys + {y} && n.large == []
            && NoRepeat(n.mini) && NoRepeat(n.medium) && (forall z :: !(z in n.mini && z in n.medium))
  {
    if Kept(p, level) != [] { TailOf(Kept(p, level)); }
    assert !Owned(p, sid) && !Pooled(p, sid);
    hide Owned, NoRepeat;
  }

  /** The stacks with an owner after New: one more. */
  lemma NewOwned(p: Pools, x: Rid, y: Sid, n: Pools)
    requires x !in p.stackOf && n.stackOf == p.stackOf[x := y]
    ensures forall z :: Owned(n, z) <==> Owned(p, z) || z == y
  {
    assert x in n.stackOf && n.stackOf[x] == y;
    forall z | Owned(p, z) ensures Owned(n, z) {
      var o :| o in p.stackOf && p.stackOf[o] == z;
      assert o in n.stackOf && n.stackOf[o] == z;
    }
  }

  lemma NewStacks(p: Pools, r: Rid, level: StackLevel, sid: Sid)
    requires StacksOk(p) && NewRid(p, r) !in p.stackOf && sid !in p.size
    ensures StacksOk(NewRoutine(p, r, level, sid))
  {
    var n, x, y := NewRoutine(p, r, level, sid), NewRid(p, r), NewSid(p, level, sid);
    assert n.stackOf == p.stackOf[x := y];
    NewPooled(p, r, level, sid);
    NewOwned(p, x, y, n);
    NewStacksOk(p, x, y, n);
  }

  lemma NewStacksOk(p: Pools, x: Rid, y: Sid, n: Pools)
    requires StacksOk(p) && x !in p.stackOf && n.stackOf == p.stackOf[x := y] && !Owned(p, y)
    requires forall z :: Owned(n, z) <==> Owned(p, z) || z == y
    requires forall z :: Pooled(n, z) <==> Pooled(p, z) && z != y
    requires n.size.Keys == p.size.Keys + {y} && n.large == [] && NoRepeat(n.mini) && NoRepeat(n.medium)
    requires forall z :: !(z in n.mini && z in n.medium)
    ensures StacksOk(n)
  {
    forall r | r in p.stackOf ensures p.stackOf[r] != y {
      assert Owned(p, p.stackOf[r]);
    }
    hide NoRepeat, Pooled, Owned;
  }

  lemma NewSizes(p: Pools, r: Rid, level: StackLevel, sid: Sid)
    requires StacksOk(p) && SizesOk(p) && CountsOk(p) && sid !in p.size
    ensures var n := NewRoutine(p, r, level, sid);
            SizesOk(n) && CountsOk(n) && NewSid(p, level, sid) in n.size && n.size[NewSid(p, level, sid)] >= Bytes(level)
  {
    if Kept(p, level) != [] { TailOf(Kept(p, level)); }
    assert forall z :: Pooled(p, z) ==> z in p.size && z != sid;
    hide Owned, NoRepeat;
  }

  lemma NewRoutines(p: Pools, owners: set<Rid>, r: Rid, level: StackLevel, sid: Sid)
    requires p.stackOf.Keys == owners && NoRepeat(p.routines) && forall x :: x in p.routines ==> x !in owners
    requires r !in owners && r !in p.routines
    ensures var n, x := NewRoutine(p, r, level, sid), NewRid(p, r);
            && x !in owners && n.stackOf.Keys == owners + {x}
            && NoRepeat(n.routines) && forall y :: y in n.routines ==> y !in owners + {x}
  {
    if p.routines != [] { TailOf(p.routines); }
    hide NoRepeat;
  }

  /** New gives the routine a stack that no other has, of at least the size asked for. */
  lemma NewKeeps(p: Pools, owners: set<Rid>, r: Rid, level: StackLevel, sid: Sid)
    requires PoolsFit(p, owners) && r !in owners && r !in p.routines && sid !in p.size
    ensures var n := NewRoutine(p, r, level, sid);
            && NewRid(p, r) !in owners
            && PoolsFit(n, owners + {NewRid(p, r)})
            && NewSid(p, level, sid) in n.size && n.size[NewSid(p, level, sid)] >= Bytes(level)
  {
    NewRoutines(p, owners, r, level, sid);
    hide StacksOk, SizesOk, CountsOk, NoRepeat, NewRoutine, NewRid, NewSid, Kept, PopStack;
    NewStacks(p, r, level, sid);
    NewSizes(p, r, level, sid);
  }

  /** A finished routine and its stack go to the pools. */
  lemma RecycleKeeps(p: Pools, owners: set<Rid>, r: Rid)
    requires PoolsFit(p, owners) && r in owners && p.nums < MAX_KEEP
    ensures PoolsFit(Recycle(p, r), owners - {r})
  {
    var n, y := Recycle(p, r), p.stackOf[r];
    assert Owned(p, y) && IsSize(p.size[y]);
    Longer(p.routines, r);
    Longer(p.mini, y);
    Longer(p.medium, y);
    forall z ensures Owned(n, z) <==> Owned(p, z) && z != y {
      if Owned(p, z) && z != y {
        var o :| o in p.stackOf && p.stackOf[o] == z;
        assert o in n.stackOf && n.stackOf[o] == z;
      }
    }
    forall z ensures Pooled(n, z) <==> Pooled(p, z) || z == y {}
  }

  /** A deleted routine takes its stack with it. */
  lemma DeleteKeeps(p: Pools, owners: set<Rid>, r: Rid)
    requires PoolsFit(p, owners) && r in owners
    ensures PoolsFit(Delete(p, r), owners - {r})
  {
    var n, y := Delete(p, r), p.stackOf[r];
    assert Owned(p, y);
    forall z ensures Owned(n, z) <==> Owned(p, z) && z != y {
      if Owned(p, z) && z != y {
        var o :| o in p.stackOf && p.stackOf[o] == z;
        assert o in n.stackOf && n.stackOf[o] == z;
      }
    }
    forall z ensures Pooled(n, z) <==> Pooled(p, z) {}
  }

  // ---- whole steps and runs ----------------------------------------------------------------------

  ghost predicate Safe(s: State, w: map<Rid, Place>) {
    PlacesOk(s, w) && PoolsOk(s)
  }

  /** Resume is for routines that were never started. */
  predicate ResumesUnstarted(s: State, a: Step) {
    a.DoResume? ==> a.x in s.q.unstarted
  }

  lemma PoolsUnchanged(s: State, s': State)
    requires PoolsOk(s) && s'.p == s.p && s'.q.live == s.q.live
    requires s'.d.main == s.d.main && s'.d.dispatcher == s.d.dispatcher && !s.d.needDelete && !s'.d.needDelete
    ensures PoolsOk(s')
  {
    hide PoolsFit;
  }

  lemma WakeAllLive(q: Queues, l: ListId, ts: seq<Tid>)
    requires |ts| == |WaitsOn(q, l)|
    ensures WakeAll(q, l, ts).live == q.live && WakeAll(q, l, ts).parked == q.parked
    decreases |ts|
  {
  }

  lemma UnparkLive(q: Queues, released: seq<Item>)
    ensures Unpark(q, released).live == q.live
  {
  }

  lemma NewKeepsPools(s: State, w: map<Rid, Place>, r: Rid, level: StackLevel, sid: Sid, v: Variant)
    requires Safe(s, w) && Enabled(s, DoNew(r, level, sid))
    ensures PoolsOk(Do(v, s, DoNew(r, level, sid))) && Careful(s, DoNew(r, level, sid))
  {
    NewKeeps(s.p, Owners(s), r, level, sid);
    var s' := Do(v, s, DoNew(r, level, sid));
    assert Owners(s') == Owners(s) + {NewRid(s.p, r)};
    if s.p.routines != [] {
      assert s.p.routines[0] in s.p.routines;
    }
    assert forall x :: x in s'.p.routines ==> x in s.p.routines;
    hide PlacesOk, PoolsFit;
  }

  lemma FinishKeepsPools(s: State, w: map<Rid, Place>, v: Variant)
    requires Safe(s, w) && Enabled(s, DoFinish)
    ensures PoolsOk(Do(v, s, DoFinish))
  {
    var o := s.d.occupy;
    var s' := Do(v, s, DoFinish);
    assert Holds(s, o, Running);
    if o == s.d.main || s.p.nums >= MAX_KEEP {
      assert Owners(s') == Owners(s);
    } else {
      RecycleKeeps(s.p, Owners(s), o);
      assert Owners(s') == Owners(s) - {o};
      assert forall x :: x in s'.p.routines ==> x in s.p.routines || x == o;
    }
    hide Ledger, ItemsOk, ListsOk, PoolsFit;
  }

  lemma EpilogueKeepsPools(s: State, w: map<Rid, Place>, v: Variant)
    requires Safe(s, w) && Enabled(s, DoEpilogue)
    ensures PoolsOk(Do(v, s, DoEpilogue))
  {
    var s' := Do(v, s, DoEpilogue);
    if s.d.needDelete {
      DeleteKeeps(s.p, Owners(s), s.d.pending);
      assert Owners(s') == Owners(s) - {s.d.pending};
    } else {
      assert Owners(s') == Owners(s);
    }
    hide PlacesOk, PoolsFit;
  }

  /** Every step keeps each routine in one place and each stack with one owner. */
  lemma StepKeepsSafe(v: Variant, s: State, w: map<Rid, Place>, a: Step) returns (w': map<Rid, Place>)
    requires Safe(s, w) && Enabled(s, a) && ResumesUnstarted(s, a)
    ensures Safe(Do(v, s, a), w')
  {
    assert UserRuns(s) || s.d.task.None? ==> !s.d.needDelete;
    if a.DoNew? {
      NewKeepsPools(s, w, a.r, a.level, a.sid, v);
    }
    assert Careful(s, a);
    w' := StepKeepsPlaces(v, s, w, a);
    hide PlacesOk;
    match a
    case DoNew(_, _, _) =>
    case DoFinish =>
      FinishKeepsPools(s, w, v);
    case DoEpilogue =>
      EpilogueKeepsPools(s, w, v);
    case DoSignalAll(c, ts) =>
      WakeAllLive(s.q, OfCond(c), ts);
      PoolsUnchanged(s, Do(v, s, a));
    case DoDeal(released) =>
      UnparkLive(s.q, released);
      PoolsUnchanged(s, Do(v, s, a));
    case _ =>
      PoolsUnchanged(s, Do(v, s, a));
  }

  /** The state in which the dispatcher starts. */
  lemma BootIsSafe(main: Rid, dispatcher: Rid, sid: Sid, t: Tid)
    requires main != dispatcher
    ensures Safe(SwapContext(Boot(main, dispatcher, sid), t), map[main := ReadyAs(t)])
  {
    var s := SwapContext(Boot(main, dispatcher, sid), t);
    assert s.p.stackOf == map[dispatcher := sid] && s.d.progress == {dispatcher};
    assert dispatcher in s.p.stackOf && Owned(s.p, sid);
    assert IsSize(LARGE_BYTES);
    forall r, p ensures Holds(s, r, p) <==> r == main && p == ReadyAs(t) {}
    assert ItemsOk(s) by { forall i ensures Queued(s.q, i) <==> i == Item(t, main) {} }
  }

  /**
    In every run in which only routines that were never started are resumed: each live routine is
    in exactly one place, and each mapped stack belongs to one routine or to one list.
   */
  lemma {:induction false} RunsAreSafe(v: Variant, states: seq<State>, steps: seq<Step>) returns (w: map<Rid, Place>)
    requires IsRun(v, states, steps)
    requires forall k :: 0 <= k < |steps| ==> ResumesUnstarted(states[k], steps[k])
    ensures Safe(states[|steps|], w)
    decreases |steps|
  {
    if steps == [] {
      var main, dispatcher, sid, t :| main != dispatcher && states[0] == SwapContext(Boot(main, dispatcher, sid), t);
      BootIsSafe(main, dispatcher, sid, t);
      w := map[main := ReadyAs(t)];
    } else {
      var n := |steps| - 1;
      var before := RunsAreSafe(v, states[..n + 1], steps[..n]);
      w := StepKeepsSafe(v, states[n], before, steps[n]);
    }
  }
}
