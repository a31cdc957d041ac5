/** Each live routine is in exactly one place, and no queued TaskItem has been freed. */
module RuntimePlaces {
  import opened Sequences
  import opened RuntimeSpec

  /** The places a routine can be in; ReadyAs and ParkedAs name the TaskItem. */
  datatype Place = Running | Unstarted | ReadyAs(t: Tid) | ParkedAs(t: Tid) | WaitsIn(l: ListId)

  predicate Holds(s: State, r: Rid, p: Place) {
    match p
    case Running => s.d.occupy == r && r != s.d.dispatcher
    case Unstarted => r in s.q.unstarted
    case ReadyAs(t) => Item(t, r) in s.q.ready
    case ParkedAs(t) => Item(t, r) in s.q.parked
    case WaitsIn(l) => r in WaitsOn(s.q, l)
  }

  /** The place that the ledger gives is the only one that holds the routine. */
  ghost predicate Ledger(s: State, w: map<Rid, Place>) {
    && w.Keys == s.q.live && s.d.dispatcher !in s.q.live
    && forall r, p :: Holds(s, r, p) <==> r in w && w[r] == p
  }

  predicate Queued(q: Queues, i: Item) {
    i in q.ready || i in q.parked
  }

  /** The TaskItems of the queues are allocated, differ in their addresses, and none is being dispatched. */
  ghost predicate ItemsOk(s: State) {
    && NoRepeat(s.q.ready)
    && (forall i :: Queued(s.q, i) ==> i.tid in s.q.items && (s.d.task.Some? ==> s.d.task.value.tid != i.tid))
    && (forall i, j :: Queued(s.q, i) && Queued(s.q, j) && i.tid == j.tid ==> i == j)
    && (s.d.task.Some? ==> s.d.task.value.tid in s.q.items)
  }

  predicate ListsOk(waits: map<ListId, seq<Rid>>) {
    forall l :: l in waits ==> NoRepeat(waits[l])
  }

  /** Who runs, and what the scheduler's two fields hold meanwhile. */
  predicate DispatchOk(s: State) {
    && s.d.main != s.d.dispatcher && s.d.progress == {s.d.dispatcher}
    && (UserRuns(s) ==> s.d.pending == s.d.dispatcher && s.d.task.Some? && s.d.task.value.self == s.d.occupy && !s.d.needDelete)
    && (!UserRuns(s) && s.d.task.Some? ==> s.d.pending == s.d.task.value.self)
    && (!UserRuns(s) && s.d.task.None? ==> !s.d.needDelete)
  }

  ghost predicate PlacesOk(s: State, w: map<Rid, Place>) {
    Ledger(s, w) && ItemsOk(s) && ListsOk(s.q.waits) && DispatchOk(s)
  }

  // ---- moves from one place to another ----------------------------------------------------------

  /** Places are read from the scheduler and the queues alone. */
  lemma SamePlaces(s: State, w: map<Rid, Place>, s': State)
    requires PlacesOk(s, w) && s'.d == s.d && s'.q == s.q
    ensures PlacesOk(s', w)
  {
    forall r, p ensures Holds(s', r, p) <==> r in w && w[r] == p {
      assert Holds(s, r, p) <==> r in w && w[r] == p;
    }
  }

  /** A new item for a routine, at the end of the ready queue or in the wheel. */
  lemma NewItem(s: State, q: Queues, i: Item)
    requires ItemsOk(s) && i.tid !in s.q.items && q.items == s.q.items + {i.tid}
    requires (q.ready == s.q.ready + [i] && q.parked == s.q.parked) || (q.ready == s.q.ready && q.parked == s.q.parked + {i})
    ensures ItemsOk(s.(q := q))
  {
    forall j ensures Queued(q, j) <==> Queued(s.q, j) || j == i {}
    forall j, k | 0 <= j < k < |q.ready| ensures q.ready[j] != q.ready[k] {
      assert k == |s.q.ready| ==> Queued(s.q, s.q.ready[j]);
    }
  }

  /** The running routine queues itself and switches. */
  lemma RunningToReady(s: State, w: map<Rid, Place>, t: Tid, s': State)
    requires PlacesOk(s, w) && UserRuns(s) && t !in s.q.items
    requires s'.d == Switch(s.d) && s'.q == AddTask(s.q, Item(t, s.d.occupy))
    ensures Holds(s, s.d.occupy, Running) && PlacesOk(s', w[s.d.occupy := ReadyAs(t)])
  {
    var o, w' := s.d.occupy, w[s.d.occupy := ReadyAs(t)];
    assert Holds(s, o, Running);
    NewItem(s, s'.q, Item(t, o));
    hide NoRepeat;
    forall r, p ensures Holds(s', r, p) <==> r in w' && w'[r] == p {
      assert Holds(s, r, p) <==> r in w && w[r] == p;
      assert forall u :: Item(u, r) in s.q.ready ==> u in s.q.items by {
        forall u | Item(u, r) in s.q.ready ensures u in s.q.items { assert Queued(s.q, Item(u, r)); }
      }
    }
  }

  /** The running routine parks in a poll and switches. */
  lemma RunningToParked(s: State, w: map<Rid, Place>, t: Tid, s': State)
    requires PlacesOk(s, w) && UserRuns(s) && t !in s.q.items
    requires s'.d == Switch(s.d) && s'.q == Park(s.q, Item(t, s.d.occupy))
    ensures Holds(s, s.d.occupy, Running) && PlacesOk(s', w[s.d.occupy := ParkedAs(t)])
  {
    var o, w' := s.d.occupy, w[s.d.occupy := ParkedAs(t)];
    assert Holds(s, o, Running);
    NewItem(s, s'.q, Item(t, o));
    hide NoRepeat;
    forall r, p ensures Holds(s', r, p) <==> r in w' && w'[r] == p {
      assert Holds(s, r, p) <==> r in w && w[r] == p;
      forall u | Item(u, r) in s.q.parked ensures u in s.q.items { assert Queued(s.q, Item(u, r)); }
    }
  }

  /** The running routine appends itself to a wait list and switches. */
  lemma RunningToList(s: State, w: map<Rid, Place>, l: ListId, s': State)
    requires PlacesOk(s, w) && UserRuns(s)
    requires s'.d == Switch(s.d) && s'.q == AddWaiter(s.q, l, s.d.occupy)
    ensures Holds(s, s.d.occupy, Running) && PlacesOk(s', w[s.d.occupy := WaitsIn(l)])
  {
    var o, w' := s.d.occupy, w[s.d.occupy := WaitsIn(l)];
    assert Holds(s, o, Running) && !Holds(s, o, WaitsIn(l));
    assert ItemsOk(s') by { forall i ensures Queued(s'.q, i) == Queued(s.q, i) {} }
    forall r, p ensures Holds(s', r, p) <==> r in w' && w'[r] == p {
      assert Holds(s, r, p) <==> r in w && w[r] == p;
    }
  }

  /** The first routine of a wait list moves to the ready queue. */
  lemma ListToReady(s: State, w: map<Rid, Place>, l: ListId, t: Tid, s': State) returns (w': map<Rid, Place>)
    requires PlacesOk(s, w) && t !in s.q.items
    requires s'.d == s.d && s'.q == WakeFirst(s.q, l, t)
    ensures PlacesOk(s', w')
    ensures w'.Keys == w.Keys && forall r :: r in w && (WaitsOn(s.q, l) == [] || r != WaitsOn(s.q, l)[0]) ==> w'[r] == w[r]
  {
    w' := w;
    if WaitsOn(s.q, l) != [] {
      var x := WaitsOn(s.q, l)[0];
      assert Holds(s, x, WaitsIn(l));
      w' := w[x := ReadyAs(t)];
      NewItem(s, s'.q, Item(t, x));
      var rest := WaitsOn(s.q, l)[1..];
      assert WaitsOn(s.q, l) == [x] + rest;
      assert NoRepeat(WaitsOn(s.q, l)) && NoRepeat(rest);
      assert x !in rest;
      hide NoRepeat;
      forall r, p ensures Holds(s', r, p) <==> r in w' && w'[r] == p {
        assert Holds(s, r, p) <==> r in w && w[r] == p;
        forall u | Item(u, r) in s.q.ready ensures u in s.q.items { assert Queued(s.q, Item(u, r)); }
      }
    } else {
      SamePlaces(s, w, s');
    }
  }

  /** A new routine has not been started. */
  lemma Appears(s: State, w: map<Rid, Place>, r: Rid, s': State)
    requires PlacesOk(s, w) && r !in s.q.live && r != s.d.dispatcher
    requires s'.d == s.d && s'.q == s.q.(live := s.q.live + {r}, unstarted := s.q.unstarted + {r})
    ensures PlacesOk(s', w[r := Unstarted])
  {
    var w' := w[r := Unstarted];
    forall x, p ensures Holds(s', x, p) <==> x in w' && w'[x] == p {
      assert Holds(s, x, p) <==> x in w && w[x] == p;
    }
  }

  /** A routine that was never started is queued. */
  lemma UnstartedToReady(s: State, w: map<Rid, Place>, x: Rid, t: Tid, s': State)
    requires PlacesOk(s, w) && x in s.q.unstarted && t !in s.q.items
    requires s'.d == s.d && s'.q == AddTask(s.q.(unstarted := s.q.unstarted - {x}), Item(t, x))
    ensures PlacesOk(s', w[x := ReadyAs(t)])
  {
    var w' := w[x := ReadyAs(t)];
    assert Holds(s, x, Unstarted);
    NewItem(s, s'.q, Item(t, x));
    hide NoRepeat;
    forall r, p ensures Holds(s', r, p) <==> r in w' && w'[r] == p {
      assert Holds(s, r, p) <==> r in w && w[r] == p;
      forall u | Item(u, r) in s.q.ready ensures u in s.q.items { assert Queued(s.q, Item(u, r)); }
    }
  }

  /** The running routine ends and switches. */
  lemma Ends(s: State, w: map<Rid, Place>, s': State)
    requires PlacesOk(s, w) && UserRuns(s)
    requires s'.d == Switch(s.d) || s'.d == Switch(s.d.(needDelete := true))
    requires s'.q == s.q.(live := s.q.live - {s.d.occupy})
    ensures Holds(s, s.d.occupy, Running) && PlacesOk(s', w - {s.d.occupy})
  {
    var o := s.d.occupy;
    var w' := w - {o};
    assert Holds(s, o, Running);
    assert ItemsOk(s') by { forall i ensures Queued(s'.q, i) == Queued(s.q, i) {} }
    forall r, p ensures Holds(s', r, p) <==> r in w' && w'[r] == p {
      assert Holds(s, r, p) <==> r in w && w[r] == p;
    }
  }

  /** The TaskItem of a parked poll moves to the ready queue. */
  lemma ParkedToReady(s: State, w: map<Rid, Place>, i: Item, s': State)
    requires PlacesOk(s, w) && i in s.q.parked
    requires s'.d == s.d && s'.q == AddTask(s.q.(parked := s.q.parked - {i}), i)
    ensures PlacesOk(s', w[i.self := ReadyAs(i.tid)])
  {
    var w' := w[i.self := ReadyAs(i.tid)];
    assert Holds(s, i.self, ParkedAs(i.tid)) && !Holds(s, i.self, ReadyAs(i.tid)) && Queued(s.q, i);
    assert s.q.items + {i.tid} == s.q.items;
    assert ItemsOk(s') by { forall j ensures Queued(s'.q, j) == Queued(s.q, j) {} }
    hide NoRepeat;
    forall r, p ensures Holds(s', r, p) <==> r in w' && w'[r] == p {
      assert Holds(s, r, p) <==> r in w && w[r] == p;
    }
  }

  /** The head of the ready queue runs. */
  lemma ReadyToRunning(s: State, w: map<Rid, Place>, s': State)
    requires PlacesOk(s, w) && !UserRuns(s) && s.d.task.None? && s.q.ready != []
    requires s'.d == Dispatched(s).d && s'.q == Dispatched(s).q
    ensures PlacesOk(s', w[s.q.ready[0].self := Running])
  {
    var i := s.q.ready[0];
    var w' := w[i.self := Running];
    assert Holds(s, i.self, ReadyAs(i.tid)) && !Holds(s, i.self, ParkedAs(i.tid)) && Queued(s.q, i);
    assert s.q.ready == [i] + s'.q.ready;
    assert i !in s'.q.ready;
    forall j ensures Queued(s'.q, j) ==> Queued(s.q, j) {}
    assert ItemsOk(s');
    hide NoRepeat;
    forall r, p ensures Holds(s', r, p) <==> r in w' && w'[r] == p {
      assert Holds(s, r, p) <==> r in w && w[r] == p;
    }
  }

  /** The dispatched TaskItem is freed. */
  lemma ItemFreed(s: State, w: map<Rid, Place>, s': State)
    requires PlacesOk(s, w) && !UserRuns(s) && s.d.task.Some?
    requires s'.d == s.d.(needDelete := false, task := None)
    requires s'.q == s.q.(items := s.q.items - {s.d.task.value.tid})
    ensures PlacesOk(s', w)
  {
    assert ItemsOk(s') by { forall i ensures Queued(s'.q, i) == Queued(s.q, i) {} }
    forall r, p ensures Holds(s', r, p) <==> r in w && w[r] == p {
      assert Holds(s, r, p) <==> r in w && w[r] == p;
    }
  }

  // ---- whole steps -----------------------------------------------------------------------------------

  /** signalAll empties the list, whatever its length. */
  lemma {:induction false} ListToReadyAll(s: State, w: map<Rid, Place>, l: ListId, ts: seq<Tid>, s': State) returns (w': map<Rid, Place>)
    requires PlacesOk(s, w) && |ts| == |WaitsOn(s.q, l)| && AllNew(s.q, ts)
    requires s'.d == s.d && s'.q == WakeAll(s.q, l, ts)
    ensures PlacesOk(s', w')
    decreases |ts|
  {
    if ts == [] {
      w' := w;
      SamePlaces(s, w, s');
    } else {
      var one := s.(q := WakeFirst(s.q, l, ts[0]));
      var v := ListToReady(s, w, l, ts[0], one);
      assert forall k :: 0 <= k < |ts| - 1 ==> ts[1..][k] == ts[k + 1];
      w' := ListToReadyAll(one, v, l, ts[1..], s');
    }
  }

  /** The items that Deal releases leave the wheel one after the other. */
  lemma {:induction false} ParkedToReadyAll(s: State, w: map<Rid, Place>, released: seq<Item>, s': State) returns (w': map<Rid, Place>)
    requires PlacesOk(s, w) && NoRepeat(released) && forall k :: 0 <= k < |released| ==> released[k] in s.q.parked
    requires s'.d == s.d && s'.q == Unpark(s.q, released)
    ensures PlacesOk(s', w')
    ensures forall i :: i in s'.q.parked <==> i in s.q.parked && i !in released
  {
    if released == [] {
      w' := w;
      SamePlaces(s, w, s');
    } else {
      var b, i := released[..|released| - 1], released[|released| - 1];
      var before := s.(q := Unpark(s.q, b));
      assert released == b + [i] && i !in b;
      var v := ParkedToReadyAll(s, w, b, before);
      ParkedToReady(before, v, i, s');
      w' := v[i.self := ReadyAs(i.tid)];
    }
  }

  /** What a step needs beyond being enabled: Resume gets a routine that was never started, New one that is not in use. */
  predicate Careful(s: State, a: Step) {
    match a
    case DoNew(r, _, _) => NewRid(s.p, r) !in s.q.live && NewRid(s.p, r) != s.d.dispatcher
    case DoResume(x, _, _) => x in s.q.unstarted
    case _ => true
  }

  lemma AttemptKeepsPlaces(v: Variant, s: State, w: map<Rid, Place>, m: nat, expected: int) returns (w': map<Rid, Place>)
    requires PlacesOk(s, w) && UserRuns(s)
    ensures PlacesOk(Attempt(v, s, m, expected), w')
  {
    var s' := Attempt(v, s, m, expected);
    if Count(s.k, m) == expected {
      w' := w;
      SamePlaces(s, w, s');
    } else {
      RunningToList(s, w, OfMutex(m), s');
      w' := w[s.d.occupy := WaitsIn(OfMutex(m))];
    }
  }

  lemma StepKeepsPlaces(v: Variant, s: State, w: map<Rid, Place>, a: Step) returns (w': map<Rid, Place>)
    requires PlacesOk(s, w) && Enabled(s, a) && Careful(s, a)
    ensures PlacesOk(Do(v, s, a), w')
  {
    var s' := Do(v, s, a);
    var o := s.d.occupy;
    hide PlacesOk, Holds;
    match a
    case DoNew(r, level, sid) =>
      Appears(s, w, NewRid(s.p, r), s');
      w' := w[NewRid(s.p, r) := Unstarted];
    case DoResume(x, t1, t2) =>
      assert [t1, t2][0] == t1 && [t1, t2][1] == t2;
      var one := s.(q := AddTask(s.q.(unstarted := s.q.unstarted - {x}), Item(t1, x)));
      UnstartedToReady(s, w, x, t1, one);
      RunningToReady(one, w[x := ReadyAs(t1)], t2, s');
      w' := w[x := ReadyAs(t1)][o := ReadyAs(t2)];
    case DoYield(t) =>
      assert [t][0] == t;
      RunningToReady(s, w, t, s');
      w' := w[o := ReadyAs(t)];
    case DoPoll(t) =>
      assert [t][0] == t;
      RunningToParked(s, w, t, s');
      w' := w[o := ParkedAs(t)];
    case DoLock(m) =>
      w' := AttemptKeepsPlaces(v, s, w, m, 0);
    case DoRetry =>
      w' := AttemptKeepsPlaces(v, s, w, s.k.retry[o].m, s.k.retry[o].expected);
    case DoUnlock(m, t) =>
      assert [t][0] == t;
      w' := ListToReady(s, w, OfMutex(m), t, s');
    case DoWait(c, m, t) =>
      assert [t][0] == t;
      var one := Unlock(s, m, t);
      w' := ListToReady(s, w, OfMutex(m), t, one);
      RunningToList(one, w', OfCond(c), s');
      w' := w'[o := WaitsIn(OfCond(c))];
    case DoSignalAll(c, ts) =>
      w' := ListToReadyAll(s, w, OfCond(c), ts, s');
    case DoFinish =>
      Ends(s, w, s');
      w' := w - {o};
    case DoDeal(released) =>
      w' := ParkedToReadyAll(s, w, released, s');
    case DoDispatch =>
      ReadyToRunning(s, w, s');
      w' := w[s.q.ready[0].self := Running];
    case DoEpilogue =>
      ItemFreed(s, w, s');
      w' := w;
  }
}
