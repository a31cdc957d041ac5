/** Sequential histories of the queue: where an operation stands, and how many items remain. */
module QueueHistory {
  import opened QueueMachine
  import opened QueueInvariant

  /** The place of the n-th operation of thread t. */
  function Position(h: seq<Event>, t: Tid, n: nat): (p: nat)
    requires n < |Project(h, t)|
    ensures p < |h| && h[p].t == t && h[p].op == Project(h, t)[n]
  {
    var before := h[..|h| - 1];
    if n < |Project(before, t)| then Position(before, t, n) else |h| - 1
  }

  lemma {:induction false} ProjectPrefix(g: seq<Event>, h: seq<Event>, t: Tid)
    requires g <= h
    ensures Project(g, t) <= Project(h, t)
  {
    if g != h {
      assert g <= h[..|h| - 1];
      ProjectPrefix(g, h[..|h| - 1], t);
    } else {
      assert g == h;
    }
  }

  /** The operations of a prefix stand in it, and the others behind it. */
  lemma {:induction false} PositionPrefix(g: seq<Event>, h: seq<Event>, t: Tid, n: nat)
    requires g <= h && n < |Project(h, t)|
    ensures Position(h, t, n) < |g| <==> n < |Project(g, t)|
  {
    var before := h[..|h| - 1];
    ProjectPrefix(g, h, t);
    if |g| < |h| {
      assert g <= before;
      ProjectPrefix(g, before, t);
      if n < |Project(before, t)| {
        PositionPrefix(g, before, t, n);
      }
    } else {
      assert g == h;
    }
  }

  /** Every event is an operation of its thread. */
  lemma {:induction false} EventIs(h: seq<Event>, p: nat) returns (n: nat)
    requires p < |h|
    ensures n < |Project(h, h[p].t)| && Position(h, h[p].t, n) == p
  {
    var before := h[..|h| - 1];
    if p == |h| - 1 {
      n := |Project(before, h[p].t)|;
    } else {
      n := EventIs(before, p);
    }
  }

  // ---- how many items remain ----------------------------------------------------------------

  function Weight(op: Op): int {
    match op case Enq(_) => 1 case Deq(r) => if r.Null? then 0 else -1
  }

  function Net(h: seq<Event>): int {
    if h == [] then 0 else Net(h[..|h| - 1]) + Weight(h[|h| - 1].op)
  }

  /** A legal history leaves as many items as it has put in and not taken out. */
  lemma {:induction false} NetIsLength(h: seq<Event>)
    requires Replay(h).Holds?
    ensures |Replay(h).q| == Net(h)
  {
    if h != [] {
      NetIsLength(h[..|h| - 1]);
    }
  }

  function Without(h: seq<Event>, p: nat): seq<Event>
    requires p < |h|
  {
    h[..p] + h[p + 1..]
  }

  lemma {:induction false} NetWithout(h: seq<Event>, p: nat)
    requires p < |h|
    ensures Net(h) == Net(Without(h, p)) + Weight(h[p].op)
  {
    var before := h[..|h| - 1];
    if p < |h| - 1 {
      NetWithout(before, p);
      assert Without(h, p)[..|h| - 2] == Without(before, p);
    } else {
      assert Without(h, p) == before;
    }
  }

  /** Taking out the last operation of its thread. */
  lemma {:induction false} ProjectWithout(h: seq<Event>, p: nat, u: Tid)
    requires p < |h| && forall k :: p < k < |h| ==> h[k].t != h[p].t
    ensures Project(h, u) == Project(Without(h, p), u) + if u == h[p].t then [h[p].op] else []
  {
    var before := h[..|h| - 1];
    if p < |h| - 1 {
      ProjectWithout(before, p, u);
      assert Without(h, p)[..|h| - 2] == Without(before, p);
    } else {
      assert Without(h, p) == before;
    }
  }

  lemma {:induction false} LastOfThread(h: seq<Event>, t: Tid) returns (p: nat)
    requires Project(h, t) != []
    ensures p < |h| && h[p].t == t && h[p].op == Project(h, t)[|Project(h, t)| - 1]
    ensures forall k :: p < k < |h| ==> h[k].t != t
  {
    if h[|h| - 1].t == t {
      p := |h| - 1;
    } else {
      p := LastOfThread(h[..|h| - 1], t);
    }
  }

  lemma NoEvents(h: seq<Event>)
    requires forall t: Tid :: Project(h, t) == []
    ensures h == []
  {
    if h != [] {
      var ops := Project(h, h[|h| - 1].t);
      assert false;
    }
  }

  lemma CancelLast(a: seq<Op>, b: seq<Op>, c: seq<Op>)
    requires a + c == b + c
    ensures a == b
  {
    assert |a| == |b|;
    assert (a + c)[..|a|] == a && (b + c)[..|b|] == b;
  }

  /** Histories with the same operations of every thread put in and take out the same number of items. */
  lemma {:induction false} SameOperationsSameNet(g: seq<Event>, h: seq<Event>)
    requires forall t: Tid :: Project(g, t) == Project(h, t)
    ensures Net(g) == Net(h)
    decreases |g|
  {
    if g == [] {
      forall t: Tid ensures Project(h, t) == [] {
        assert Project(g, t) == Project(h, t);
      }
      NoEvents(h);
    } else {
      var e := g[|g| - 1];
      assert Project(g, e.t) == Project(h, e.t);
      var p := LastOfThread(h, e.t);
      assert h[p] == e;
      forall t: Tid ensures Project(g[..|g| - 1], t) == Project(Without(h, p), t) {
        assert Project(g, t) == Project(h, t);
        ProjectWithout(h, p, t);
        CancelLast(Project(g[..|g| - 1], t), Project(Without(h, p), t), if t == e.t then [e.op] else []);
      }
      SameOperationsSameNet(g[..|g| - 1], Without(h, p));
      NetWithout(h, p);
    }
  }
}
