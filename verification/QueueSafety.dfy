/** Nothing is lost, duplicated or reordered: the two-lock queue over whole runs. */
module QueueSafety {
  import opened QueueMachine
  import opened QueueInvariant
  import opened QueueSteps

  // ---- items in the hands of one thread ---------------------------------------------------

  /** A step of t writes only items of the chain and its own, and links only its own. */
  ghost predicate Confined(o: Order, s: State, s': State, c: seq<Node>, c': seq<Node>, t: Tid) {
    && s'.pcs == s.pcs[t := s'.Pc(t)]
    && (forall n :: n !in c && Private(o, s.Pc(t)) != Ref(n) ==> s'.F(n) == s.F(n))
    && (forall n :: n in c' ==> n in c || Private(o, s.Pc(t)) == Ref(n))
    && (HoldsTail(s.Pc(t)) || Last(c') == Last(c))
  }

  lemma PrivatesFrame(o: Order, s: State, s': State, c: seq<Node>, c': seq<Node>, t: Tid)
    requires Locks(s) && Privates(o, s, c) && Confined(o, s, s', c, c', t)
    requires PrivateOk(o, s', c', t)
    requires forall u: Tid :: u != t && Private(o, s'.Pc(t)).Ref? ==> Private(o, s.Pc(u)) != Private(o, s'.Pc(t))
    ensures Privates(o, s', c')
  {
    forall u: Tid ensures PrivateOk(o, s', c', u) {
      assert PrivateOk(o, s, c, u) && Apart(o, s, t, u) && Apart(o, s, u, t) && LockOk(s, u) && LockOk(s, t);
    }
    forall u: Tid, v: Tid ensures Apart(o, s', u, v) {
      assert Apart(o, s, u, v);
      assert u != t ==> s'.Pc(u) == s.Pc(u);
      assert v != t ==> s'.Pc(v) == s.Pc(v);
    }
  }

  ghost predicate PushFacts(s: State, c: seq<Node>, x: Node, at: PushAt) {
    && s.tail == Last(c)
    && (at.LinkNext? || at.LinkPrev? || at.LinkTail? ==> c != [])
    && (at.SetTail? ==> c == [])
    && (at.ClearNext? || at.Owner? ==> x in c)
  }

  lemma PushConfined(o: Order, s: State, c: seq<Node>, t: Tid, x: Node, lh: bool, at: PushAt)
    requires Locks(s) && s.Pc(t) == Pushing(x, lh, at) && PushFacts(s, c, x, at)
    ensures Confined(o, s, PushStep(o, s, t, x, lh, at), c, ChainAfter(s, c, t, Run), t)
  {
    assert LockOk(s, t);
  }

  lemma PushPrivate(o: Order, s: State, c: seq<Node>, t: Tid, x: Node, lh: bool, at: PushAt)
    requires s.Pc(t) == Pushing(x, lh, at) && PushFacts(s, c, x, at) && PrivateOk(o, s, c, t)
    ensures var s' := PushStep(o, s, t, x, lh, at);
            && PrivateOk(o, s', ChainAfter(s, c, t, Run), t)
            && (Private(o, s'.Pc(t)).Null? || Private(o, s'.Pc(t)) == Private(o, s.Pc(t)))
  {
    PushOwns(o, s, t, x, lh, at);
    PushHolds(o, s, c, t, x, lh, at);
    hide PushStep, PrivateOk, Private, ChainAfter, PushFacts;
  }

  lemma PushOwns(o: Order, s: State, t: Tid, x: Node, lh: bool, at: PushAt)
    requires s.Pc(t) == Pushing(x, lh, at)
    ensures var s' := PushStep(o, s, t, x, lh, at);
            Private(o, s'.Pc(t)).Null? || Private(o, s'.Pc(t)) == Private(o, s.Pc(t))
  {
  }

  lemma PushHolds(o: Order, s: State, c: seq<Node>, t: Tid, x: Node, lh: bool, at: PushAt)
    requires s.Pc(t) == Pushing(x, lh, at) && PushFacts(s, c, x, at) && PrivateOk(o, s, c, t)
    ensures PrivateOk(o, PushStep(o, s, t, x, lh, at), ChainAfter(s, c, t, Run), t)
  {
  }

  ghost predicate PopFacts(s: State, c: seq<Node>, i: Ptr, lt: bool, at: PopAt) {
    && (at.NullTail? ==> lt && |c| == 1 && i == First(c) && s.F(c[0]) == Fields(Null, Null, true))
    && (at.CutPrev? || at.MoveHead? ==> |c| >= 2 && i == First(c) && s.F(c[0]) == Fields(Ref(c[1]), Null, true) && c[0] !in c[1..])
    && (at.ForgetNext? || at.ForgetOwner? ==> i.Ref?)
  }

  lemma PopConfined(o: Order, s: State, c: seq<Node>, t: Tid, i: Ptr, lt: bool, at: PopAt)
    requires Locks(s) && s.Pc(t) == Popping(i, lt, at) && PopFacts(s, c, i, lt, at)
    ensures Confined(o, s, PopStep(s, t, i, lt, at), c, ChainAfter(s, c, t, Run), t)
  {
    assert LockOk(s, t);
  }

  lemma PopPrivate(o: Order, s: State, c: seq<Node>, t: Tid, i: Ptr, lt: bool, at: PopAt)
    requires s.Pc(t) == Popping(i, lt, at) && PopFacts(s, c, i, lt, at) && PrivateOk(o, s, c, t)
    ensures var s' := PopStep(s, t, i, lt, at);
            && PrivateOk(o, s', ChainAfter(s, c, t, Run), t)
            && (Private(o, s'.Pc(t)).Null? || Private(o, s'.Pc(t)) == Private(o, s.Pc(t)) || Private(o, s'.Pc(t)) == First(c))
  {
    PopOwns(o, s, c, t, i, lt, at);
    if at.NullTail? || at.MoveHead? {
      PopTakesOver(o, s, c, t, i, lt, at);
    } else {
      PopHolds(o, s, c, t, i, lt, at);
    }
    hide PopStep, PrivateOk, Private, ChainAfter, PopFacts;
  }

  lemma PopOwns(o: Order, s: State, c: seq<Node>, t: Tid, i: Ptr, lt: bool, at: PopAt)
    requires s.Pc(t) == Popping(i, lt, at) && PopFacts(s, c, i, lt, at)
    ensures var s' := PopStep(s, t, i, lt, at);
            Private(o, s'.Pc(t)).Null? || Private(o, s'.Pc(t)) == Private(o, s.Pc(t)) || Private(o, s'.Pc(t)) == First(c)
  {
  }

  /** The item that has just been unlinked belongs to the popper. */
  lemma PopTakesOver(o: Order, s: State, c: seq<Node>, t: Tid, i: Ptr, lt: bool, at: PopAt)
    requires s.Pc(t) == Popping(i, lt, at) && PopFacts(s, c, i, lt, at) && (at.NullTail? || at.MoveHead?)
    ensures PrivateOk(o, PopStep(s, t, i, lt, at), ChainAfter(s, c, t, Run), t)
  {
  }

  lemma PopHolds(o: Order, s: State, c: seq<Node>, t: Tid, i: Ptr, lt: bool, at: PopAt)
    requires s.Pc(t) == Popping(i, lt, at) && PrivateOk(o, s, c, t) && !at.NullTail? && !at.MoveHead?
    ensures PrivateOk(o, PopStep(s, t, i, lt, at), ChainAfter(s, c, t, Run), t)
  {
  }

  // ---- the history ------------------------------------------------------------------------

  lemma ReplaySnoc(h: seq<Event>, e: Event)
    ensures Replay(h + [e]) == Apply(Replay(h), e.op)
  {
    assert (h + [e])[..|h|] == h;
  }

  lemma ProjectSnoc(h: seq<Event>, e: Event, t: Tid)
    ensures Project(h + [e], t) == Project(h, t) + if e.t == t then [e.op] else []
  {
    assert (h + [e])[..|h|] == h;
  }

  ghost predicate Counted(o: Order, s: State, c: seq<Node>, hp: Pc, tp: Pc) {
    s.count == |Visible(o, c, hp, tp)| && Replay(s.lin) == Holds(Visible(o, c, hp, tp))
  }

  lemma SeenLink(c: seq<Node>, taking: bool, x: Node)
    requires taking ==> c != []
    ensures Seen(c + [x], taking, Null, false) == Seen(c, taking, Ref(x), false)
    ensures Seen(c + [x], taking, Null, true) == Seen(c, taking, Null, false)
    ensures Seen(c + [x], taking, Null, false) == Seen(c + [x], taking, Null, true) + [x]
    ensures Seen(c, taking, Ref(x), false) == Seen(c, taking, Null, false) + [x]
  {
    var r := if taking then c[1..] else c;
    assert (if taking then (c + [x])[1..] else c + [x]) == r + [x];
    assert (r + [x])[..|r|] == r;
  }

  lemma SeenTake(c: seq<Node>, announced: Ptr, hidden: bool)
    requires c != [] && (hidden ==> |c| >= 2)
    ensures var q := Seen(c, false, announced, hidden);
            q != [] && q[0] == c[0] && Seen(c, true, announced, hidden) == q[1..] == Seen(c[1..], false, announced, hidden)
  {
  }

  lemma PushTakesNothing(o: Order, s: State, t: Tid, x: Node, lh: bool, at: PushAt, hp: Pc, tp: Pc)
    requires PushRoles(s, t, x, lh, at, hp, tp)
    ensures Taking(NewHp(s, PushStep(o, s, t, x, lh, at), t, hp)) == Taking(hp)
  {
  }

  lemma PushSeen(o: Order, s: State, t: Tid, x: Node, lh: bool, at: PushAt, hp: Pc, tp: Pc)
    requires PushRoles(s, t, x, lh, at, hp, tp)
    ensures var s' := PushStep(o, s, t, x, lh, at);
            var tp' := NewTp(s, s', t, tp);
            && (at.SetTail? || at.LinkTail? ==> Announced(o, tp') == Null && (Hidden(o, tp') <==> o.CountLast?))
            && (at.Count? && o.CountFirst? ==> Announced(o, tp') == Ref(x) && !Hidden(o, tp'))
            && (at.Count? && o.CountLast? ==> Announced(o, tp') == Null && !Hidden(o, tp'))
            && (!at.SetTail? && !at.LinkTail? && !at.Count? && !(at.LinkNext? && s.tail.Null?)
                ==> Announced(o, tp') == Announced(o, tp) && Hidden(o, tp') == Hidden(o, tp))
  {
  }

  /** Linking an item does not change the visible queue: it counts before, or it is still hidden. */
  lemma LinkIsInvisible(o: Order, c: seq<Node>, hp: Pc, tp: Pc, x: Node, tp': Pc)
    requires Taking(hp) ==> c != []
    requires Announced(o, tp') == Null && (Hidden(o, tp') <==> o.CountLast?) && !Hidden(o, tp)
    requires Announced(o, tp) == if o.CountFirst? then Ref(x) else Null
    ensures Visible(o, c + [x], hp, tp') == Visible(o, c, hp, tp)
  {
    hide Taking, Announced, Hidden, Seen;
    SeenLink(c, Taking(hp), x);
  }

  /** Counting an item appends it. */
  lemma CountAppends(o: Order, c: seq<Node>, hp: Pc, tp: Pc, x: Node, tp': Pc)
    requires o.CountLast? ==> c != [] && c[|c| - 1] == x && (Taking(hp) ==> |c| >= 2)
    requires o.CountFirst? ==> (Taking(hp) ==> c != [])
    requires Announced(o, tp) == Null && !Hidden(o, tp')
    requires Hidden(o, tp) <==> o.CountLast?
    requires Announced(o, tp') == if o.CountFirst? then Ref(x) else Null
    ensures Visible(o, c, hp, tp') == Visible(o, c, hp, tp) + [x]
  {
    hide Taking, Announced, Hidden, Seen;
    if o.CountFirst? {
      SeenLink(c, Taking(hp), x);
    } else {
      assert c == c[..|c| - 1] + [x];
      SeenLink(c[..|c| - 1], Taking(hp), x);
    }
  }

  /** What the queue is like when a push links or counts its item. */
  lemma PushFits(o: Order, s: State, c: seq<Node>, t: Tid, x: Node, lh: bool, at: PushAt, hp: Pc, tp: Pc)
    requires Shape(o, s, c, hp, tp) && PushRoles(s, t, x, lh, at, hp, tp)
    ensures at.LinkNext? ==> s.tail.Ref?
    ensures ChainAfter(s, c, t, Run) == if at.SetTail? || at.LinkTail? then c + [x] else c
    ensures at.SetTail? || at.LinkTail? ==>
              && (Taking(hp) ==> c != []) && !Hidden(o, tp)
              && Announced(o, tp) == if o.CountFirst? then Ref(x) else Null
    ensures at.Count? ==>
              && (o.CountLast? ==> c != [] && c[|c| - 1] == x && (Taking(hp) ==> |c| >= 2))
              && (o.CountFirst? ==> (Taking(hp) ==> c != []))
              && Announced(o, tp) == Null && (Hidden(o, tp) <==> o.CountLast?)
  {
  }

  /** A step of a push changes the visible queue exactly as the operation it logs, or not at all. */
  lemma PushCounted(o: Order, s: State, c: seq<Node>, t: Tid, x: Node, lh: bool, at: PushAt, hp: Pc, tp: Pc)
    requires Shape(o, s, c, hp, tp) && PushRoles(s, t, x, lh, at, hp, tp)
    ensures var s' := PushStep(o, s, t, x, lh, at);
            var q := Visible(o, c, hp, tp);
            var q' := Visible(o, ChainAfter(s, c, t, Run), NewHp(s, s', t, hp), NewTp(s, s', t, tp));
            q' == if at.Count? then q + [x] else q
  {
    hide Shape, PushRoles, PushStep, NewHp, NewTp, ChainAfter, Taking, Announced, Hidden, Seen;
    PushTakesNothing(o, s, t, x, lh, at, hp, tp);
    PushSeen(o, s, t, x, lh, at, hp, tp);
    PushFits(o, s, c, t, x, lh, at, hp, tp);
    var s' := PushStep(o, s, t, x, lh, at);
    var tp' := NewTp(s, s', t, tp);
    if at.SetTail? || at.LinkTail? {
      LinkIsInvisible(o, c, hp, tp, x, tp');
    } else if at.Count? {
      CountAppends(o, c, hp, tp, x, tp');
    }
  }

  lemma PopSeen(o: Order, s: State, c: seq<Node>, t: Tid, i: Ptr, lt: bool, at: PopAt, hp: Pc, tp: Pc)
    requires Shape(o, s, c, hp, tp) && PopRoles(s, t, i, lt, at, hp, tp)
    requires at.CutPrev? ==> s.F(i.node).next.Ref?
    ensures var s' := PopStep(s, t, i, lt, at);
            var tp' := NewTp(s, s', t, tp);
            && Announced(o, tp') == Announced(o, tp) && Hidden(o, tp') == Hidden(o, tp)
            && (at.Read? || Taking(NewHp(s, s', t, hp)) ==
                              if at.Discount? then true else if at.MoveHead? || at.NullTail? then false else Taking(hp))
  {
  }

  lemma PopCounted(o: Order, s: State, c: seq<Node>, t: Tid, i: Ptr, lt: bool, at: PopAt, hp: Pc, tp: Pc)
    requires Shape(o, s, c, hp, tp) && PopRoles(s, t, i, lt, at, hp, tp)
    requires at.CutPrev? ==> s.F(i.node).next.Ref?
    ensures var s' := PopStep(s, t, i, lt, at);
            var q := Visible(o, c, hp, tp);
            var q' := Visible(o, ChainAfter(s, c, t, Run), NewHp(s, s', t, hp), NewTp(s, s', t, tp));
            if at.Discount? then q != [] && Ref(q[0]) == s.head && q' == q[1..] else q' == q
  {
    PopSeen(o, s, c, t, i, lt, at, hp, tp);
    if at.Read? {
      PopReads(o, s, c, t, i, lt, hp, tp);
    } else if at.Discount? || at.MoveHead? {
      SeenTake(c, Announced(o, tp), Hidden(o, tp));
    }
  }

  ghost predicate PopSure(s: State, c: seq<Node>, t: Tid, i: Ptr, lt: bool, at: PopAt) {
    && s.Pc(t) == Popping(i, lt, at) && LocalsOk(s.Pc(t))
    && (at.Discount? ==> s.head == First(c))
    && (at.Read? ==> s.head == First(c) && s.head.Ref? && s.F(s.head.node).owned)
    && (at.CutPrev? ==> i.Ref? && s.F(i.node).next.Ref?)
    && (at.MoveHead? || at.ForgetNext? || at.ForgetOwner? ==> i.Ref?)
  }

  /** The history of t after a step: an operation takes effect, or returns, or neither, or both. */
  ghost predicate Advances(o: Order, s: State, s': State, c: seq<Node>, c': seq<Node>, t: Tid) {
    var p, p' := Pending(o, s.Pc(t), c), Pending(o, s'.Pc(t), c');
    || (s'.lin == s.lin && s'.ret == s.ret && p' == p)
    || (p == [] && |p'| == 1 && s'.lin == s.lin + [Event(t, p'[0])] && s'.ret == s.ret)
    || (p' == [] && |p| == 1 && s'.lin == s.lin && s'.ret == s.ret + [Event(t, p[0])])
    || (p == p' == [] && s'.lin == s.lin + [Event(t, Deq(Null))] && s'.ret == s.ret + [Event(t, Deq(Null))])
  }

  lemma OwnLog(o: Order, s: State, s': State, c: seq<Node>, c': seq<Node>, t: Tid)
    requires LogOk(o, s, c, t) && Advances(o, s, s', c, c', t)
    ensures LogOk(o, s', c', t)
  {
    var p, p' := Pending(o, s.Pc(t), c), Pending(o, s'.Pc(t), c');
    hide Pending, Project;
    if s'.lin != s.lin { ProjectSnoc(s.lin, s'.lin[|s.lin|], t); }
    if s'.ret != s.ret { ProjectSnoc(s.ret, s'.ret[|s.ret|], t); }
    assert |p| == 1 ==> p == [p[0]];
    assert |p'| == 1 ==> p' == [p'[0]];
  }

  /** The history h' is h, possibly with one more event of thread t. */
  predicate Extends(h: seq<Event>, h': seq<Event>, t: Tid) {
    h' == h || (h' != [] && h'[..|h'| - 1] == h && h'[|h'| - 1].t == t)
  }

  lemma OtherLog(o: Order, s: State, s': State, c: seq<Node>, c': seq<Node>, t: Tid, u: Tid)
    requires LogOk(o, s, c, u) && Extends(s.lin, s'.lin, t) && Extends(s.ret, s'.ret, t)
    requires u != t && s'.Pc(u) == s.Pc(u)
    requires First(c') == First(c) || !HoldsHead(s.Pc(u))
    ensures LogOk(o, s', c', u)
  {
    assert Project(s'.lin, u) == Project(s.lin, u) && Project(s'.ret, u) == Project(s.ret, u);
    assert Pending(o, s'.Pc(u), c') == Pending(o, s.Pc(u), c);
  }

  lemma LogsKept(o: Order, s: State, s': State, c: seq<Node>, c': seq<Node>, t: Tid)
    requires Locks(s) && s'.pcs == s.pcs[t := s'.Pc(t)]
    requires forall u: Tid :: LogOk(o, s, c, u)
    requires Advances(o, s, s', c, c', t)
    requires HoldsHead(s.Pc(t)) || First(c') == First(c)
    ensures forall u: Tid :: LogOk(o, s', c', u)
  {
    forall u: Tid ensures LogOk(o, s', c', u) {
      assert LogOk(o, s, c, u) && LockOk(s, u) && LockOk(s, t);
      if u == t { OwnLog(o, s, s', c, c', t); } else { OtherLog(o, s, s', c, c', t, u); }
    }
  }

  lemma PushAdvances(o: Order, s: State, c: seq<Node>, t: Tid, x: Node, lh: bool, at: PushAt)
    requires s.Pc(t) == Pushing(x, lh, at)
    requires at.LinkNext? ==> s.tail.Ref?
    ensures Advances(o, s, PushStep(o, s, t, x, lh, at), c, ChainAfter(s, c, t, Run), t)
  {
  }

  lemma PopAdvances(o: Order, s: State, c: seq<Node>, t: Tid, i: Ptr, lt: bool, at: PopAt)
    requires PopSure(s, c, t, i, lt, at)
    ensures Advances(o, s, PopStep(s, t, i, lt, at), c, ChainAfter(s, c, t, Run), t)
  {
  }

  // ---- every step keeps the invariant -----------------------------------------------------

  lemma Roles(s: State, t: Tid)
    requires Locks(s)
    ensures Coherent(HeadPc(s), TailPc(s)) && LocalsOk(s.Pc(t))
    ensures HoldsHead(s.Pc(t)) ==> HeadPc(s) == s.Pc(t)
    ensures HoldsTail(s.Pc(t)) ==> TailPc(s) == s.Pc(t)
    ensures s.headLock.Free? ==> HeadPc(s) == Idle
    ensures s.tailLock.Free? ==> TailPc(s) == Idle
  {
    assert LockOk(s, t);
    if s.headLock.HeldBy? { assert LockOk(s, s.headLock.t); }
    if s.tailLock.HeldBy? { assert LockOk(s, s.tailLock.t); }
  }

  lemma PushShape(o: Order, s: State, c: seq<Node>, t: Tid, x: Node, lh: bool, at: PushAt, hp: Pc, tp: Pc)
    requires Shape(o, s, c, hp, tp) && PushRoles(s, t, x, lh, at, hp, tp) && PrivateOk(o, s, c, t)
    requires at.Recheck? && s.count >= 2 && !lh ==> |c| >= 1
    ensures var s' := PushStep(o, s, t, x, lh, at);
            Shape(o, s', ChainAfter(s, c, t, Run), NewHp(s, s', t, hp), NewTp(s, s', t, tp))
  {
    if at.SetHead? || at.SetTail? {
      PushFirst(o, s, c, t, x, lh, at, hp, tp);
    } else if at.LinkNext? || at.LinkPrev? {
      PushLink(o, s, c, t, x, lh, at, hp, tp);
    } else if at.LinkTail? {
      PushJoin(o, s, c, t, x, lh, hp, tp);
    } else if at.ClearNext? || at.Owner? {
      PushFinish(o, s, c, t, x, lh, at, hp, tp);
    } else {
      PushQuiet(o, s, c, t, x, lh, at, hp, tp);
    }
  }

  lemma PushKeeps(o: Order, s: State, c: seq<Node>, t: Tid, x: Node, lh: bool, at: PushAt)
    requires Inv(o, s, c) && s.Pc(t) == Pushing(x, lh, at) && Enabled(s, t, Run)
    ensures Inv(o, PushStep(o, s, t, x, lh, at), ChainAfter(s, c, t, Run))
  {
    var s', c' := PushStep(o, s, t, x, lh, at), ChainAfter(s, c, t, Run);
    var hp, tp := HeadPc(s), TailPc(s);
    Roles(s, t);
    assert PrivateOk(o, s, c, t);
    PushShape(o, s, c, t, x, lh, at, hp, tp);
    PushMoves(o, s, t, x, lh, at);
    LocksFrame(s, s', t);
    PushLogs(o, s, c, t, x, lh, at, hp, tp);
    PushPrivates(o, s, c, t, x, lh, at);
  }

  lemma PushLogs(o: Order, s: State, c: seq<Node>, t: Tid, x: Node, lh: bool, at: PushAt, hp: Pc, tp: Pc)
    requires Shape(o, s, c, hp, tp) && PushRoles(s, t, x, lh, at, hp, tp) && Logs(o, s, c, hp, tp)
    requires Locks(s) && s.Pc(t) == Pushing(x, lh, at) && Enabled(s, t, Run)
    ensures var s' := PushStep(o, s, t, x, lh, at);
            Logs(o, s', ChainAfter(s, c, t, Run), NewHp(s, s', t, hp), NewTp(s, s', t, tp))
  {
    var s', c' := PushStep(o, s, t, x, lh, at), ChainAfter(s, c, t, Run);
    PushCounted(o, s, c, t, x, lh, at, hp, tp);
    ReplaySnoc(s.lin, Event(t, Enq(x)));
    PushAdvances(o, s, c, t, x, lh, at);
    PushMoves(o, s, t, x, lh, at);
    LogsKept(o, s, s', c, c', t);
  }

  lemma PushPrivates(o: Order, s: State, c: seq<Node>, t: Tid, x: Node, lh: bool, at: PushAt)
    requires Locks(s) && Privates(o, s, c) && s.Pc(t) == Pushing(x, lh, at) && PushFacts(s, c, x, at)
    ensures Privates(o, PushStep(o, s, t, x, lh, at), ChainAfter(s, c, t, Run))
  {
    var s', c' := PushStep(o, s, t, x, lh, at), ChainAfter(s, c, t, Run);
    PushConfined(o, s, c, t, x, lh, at);
    assert PrivateOk(o, s, c, t);
    PushPrivate(o, s, c, t, x, lh, at);
    forall u: Tid | u != t && Private(o, s'.Pc(t)).Ref? ensures Private(o, s.Pc(u)) != Private(o, s'.Pc(t)) {
      assert Apart(o, s, t, u);
    }
    PrivatesFrame(o, s, s', c, c', t);
  }

  lemma PopShape(o: Order, s: State, c: seq<Node>, t: Tid, i: Ptr, lt: bool, at: PopAt, hp: Pc, tp: Pc)
    requires Shape(o, s, c, hp, tp) && PopRoles(s, t, i, lt, at, hp, tp) && PrivateOk(o, s, c, t)
    requires at.Decide? && s.count >= 2 ==> |c| >= 2
    ensures var s' := PopStep(s, t, i, lt, at);
            Shape(o, s', ChainAfter(s, c, t, Run), NewHp(s, s', t, hp), NewTp(s, s', t, tp))
  {
    if at.Read? {
      PopReads(o, s, c, t, i, lt, hp, tp);
    } else if at.NullHead? || at.NullTail? {
      PopLast(o, s, c, t, i, lt, at, hp, tp);
    } else if at.CutPrev? || at.MoveHead? {
      PopUnlink(o, s, c, t, i, lt, at, hp, tp);
    } else if at.ForgetNext? || at.ForgetOwner? {
      PopForget(o, s, c, t, i, lt, at, hp, tp);
    } else {
      PopQuiet(o, s, c, t, i, lt, at, hp, tp);
    }
  }

  /** What a popper finds in the heap at each of its statements. */
  lemma PopKnows(o: Order, s: State, c: seq<Node>, t: Tid, i: Ptr, lt: bool, at: PopAt, hp: Pc, tp: Pc)
    requires Shape(o, s, c, hp, tp) && PopRoles(s, t, i, lt, at, hp, tp)
    ensures PopSure(s, c, t, i, lt, at) && PopFacts(s, c, i, lt, at)
    ensures at.Decide? && s.head != s.tail ==> |c| >= 2
    ensures at.Check? && (s.tail.Null? || s.head.Null?) ==> Visible(o, c, hp, tp) == []
  {
    if at.CutPrev? || at.MoveHead? || at.NullTail? || at.Read? {
      assert LinkOk(s.mem, c, 0, Cut(hp), Half(tp), Unowned(tp));
    }
  }

  lemma PopKeeps(o: Order, s: State, c: seq<Node>, t: Tid, i: Ptr, lt: bool, at: PopAt)
    requires Inv(o, s, c) && s.Pc(t) == Popping(i, lt, at) && Enabled(s, t, Run) && !Starved(s, t)
    ensures Inv(o, PopStep(s, t, i, lt, at), ChainAfter(s, c, t, Run))
  {
    var s', c' := PopStep(s, t, i, lt, at), ChainAfter(s, c, t, Run);
    var hp, tp := HeadPc(s), TailPc(s);
    Roles(s, t);
    assert PrivateOk(o, s, c, t);
    PopKnows(o, s, c, t, i, lt, at, hp, tp);
    PopShape(o, s, c, t, i, lt, at, hp, tp);
    PopMoves(s, t, i, lt, at);
    LocksFrame(s, s', t);
    PopLogs(o, s, c, t, i, lt, at, hp, tp);
    PopPrivates(o, s, c, t, i, lt, at);
  }

  lemma PopLogs(o: Order, s: State, c: seq<Node>, t: Tid, i: Ptr, lt: bool, at: PopAt, hp: Pc, tp: Pc)
    requires Shape(o, s, c, hp, tp) && PopRoles(s, t, i, lt, at, hp, tp) && Logs(o, s, c, hp, tp)
    requires Locks(s) && s.Pc(t) == Popping(i, lt, at) && Enabled(s, t, Run)
    ensures var s' := PopStep(s, t, i, lt, at);
            Logs(o, s', ChainAfter(s, c, t, Run), NewHp(s, s', t, hp), NewTp(s, s', t, tp))
  {
    var s', c' := PopStep(s, t, i, lt, at), ChainAfter(s, c, t, Run);
    PopKnows(o, s, c, t, i, lt, at, hp, tp);
    PopCounted(o, s, c, t, i, lt, at, hp, tp);
    PopReplays(o, s, c, t, i, lt, at, hp, tp);
    PopAdvances(o, s, c, t, i, lt, at);
    PopMoves(s, t, i, lt, at);
    LogsKept(o, s, s', c, c', t);
  }

  lemma PopPrivates(o: Order, s: State, c: seq<Node>, t: Tid, i: Ptr, lt: bool, at: PopAt)
    requires Locks(s) && Privates(o, s, c) && s.Pc(t) == Popping(i, lt, at)
    requires PopSure(s, c, t, i, lt, at) && PopFacts(s, c, i, lt, at)
    ensures Privates(o, PopStep(s, t, i, lt, at), ChainAfter(s, c, t, Run))
  {
    var s', c' := PopStep(s, t, i, lt, at), ChainAfter(s, c, t, Run);
    PopConfined(o, s, c, t, i, lt, at);
    assert PrivateOk(o, s, c, t);
    PopPrivate(o, s, c, t, i, lt, at);
    forall u: Tid | u != t && Private(o, s'.Pc(t)).Ref? ensures Private(o, s.Pc(u)) != Private(o, s'.Pc(t)) {
      assert Apart(o, s, t, u) && PrivateOk(o, s, c, u);
    }
    PrivatesFrame(o, s, s', c, c', t);
  }

  /** The steps of a pop that take effect. */
  predicate FindsNothing(s: State, at: PopAt) {
    (at.Begin? && s.count == 0) || (at.Check? && (s.count == 0 || s.tail.Null? || s.head.Null?))
  }

  lemma PopEffect(s: State, t: Tid, i: Ptr, lt: bool, at: PopAt)
    ensures var s' := PopStep(s, t, i, lt, at);
            && s'.count == (if at.Discount? then s.count - 1 else s.count)
            && s'.lin == if at.Discount? then s.lin + [Event(t, Deq(s.head))]
                         else if FindsNothing(s, at) then s.lin + [Event(t, Deq(Null))] else s.lin
  {
  }

  /** A pop that reports an empty queue does so while the visible queue is empty. */
  lemma PopReplays(o: Order, s: State, c: seq<Node>, t: Tid, i: Ptr, lt: bool, at: PopAt, hp: Pc, tp: Pc)
    requires Shape(o, s, c, hp, tp) && PopRoles(s, t, i, lt, at, hp, tp) && Counted(o, s, c, hp, tp)
    ensures var s' := PopStep(s, t, i, lt, at);
            var q := Visible(o, c, hp, tp);
            && (at.Discount? ==> q != [] && s'.count == s.count - 1 && Replay(s'.lin) == Holds(q[1..]))
            && (!at.Discount? ==> s'.count == s.count && Replay(s'.lin) == Replay(s.lin))
  {
    hide *;
    PopKnows(o, s, c, t, i, lt, at, hp, tp);
    PopTakesFirst(o, s, c, t, i, lt, at, hp, tp);
    CountedIs(o, s, c, hp, tp);
    PopEffect(s, t, i, lt, at);
    if FindsNothing(s, at) {
      NothingVisible(o, s, c, t, i, lt, at, hp, tp);
    }
    EffectReplays(s.lin, t, s.head, Visible(o, c, hp, tp));
  }

  lemma CountedIs(o: Order, s: State, c: seq<Node>, hp: Pc, tp: Pc)
    requires Counted(o, s, c, hp, tp)
    ensures s.count == |Visible(o, c, hp, tp)| && Replay(s.lin) == Holds(Visible(o, c, hp, tp))
  {
  }

  lemma PopTakesFirst(o: Order, s: State, c: seq<Node>, t: Tid, i: Ptr, lt: bool, at: PopAt, hp: Pc, tp: Pc)
    requires Shape(o, s, c, hp, tp) && PopRoles(s, t, i, lt, at, hp, tp) && PopSure(s, c, t, i, lt, at)
    ensures var q := Visible(o, c, hp, tp);
            at.Discount? ==> q != [] && Ref(q[0]) == s.head
  {
    PopCounted(o, s, c, t, i, lt, at, hp, tp);
    hide Shape, PopStep, ChainAfter, Visible;
  }

  lemma NothingVisible(o: Order, s: State, c: seq<Node>, t: Tid, i: Ptr, lt: bool, at: PopAt, hp: Pc, tp: Pc)
    requires Shape(o, s, c, hp, tp) && PopRoles(s, t, i, lt, at, hp, tp) && Counted(o, s, c, hp, tp) && FindsNothing(s, at)
    ensures Visible(o, c, hp, tp) == []
  {
  }

  /** What the two effects of a pop do to a history that leaves the queue q. */
  lemma EffectReplays(lin: seq<Event>, t: Tid, head: Ptr, q: seq<Node>)
    requires Replay(lin) == Holds(q)
    ensures q == [] ==> Replay(lin + [Event(t, Deq(Null))]) == Replay(lin)
    ensures q != [] && Ref(q[0]) == head ==> Replay(lin + [Event(t, Deq(head))]) == Holds(q[1..])
  {
    ReplaySnoc(lin, Event(t, Deq(Null)));
    ReplaySnoc(lin, Event(t, Deq(head)));
    hide Replay;
  }

  lemma CallIsPrivate(o: Order, s: State, c: seq<Node>, t: Tid, a: Act)
    requires Inv(o, s, c) && !a.Run? && Enabled(s, t, a)
    ensures Privates(o, Step(o, s, t, a), c)
  {
    var s' := Step(o, s, t, a);
    hide Logs;
    if a.CallPush? {
      forall u: Tid | u != t ensures Private(o, s.Pc(u)) != Ref(a.x) {
        assert !Mentions(s.Pc(u), a.x);
      }
      assert !Mentions(TailPc(s), a.x);
      forall k | 0 <= k < |c| ensures c[k] != a.x {
        assert LinkOk(s.mem, c, k, Cut(HeadPc(s)), Half(TailPc(s)), Unowned(TailPc(s)));
      }
    }
    assert PrivateOk(o, s, c, t);
    PrivatesFrame(o, s, s', c, c, t);
  }

  lemma CallKeeps(o: Order, s: State, c: seq<Node>, t: Tid, a: Act)
    requires Inv(o, s, c) && !a.Run? && Enabled(s, t, a)
    ensures Inv(o, Step(o, s, t, a), c)
  {
    var s' := Step(o, s, t, a);
    CallIsPrivate(o, s, c, t, a);
    hide Privates;
    Roles(s, t);
    assert LockOk(s, t);
    LocksFrame(s, s', t);
    LogsKept(o, s, s', c, c, t);
  }

  /** The step theorem: only a starved popper can break the queue. */
  lemma StepKeeps(o: Order, s: State, c: seq<Node>, t: Tid, a: Act)
    requires Inv(o, s, c) && Enabled(s, t, a) && !(a.Run? && Starved(s, t))
    ensures Inv(o, Step(o, s, t, a), ChainAfter(s, c, t, a))
  {
    if !a.Run? {
      CallKeeps(o, s, c, t, a);
    } else {
      match s.Pc(t)
      case Pushing(x, lh, at) => PushKeeps(o, s, c, t, x, lh, at);
      case Popping(i, lt, at) => PopKeeps(o, s, c, t, i, lt, at);
    }
  }
}
