/** Every step of the two-lock queue keeps the invariant, unless a starved popper takes it. */
module QueueSteps {
  import opened QueueMachine
  import opened QueueInvariant

  // ---- what a step leaves alone -----------------------------------------------------------

  /** Only thread t acquires or releases in its own step. */
  predicate ByOwner(l: Lock, l': Lock, t: Tid) {
    l' == l || ((l.Free? || l == HeldBy(t)) && (l'.Free? || l' == HeldBy(t)))
  }

  ghost predicate Moves(s: State, s': State, t: Tid) {
    && s'.pcs == s.pcs[t := s'.Pc(t)]
    && ByOwner(s.headLock, s'.headLock, t)
    && ByOwner(s.tailLock, s'.tailLock, t)
  }

  lemma LocksFrame(s: State, s': State, t: Tid)
    requires Locks(s) && Moves(s, s', t) && LockOk(s', t)
    ensures Locks(s')
    ensures HeadPc(s') == if HoldsHead(s'.Pc(t)) then s'.Pc(t) else if HoldsHead(s.Pc(t)) then Idle else HeadPc(s)
    ensures TailPc(s') == if HoldsTail(s'.Pc(t)) then s'.Pc(t) else if HoldsTail(s.Pc(t)) then Idle else TailPc(s)
  {
    assert LockOk(s, t);
    forall u: Tid ensures LockOk(s', u) {
      assert LockOk(s, u);
    }
    if s.headLock.HeldBy? { assert LockOk(s, s.headLock.t); }
    if s.tailLock.HeldBy? { assert LockOk(s, s.tailLock.t); }
  }

  lemma PushMoves(o: Order, s: State, t: Tid, x: Node, lh: bool, at: PushAt)
    requires Locks(s) && s.Pc(t) == Pushing(x, lh, at) && Enabled(s, t, Run)
    requires at.LinkNext? ==> s.tail.Ref?
    ensures Moves(s, PushStep(o, s, t, x, lh, at), t) && LockOk(PushStep(o, s, t, x, lh, at), t)
  {
    assert LockOk(s, t);
  }

  lemma PopMoves(s: State, t: Tid, i: Ptr, lt: bool, at: PopAt)
    requires Locks(s) && s.Pc(t) == Popping(i, lt, at) && Enabled(s, t, Run)
    requires at.CutPrev? ==> i.Ref? && s.F(i.node).next.Ref?
    requires at.MoveHead? || at.ForgetNext? || at.ForgetOwner? ==> i.Ref?
    ensures Moves(s, PopStep(s, t, i, lt, at), t) && LockOk(PopStep(s, t, i, lt, at), t)
  {
    assert LockOk(s, t);
  }

  // ---- the chain --------------------------------------------------------------------------

  /** The heap and the progress of the two lock holders, whatever the other threads do. */
  ghost predicate Shape(o: Order, s: State, c: seq<Node>, hp: Pc, tp: Pc) {
    Heap(s, c, hp, tp) && HeadStage(c, hp) && TailStage(o, c, tp)
  }

  /** A thread that holds both mutexes is the holder of either. */
  predicate Coherent(hp: Pc, tp: Pc) {
    && (HoldsTail(hp) ==> tp == hp)
    && (HoldsHead(tp) ==> hp == tp)
  }

  /** The holder of a mutex after a step from pc to pc'. */
  function Hold(held: bool, held': bool, pc': Pc, holder: Pc): Pc {
    if held' then pc' else if held then Idle else holder
  }

  ghost predicate PushRoles(s: State, t: Tid, x: Node, lh: bool, at: PushAt, hp: Pc, tp: Pc) {
    var pc := Pushing(x, lh, at);
    && s.Pc(t) == pc && LocalsOk(pc) && Coherent(hp, tp)
    && (HoldsHead(pc) ==> hp == pc) && (HoldsTail(pc) ==> tp == pc)
    && (at.WantHead? ==> hp.Idle?) && (at.WantTail? ==> tp.Idle?)
  }

  function NewHp(s: State, s': State, t: Tid, hp: Pc): Pc {
    Hold(HoldsHead(s.Pc(t)), HoldsHead(s'.Pc(t)), s'.Pc(t), hp)
  }

  function NewTp(s: State, s': State, t: Tid, tp: Pc): Pc {
    Hold(HoldsTail(s.Pc(t)), HoldsTail(s'.Pc(t)), s'.Pc(t), tp)
  }

  lemma ChainHalf(mem: map<Node, Fields>, c: seq<Node>, cut: bool, raw: bool, x: Node)
    requires Chain(mem, c, cut, Null, raw) && c != []
    ensures var l := c[|c| - 1];
            Chain(mem[l := FieldsIn(mem, l).(next := Ref(x))], c, cut, Ref(x), raw)
  {
    var l := c[|c| - 1];
    var mem' := mem[l := FieldsIn(mem, l).(next := Ref(x))];
    forall k | 0 <= k < |c| ensures LinkOk(mem', c, k, cut, Ref(x), raw) {
      assert LinkOk(mem, c, k, cut, Null, raw);
    }
  }

  lemma ChainJoin(mem: map<Node, Fields>, c: seq<Node>, cut: bool, x: Node)
    requires Chain(mem, c, cut, Ref(x), false) && c != [] && (cut ==> |c| >= 2)
    requires x !in c && FieldsIn(mem, x) == Fields(Null, Last(c), false)
    ensures Chain(mem, c + [x], cut, Null, true)
  {
    var d := c + [x];
    forall k | 0 <= k < |d| ensures LinkOk(mem, d, k, cut, Null, true) {
      if k < |c| { assert LinkOk(mem, c, k, cut, Ref(x), false); }
    }
  }

  lemma ChainOwned(mem: map<Node, Fields>, c: seq<Node>, cut: bool, half: Ptr)
    requires Chain(mem, c, cut, half, true) && c != []
    ensures var l := c[|c| - 1];
            Chain(mem[l := FieldsIn(mem, l).(owned := true)], c, cut, half, false)
  {
    var l := c[|c| - 1];
    var mem' := mem[l := FieldsIn(mem, l).(owned := true)];
    forall k | 0 <= k < |c| ensures LinkOk(mem', c, k, cut, half, false) {
      assert LinkOk(mem, c, k, cut, half, true);
    }
  }

  lemma ChainCut(mem: map<Node, Fields>, c: seq<Node>, half: Ptr, raw: bool)
    requires Chain(mem, c, false, half, raw) && |c| >= 2
    ensures FieldsIn(mem, c[0]).next == Ref(c[1])
    ensures Chain(mem[c[1] := FieldsIn(mem, c[1]).(prev := Null)], c, true, half, raw)
  {
    var mem' := mem[c[1] := FieldsIn(mem, c[1]).(prev := Null)];
    assert LinkOk(mem, c, 0, false, half, raw);
    forall k | 0 <= k < |c| ensures LinkOk(mem', c, k, true, half, raw) {
      assert LinkOk(mem, c, k, false, half, raw);
    }
  }

  lemma ChainMove(mem: map<Node, Fields>, c: seq<Node>, half: Ptr, raw: bool)
    requires Chain(mem, c, true, half, raw) && |c| >= 2
    ensures FieldsIn(mem, c[0]) == Fields(Ref(c[1]), Null, true)
    ensures Chain(mem, c[1..], false, half, raw) && c[0] !in c[1..]
  {
    var d := c[1..];
    assert LinkOk(mem, c, 0, true, half, raw);
    forall k | 0 <= k < |d| ensures LinkOk(mem, d, k, false, half, raw) {
      assert LinkOk(mem, c, k + 1, true, half, raw);
    }
  }

  lemma ChainFrame(mem: map<Node, Fields>, mem': map<Node, Fields>, c: seq<Node>, cut: bool, half: Ptr, raw: bool)
    requires Chain(mem, c, cut, half, raw)
    requires forall n :: n in c ==> FieldsIn(mem', n) == FieldsIn(mem, n)
    ensures Chain(mem', c, cut, half, raw)
  {
    forall k: nat | k < |c| ensures LinkOk(mem', c, k, cut, half, raw) {
      assert LinkOk(mem, c, k, cut, half, raw);
    }
  }

  lemma PushQuiet(o: Order, s: State, c: seq<Node>, t: Tid, x: Node, lh: bool, at: PushAt, hp: Pc, tp: Pc)
    requires Shape(o, s, c, hp, tp) && PushRoles(s, t, x, lh, at, hp, tp)
    requires at.Recheck? && s.count >= 2 && !lh ==> |c| >= 1
    requires at.Load? || at.WantHead? || at.WantTail? || at.Recheck? || at.Count? || at.Test? || at.DropHead? || at.DropTail?
    ensures var s' := PushStep(o, s, t, x, lh, at);
            Shape(o, s', c, NewHp(s, s', t, hp), NewTp(s, s', t, tp))
  {
  }

  lemma PushFirst(o: Order, s: State, c: seq<Node>, t: Tid, x: Node, lh: bool, at: PushAt, hp: Pc, tp: Pc)
    requires Shape(o, s, c, hp, tp) && PushRoles(s, t, x, lh, at, hp, tp)
    requires (at.SetHead? || at.SetTail?) && s.F(x) == CLEAN
    ensures var s' := PushStep(o, s, t, x, lh, at);
            Shape(o, s', if at.SetTail? then [x] else c, NewHp(s, s', t, hp), NewTp(s, s', t, tp))
  {
  }

  lemma PushLink(o: Order, s: State, c: seq<Node>, t: Tid, x: Node, lh: bool, at: PushAt, hp: Pc, tp: Pc)
    requires Shape(o, s, c, hp, tp) && PushRoles(s, t, x, lh, at, hp, tp)
    requires (at.LinkNext? || at.LinkPrev?) && x !in c && s.F(x) == CLEAN
    ensures var s' := PushStep(o, s, t, x, lh, at);
            Shape(o, s', c, NewHp(s, s', t, hp), NewTp(s, s', t, tp))
  {
    if at.LinkNext? { ChainHalf(s.mem, c, Cut(hp), false, x); } else {
      ChainFrame(s.mem, PushStep(o, s, t, x, lh, at).mem, c, Cut(hp), Ref(x), false);
    }
  }

  lemma PushJoin(o: Order, s: State, c: seq<Node>, t: Tid, x: Node, lh: bool, hp: Pc, tp: Pc)
    requires Shape(o, s, c, hp, tp) && PushRoles(s, t, x, lh, LinkTail, hp, tp)
    requires x !in c && s.F(x) == Fields(Null, Last(c), false)
    ensures var s' := PushStep(o, s, t, x, lh, LinkTail);
            Shape(o, s', c + [x], NewHp(s, s', t, hp), NewTp(s, s', t, tp))
  {
    ChainJoin(s.mem, c, Cut(hp), x);
  }

  lemma PushFinish(o: Order, s: State, c: seq<Node>, t: Tid, x: Node, lh: bool, at: PushAt, hp: Pc, tp: Pc)
    requires Shape(o, s, c, hp, tp) && PushRoles(s, t, x, lh, at, hp, tp)
    requires at.ClearNext? || at.Owner?
    ensures var s' := PushStep(o, s, t, x, lh, at);
            Shape(o, s', c, NewHp(s, s', t, hp), NewTp(s, s', t, tp))
  {
    if at.Owner? {
      ChainOwned(s.mem, c, Cut(hp), Null);
    } else {
      assert LinkOk(s.mem, c, |c| - 1, Cut(hp), Null, true);
      ChainFrame(s.mem, PushStep(o, s, t, x, lh, at).mem, c, Cut(hp), Null, true);
    }
  }

  ghost predicate PopRoles(s: State, t: Tid, i: Ptr, lt: bool, at: PopAt, hp: Pc, tp: Pc) {
    var pc := Popping(i, lt, at);
    && s.Pc(t) == pc && LocalsOk(pc) && Coherent(hp, tp)
    && (HoldsHead(pc) ==> hp == pc) && (HoldsTail(pc) ==> tp == pc)
    && (at.AwaitHead? ==> hp.Idle?) && (at.AwaitTail? ==> tp.Idle?)
  }

  lemma PopQuiet(o: Order, s: State, c: seq<Node>, t: Tid, i: Ptr, lt: bool, at: PopAt, hp: Pc, tp: Pc)
    requires Shape(o, s, c, hp, tp) && PopRoles(s, t, i, lt, at, hp, tp)
    requires at.Decide? && s.count >= 2 ==> |c| >= 2
    requires at.Begin? || at.AwaitHead? || at.Decide? || at.AwaitTail? || at.Check? || at.Discount? || at.FreeHead? || at.FreeTail?
    ensures var s' := PopStep(s, t, i, lt, at);
            Shape(o, s', c, NewHp(s, s', t, hp), NewTp(s, s', t, tp))
  {
  }

  lemma PopReads(o: Order, s: State, c: seq<Node>, t: Tid, i: Ptr, lt: bool, hp: Pc, tp: Pc)
    requires Shape(o, s, c, hp, tp) && PopRoles(s, t, i, lt, Read, hp, tp)
    ensures var s' := PopStep(s, t, i, lt, Read);
            && Shape(o, s', c, NewHp(s, s', t, hp), NewTp(s, s', t, tp))
            && s'.Pc(t) == Popping(First(c), lt, if |c| == 1 then NullHead else CutPrev)
  {
    assert LinkOk(s.mem, c, 0, Cut(hp), Half(tp), Unowned(tp));
  }

  lemma PopLast(o: Order, s: State, c: seq<Node>, t: Tid, i: Ptr, lt: bool, at: PopAt, hp: Pc, tp: Pc)
    requires Shape(o, s, c, hp, tp) && PopRoles(s, t, i, lt, at, hp, tp)
    requires at.NullHead? || at.NullTail?
    ensures var s' := PopStep(s, t, i, lt, at);
            Shape(o, s', if at.NullTail? then [] else c, NewHp(s, s', t, hp), NewTp(s, s', t, tp))
  {
  }

  lemma PopUnlink(o: Order, s: State, c: seq<Node>, t: Tid, i: Ptr, lt: bool, at: PopAt, hp: Pc, tp: Pc)
    requires Shape(o, s, c, hp, tp) && PopRoles(s, t, i, lt, at, hp, tp)
    requires at.CutPrev? || at.MoveHead?
    ensures var s' := PopStep(s, t, i, lt, at);
            Shape(o, s', if at.MoveHead? then c[1..] else c, NewHp(s, s', t, hp), NewTp(s, s', t, tp))
  {
    if at.CutPrev? {
      ChainCut(s.mem, c, Half(tp), Unowned(tp));
    } else {
      ChainMove(s.mem, c, Half(tp), Unowned(tp));
    }
  }

  lemma PopForget(o: Order, s: State, c: seq<Node>, t: Tid, i: Ptr, lt: bool, at: PopAt, hp: Pc, tp: Pc)
    requires Shape(o, s, c, hp, tp) && PopRoles(s, t, i, lt, at, hp, tp)
    requires (at.ForgetNext? || at.ForgetOwner?) && i.Ref? && i.node !in c
    ensures var s' := PopStep(s, t, i, lt, at);
            Shape(o, s', c, NewHp(s, s', t, hp), NewTp(s, s', t, tp))
  {
    ChainFrame(s.mem, PopStep(s, t, i, lt, at).mem, c, Cut(hp), Half(tp), Unowned(tp));
  }
}
