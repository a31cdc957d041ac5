/** What holds in every state of the two-lock queue, and that every step keeps it. */
module QueueInvariant {
  import opened QueueMachine

  // ---- the sequential specification: a FIFO queue -----------------------------------------

  datatype Contents = Illegal | Holds(q: seq<Node>)

  /** One operation on a FIFO queue: an impossible result is illegal. */
  function Apply(c: Contents, op: Op): Contents {
    match c
    case Illegal => Illegal
    case Holds(q) =>
      match op
      case Enq(x) => Holds(q + [x])
      case Deq(Null) => if q == [] then c else Illegal
      case Deq(Ref(x)) => if q != [] && q[0] == x then Holds(q[1..]) else Illegal
  }

  /** The queue after a sequential history, starting empty. */
  function Replay(h: seq<Event>): Contents {
    if h == [] then Holds([]) else Apply(Replay(h[..|h| - 1]), h[|h| - 1].op)
  }

  /** The operations of thread t in a history. */
  function Project(h: seq<Event>, t: Tid): seq<Op> {
    if h == [] then []
    else Project(h[..|h| - 1], t) + if h[|h| - 1].t == t then [h[|h| - 1].op] else []
  }

  // ---- the pieces of the invariant --------------------------------------------------------

  predicate HoldsHead(pc: Pc) {
    match pc
    case Pushing(_, lh, at) => lh && !at.Load? && !at.WantHead? && !at.DropTail?
    case Popping(_, _, at) => !at.Begin? && !at.AwaitHead? && !at.FreeTail?
    case _ => false
  }

  predicate HoldsTail(pc: Pc) {
    match pc
    case Pushing(_, _, at) => !at.Load? && !at.WantHead? && !at.WantTail?
    case Popping(_, lt, at) => lt && !at.Begin? && !at.AwaitHead? && !at.Decide? && !at.AwaitTail?
    case _ => false
  }

  /** A mutex is held by the one thread whose program counter says so. */
  ghost predicate LockOk(s: State, t: Tid) {
    && (s.headLock == HeldBy(t) <==> HoldsHead(s.Pc(t)))
    && (s.tailLock == HeldBy(t) <==> HoldsTail(s.Pc(t)))
    && LocalsOk(s.Pc(t))
  }

  ghost predicate Locks(s: State) {
    forall t: Tid :: LockOk(s, t)
  }

  /** The program counter of the holder of a mutex. */
  function HeadPc(s: State): Pc {
    if s.headLock.HeldBy? then s.Pc(s.headLock.t) else Idle
  }

  function TailPc(s: State): Pc {
    if s.tailLock.HeldBy? then s.Pc(s.tailLock.t) else Idle
  }

  /** The item is announced or being linked, but not yet in the chain. */
  predicate Linking(pc: Pc) {
    pc.Pushing? && (pc.push.Test? || pc.push.SetHead? || pc.push.SetTail?
                    || pc.push.LinkNext? || pc.push.LinkPrev? || pc.push.LinkTail?)
  }

  /** The last item of the chain points to the new item, `tail` does not yet. */
  predicate HalfLinked(pc: Pc) {
    pc.Pushing? && (pc.push.LinkPrev? || pc.push.LinkTail?)
  }

  /** The item is in the chain, its `owner` is not set yet. */
  predicate Unowned(pc: Pc) {
    pc.Pushing? && (pc.push.ClearNext? || pc.push.Owner?)
  }

  /** The item at the head is counted down, but still in the chain. */
  predicate Taking(pc: Pc) {
    pc.Popping? && (pc.pop.Read? || pc.pop.NullHead? || pc.pop.NullTail? || pc.pop.CutPrev? || pc.pop.MoveHead?)
  }

  /** The item is out of the chain and still with the popper. */
  predicate Taken(pc: Pc) {
    pc.Popping? && (pc.pop.ForgetNext? || pc.pop.ForgetOwner? || pc.pop.FreeHead? || pc.pop.FreeTail?)
  }

  function First(c: seq<Node>): Ptr {
    if c == [] then Null else Ref(c[0])
  }

  function Last(c: seq<Node>): Ptr {
    if c == [] then Null else Ref(c[|c| - 1])
  }

  function FieldsIn(mem: map<Node, Fields>, n: Node): Fields {
    if n in mem then mem[n] else CLEAN
  }

  /**
    The fields of the k-th item of the chain: half is what the last item points to, cut says
    that the second item has forgotten the first, raw that the last item has no owner yet.
   */
  function Linked(c: seq<Node>, k: nat, cut: bool, half: Ptr, raw: bool): Fields
    requires k < |c|
  {
    Fields(
      if k + 1 < |c| then Ref(c[k + 1]) else half,
      if k == 0 || (k == 1 && cut) then Null else Ref(c[k - 1]),
      !(k == |c| - 1 && raw))
  }

  ghost predicate LinkOk(mem: map<Node, Fields>, c: seq<Node>, k: nat, cut: bool, half: Ptr, raw: bool)
    requires k < |c|
  {
    FieldsIn(mem, c[k]) == Linked(c, k, cut, half, raw)
  }

  ghost predicate Chain(mem: map<Node, Fields>, c: seq<Node>, cut: bool, half: Ptr, raw: bool) {
    && (forall j, k :: 0 <= j < k < |c| ==> c[j] != c[k])
    && (forall k :: 0 <= k < |c| ==> LinkOk(mem, c, k, cut, half, raw))
  }

  predicate Cut(hp: Pc) {
    hp.Popping? && hp.pop.MoveHead?
  }

  function Half(tp: Pc): Ptr {
    if HalfLinked(tp) then Ref(tp.x) else Null
  }

  function HeadOf(c: seq<Node>, hp: Pc, tp: Pc): Ptr {
    if hp.Popping? && hp.pop.NullTail? then Null
    else if tp.Pushing? && tp.push.SetTail? then Ref(tp.x) else First(c)
  }

  /** The heap holds the chain c, up to what the two lock holders have in progress. */
  ghost predicate Heap(s: State, c: seq<Node>, hp: Pc, tp: Pc) {
    && Chain(s.mem, c, Cut(hp), Half(tp), Unowned(tp))
    && s.head == HeadOf(c, hp, tp)
    && s.tail == Last(c)
  }

  /** How far the holder of `HeadMutex` has got with the chain c. */
  predicate HeadStage(c: seq<Node>, hp: Pc) {
    hp.Popping? ==>
      && ((hp.pop.Check? || hp.pop.Discount? || hp.pop.Read?) && !hp.lt ==> |c| >= 2)
      && (hp.pop.Discount? || hp.pop.Read? ==> |c| >= 1)
      && (hp.pop.NullHead? || hp.pop.NullTail? ==> hp.lt && |c| == 1 && hp.i == First(c))
      && (hp.pop.CutPrev? || hp.pop.MoveHead? ==> |c| >= 2 && hp.i == First(c))
      && (hp.pop.ForgetNext? || hp.pop.ForgetOwner? ==> hp.i.Ref?)
  }

  /** How far the holder of `TailMutex` has got with the chain c. */
  predicate TailStage(o: Order, c: seq<Node>, tp: Pc) {
    tp.Pushing? ==>
      && ((tp.push.Count? || tp.push.Test?) && !tp.lh ==> |c| >= 1)
      && (tp.push.LinkNext? || HalfLinked(tp) ==> |c| >= 1)
      && (tp.push.SetHead? || tp.push.SetTail? ==> tp.lh && c == [])
      && (Unowned(tp) || (o.CountLast? && tp.push.Count?) ==> Last(c) == Ref(tp.x))
  }

  /** The values the locals of a thread can have. */
  predicate LocalsOk(pc: Pc) {
    match pc
    case Pushing(_, lh, at) => (at.Load? || at.WantHead? ==> !lh) && (at.DropHead? ==> lh)
    case Popping(i, lt, at) =>
      && ((!Taking(pc) && !Taken(pc)) || at.Read? ==> i.Null?)
      && (at.Begin? || at.AwaitHead? || at.Decide? || at.AwaitTail? ==> !lt)
      && (at.FreeTail? ==> lt)
    case Crashed => false
    case Idle => true
  }

  /** The item that only this thread may touch: not yet linked, or already unlinked. */
  function Private(o: Order, pc: Pc): Ptr {
    match pc
    case Pushing(x, _, at) =>
      if at.Load? || at.WantHead? || at.WantTail? || at.Recheck? || Linking(pc) || (at.Count? && o.CountFirst?)
      then Ref(x) else Null
    case Popping(i, _, _) => if Taken(pc) then i else Null
    case _ => Null
  }

  ghost predicate PrivateOk(o: Order, s: State, c: seq<Node>, t: Tid) {
    var pc := s.Pc(t);
    Private(o, pc).Ref? ==>
      var n := Private(o, pc).node;
      && n !in c
      && (pc.Pushing? ==> s.F(n) == if pc.push.LinkTail? then Fields(Null, Last(c), false) else CLEAN)
      && (pc.Popping? ==>
           && s.F(n).prev.Null?
           && (!pc.pop.ForgetNext? ==> s.F(n).next.Null?)
           && (s.F(n).owned <==> (pc.pop.ForgetNext? || pc.pop.ForgetOwner?)))
  }

  ghost predicate Apart(o: Order, s: State, t: Tid, u: Tid) {
    t != u && Private(o, s.Pc(t)).Ref? ==> Private(o, s.Pc(t)) != Private(o, s.Pc(u))
  }

  ghost predicate Privates(o: Order, s: State, c: seq<Node>) {
    && (forall t: Tid :: PrivateOk(o, s, c, t))
    && (forall t: Tid, u: Tid :: Apart(o, s, t, u))
  }

  /** The chain, less an item being taken from its front, and plus or less one at its end. */
  function Seen(c: seq<Node>, taking: bool, announced: Ptr, hidden: bool): seq<Node> {
    var rest := if taking && c != [] then c[1..] else c;
    if announced.Ref? then rest + [announced.node] else if hidden && rest != [] then rest[..|rest| - 1] else rest
  }

  /** In the code's order an item counts before it is linked. */
  function Announced(o: Order, tp: Pc): Ptr {
    if o.CountFirst? && Linking(tp) then Ref(tp.x) else Null
  }

  /** In the repaired order an item is linked before it counts. */
  predicate Hidden(o: Order, tp: Pc) {
    o.CountLast? && (Unowned(tp) || (tp.Pushing? && tp.push.Count?))
  }

  /** The queue as its users see it. */
  function Visible(o: Order, c: seq<Node>, hp: Pc, tp: Pc): seq<Node> {
    Seen(c, Taking(hp), Announced(o, tp), Hidden(o, tp))
  }

  /** The operation of a thread that has taken effect but not returned yet. */
  function Pending(o: Order, pc: Pc, c: seq<Node>): seq<Op> {
    match pc
    case Pushing(x, _, at) =>
      if at.DropHead? || at.DropTail? || (o.CountFirst? && (Linking(pc) || Unowned(pc))) then [Enq(x)] else []
    case Popping(i, _, at) =>
      if at.Read? then [Deq(First(c))] else if Taking(pc) || Taken(pc) then [Deq(i)] else []
    case _ => []
  }

  ghost predicate LogOk(o: Order, s: State, c: seq<Node>, t: Tid) {
    Project(s.lin, t) == Project(s.ret, t) + Pending(o, s.Pc(t), c)
  }

  ghost predicate Logs(o: Order, s: State, c: seq<Node>, hp: Pc, tp: Pc) {
    && s.count == |Visible(o, c, hp, tp)|
    && Replay(s.lin) == Holds(Visible(o, c, hp, tp))
    && forall t: Tid :: LogOk(o, s, c, t)
  }

  ghost predicate Inv(o: Order, s: State, c: seq<Node>) {
    && Locks(s)
    && Heap(s, c, HeadPc(s), TailPc(s))
    && HeadStage(c, HeadPc(s))
    && TailStage(o, c, TailPc(s))
    && Privates(o, s, c)
    && Logs(o, s, c, HeadPc(s), TailPc(s))
  }

  /**
    A popper that is about to go on with only `HeadMutex` because it reads `ItemCount >= 2`,
    although fewer than two items are linked.
   */
  predicate Starved(s: State, t: Tid) {
    s.Pc(t).Popping? && s.Pc(t).pop.Decide? && s.count >= 2 && s.head == s.tail
  }

  /** The chain after a step. */
  function ChainAfter(s: State, c: seq<Node>, t: Tid, a: Act): seq<Node> {
    if !a.Run? then c else
    match s.Pc(t)
    case Pushing(x, _, SetTail) => [x]
    case Pushing(x, _, LinkTail) => c + [x]
    case Popping(_, _, NullTail) => []
    case Popping(_, _, MoveHead) => if c == [] then c else c[1..]
    case _ => c
  }
}
