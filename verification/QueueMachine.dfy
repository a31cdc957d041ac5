/**
  The ready queue `TaskItemsList` as a concurrent step machine: any number of threads run
  `pushBack` and `popHead`, and one step is one lock operation, one load of `ItemCount`,
  or one write of a shared field together with the reads that feed it.

  `CountFirst` is the order the code has: `pushBackUnsafe` increments `ItemCount` before it
  links the item. `CountLast` is the repaired order, with the increment behind the last link.
 */
module QueueMachine {
  type Tid = nat
  type Node = nat

  datatype Ptr = Null | Ref(node: Node)
  datatype Fields = Fields(next: Ptr, prev: Ptr, owned: bool)
  datatype Lock = Free | HeldBy(t: Tid)
  datatype Order = CountFirst | CountLast

  /** A completed operation; `Deq(Null)` is a `popHead` that returned `nullptr`. */
  datatype Op = Enq(x: Node) | Deq(r: Ptr)
  datatype Event = Event(t: Tid, op: Op)

  const CLEAN := Fields(Null, Null, false)

  /** The next statement of `pushBack` with `pushBackUnsafe` inlined. */
  datatype PushAt =
    | Load | WantHead | WantTail | Recheck | Count | Test
    | SetHead | SetTail | LinkNext | LinkPrev | LinkTail | ClearNext | Owner
    | DropHead | DropTail

  /** The next statement of `popHead` with `popHeadUnsafe` and `RemoveSelfFromOwnerlink` inlined. */
  datatype PopAt =
    | Begin | AwaitHead | Decide | AwaitTail | Check | Discount | Read
    | NullHead | NullTail | CutPrev | MoveHead | ForgetNext | ForgetOwner
    | FreeHead | FreeTail

  /**
    Where a thread stands. `lh` and `lt` are the locals `lockHead` and `lockTail`, `i` is the
    local of `RemoveSelfFromOwnerlink`, null until it has been read and for an empty result.
   */
  datatype Pc =
    | Idle
    | Crashed
    | Pushing(x: Node, lh: bool, push: PushAt)
    | Popping(i: Ptr, lt: bool, pop: PopAt)

  /**
    The shared list and the threads. `lin` and `ret` record the run: `lin` lists operations
    in the order in which they take effect, `ret` in the order in which they return.
   */
  datatype State = State(
    count: int, head: Ptr, tail: Ptr, mem: map<Node, Fields>,
    headLock: Lock, tailLock: Lock, pcs: map<Tid, Pc>,
    lin: seq<Event>, ret: seq<Event>)
  {
    function Pc(t: Tid): Pc {
      if t in pcs then pcs[t] else Idle
    }

    function F(n: Node): Fields {
      if n in mem then mem[n] else CLEAN
    }

    function Goto(t: Tid, pc: Pc): State {
      this.(pcs := pcs[t := pc])
    }

    function Write(n: Node, f: Fields): State {
      this.(mem := mem[n := f])
    }

    function Linearize(t: Tid, op: Op): State {
      this.(lin := lin + [Event(t, op)])
    }

    function Return(t: Tid, op: Op): State {
      this.(ret := ret + [Event(t, op)], pcs := pcs[t := Idle])
    }
  }

  const INIT := State(0, Null, Null, map[], Free, Free, map[], [], [])

  /** What a thread does next: enter an operation, or run one step of the one it is in. */
  datatype Act = CallPush(x: Node) | CallPop | Run

  predicate Mentions(pc: Pc, x: Node) {
    match pc
    case Pushing(y, _, _) => y == x
    case Popping(i, _, _) => i == Ref(x)
    case _ => false
  }

  /** An item may be handed to `pushBack` when it is unlinked and no operation has it in hand. */
  ghost predicate Available(s: State, x: Node) {
    s.F(x) == CLEAN && forall u: Tid :: !Mentions(s.Pc(u), x)
  }

  /** Acquiring a mutex waits until it is free; everything else can always run. */
  ghost predicate Enabled(s: State, t: Tid, a: Act) {
    match a
    case CallPush(x) => s.Pc(t).Idle? && Available(s, x)
    case CallPop => s.Pc(t).Idle?
    case Run =>
      match s.Pc(t)
      case Idle | Crashed => false
      case Pushing(_, _, at) => (at.WantHead? ==> s.headLock.Free?) && (at.WantTail? ==> s.tailLock.Free?)
      case Popping(_, _, at) => (at.AwaitHead? ==> s.headLock.Free?) && (at.AwaitTail? ==> s.tailLock.Free?)
  }

  function Step(o: Order, s: State, t: Tid, a: Act): State {
    match a
    case CallPush(x) => s.Goto(t, Pushing(x, false, Load))
    case CallPop => s.Goto(t, Popping(Null, false, Begin))
    case Run =>
      match s.Pc(t)
      case Idle | Crashed => s
      case Pushing(x, lh, at) => PushStep(o, s, t, x, lh, at)
      case Popping(i, lt, at) => PopStep(s, t, i, lt, at)
  }


  function PushStep(o: Order, s: State, t: Tid, x: Node, lh: bool, at: PushAt): State {
    match at
    case Load =>
      s.Goto(t, Pushing(x, false, if s.count < 2 then WantHead else WantTail))
    case WantHead =>
      s.(headLock := HeldBy(t)).Goto(t, Pushing(x, true, WantTail))
    case WantTail =>
      s.(tailLock := HeldBy(t)).Goto(t, Pushing(x, lh, Recheck))
    case Recheck =>
      if s.count < 2 && !lh then
        s.(tailLock := Free).Goto(t, Pushing(x, lh, Load))
      else
        s.Goto(t, Pushing(x, lh, if o.CountFirst? then Count else Test))
    case Count =>
      s.(count := s.count + 1).Linearize(t, Enq(x))
       .Goto(t, Pushing(x, lh, if o.CountFirst? then Test else if lh then DropHead else DropTail))
    case Test =>
      s.Goto(t, Pushing(x, lh, if s.head.Null? && s.tail.Null? then SetHead else LinkNext))
    case SetHead =>
      s.(head := Ref(x)).Goto(t, Pushing(x, lh, SetTail))
    case SetTail =>
      s.(tail := Ref(x)).Goto(t, Pushing(x, lh, Owner))
    case LinkNext =>
      if s.tail.Null? then s.Goto(t, Crashed)
      else s.Write(s.tail.node, s.F(s.tail.node).(next := Ref(x))).Goto(t, Pushing(x, lh, LinkPrev))
    case LinkPrev =>
      s.Write(x, s.F(x).(prev := s.tail)).Goto(t, Pushing(x, lh, LinkTail))
    case LinkTail =>
      s.(tail := Ref(x)).Goto(t, Pushing(x, lh, ClearNext))
    case ClearNext =>
      s.Write(x, s.F(x).(next := Null)).Goto(t, Pushing(x, lh, Owner))
    case Owner =>
      s.Write(x, s.F(x).(owned := true))
       .Goto(t, Pushing(x, lh, if o.CountLast? then Count else if lh then DropHead else DropTail))
    case DropHead =>
      s.(headLock := Free).Goto(t, Pushing(x, lh, DropTail))
    case DropTail =>
      s.(tailLock := Free).Return(t, Enq(x))
  }

  function PopStep(s: State, t: Tid, i: Ptr, lt: bool, at: PopAt): State {
    match at
    case Begin =>
      if s.count == 0 then s.Linearize(t, Deq(Null)).Return(t, Deq(Null))
      else s.Goto(t, Popping(i, lt, AwaitHead))
    case AwaitHead =>
      s.(headLock := HeldBy(t)).Goto(t, Popping(i, lt, Decide))
    case Decide =>
      s.Goto(t, Popping(i, lt, if s.count < 2 then AwaitTail else Check))
    case AwaitTail =>
      s.(tailLock := HeldBy(t)).Goto(t, Popping(i, true, Check))
    case Check =>
      if s.count == 0 || s.tail.Null? || s.head.Null? then
        s.Linearize(t, Deq(Null)).Goto(t, Popping(Null, lt, FreeHead))
      else
        s.Goto(t, Popping(i, lt, Discount))
    case Discount =>
      s.(count := s.count - 1).Linearize(t, Deq(s.head)).Goto(t, Popping(i, lt, Read))
    case Read =>
      if s.head.Null? || !s.F(s.head.node).owned then s.Goto(t, Popping(Null, lt, FreeHead))
      else s.Goto(t, Popping(s.head, lt, if s.head == s.tail then NullHead else CutPrev))
    case NullHead =>
      s.(head := Null).Goto(t, Popping(i, lt, NullTail))
    case NullTail =>
      s.(tail := Null).Goto(t, Popping(i, lt, ForgetNext))
    case CutPrev =>
      if i.Null? || s.F(i.node).next.Null? then s.Goto(t, Crashed)
      else
        var n := s.F(i.node).next.node;
        s.Write(n, s.F(n).(prev := Null)).Goto(t, Popping(i, lt, MoveHead))
    case MoveHead =>
      if i.Null? then s.Goto(t, Crashed)
      else s.(head := s.F(i.node).next).Goto(t, Popping(i, lt, ForgetNext))
    case ForgetNext =>
      if i.Null? then s.Goto(t, Crashed)
      else s.Write(i.node, s.F(i.node).(next := Null)).Goto(t, Popping(i, lt, ForgetOwner))
    case ForgetOwner =>
      if i.Null? then s.Goto(t, Crashed)
      else s.Write(i.node, s.F(i.node).(owned := false)).Goto(t, Popping(i, lt, FreeHead))
    case FreeHead =>
      var s1 := s.(headLock := Free);
      if lt then s1.Goto(t, Popping(i, lt, FreeTail)) else s1.Return(t, Deq(i))
    case FreeTail =>
      s.(tailLock := Free).Return(t, Deq(i))
  }

  /** A schedule: who steps next, and how. */
  type Schedule = seq<(Tid, Act)>

  /** The k-th step of a run is enabled and leads from its k-th state to the next. */
  ghost predicate StepAt(o: Order, states: seq<State>, w: Schedule, k: nat)
    requires k < |w| && |states| == |w| + 1
  {
    Enabled(states[k], w[k].0, w[k].1) && states[k + 1] == Step(o, states[k], w[k].0, w[k].1)
  }

  /** A run: the states that a schedule goes through. */
  ghost predicate IsRun(o: Order, states: seq<State>, w: Schedule) {
    |states| == |w| + 1 && forall k :: 0 <= k < |w| ==> StepAt(o, states, w, k)
  }

  predicate By(w: Schedule, threads: set<Tid>) {
    forall k :: 0 <= k < |w| ==> w[k].0 in threads
  }
}
