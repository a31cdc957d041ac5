/**
  The code's order, in which `ItemCount` is incremented before the item is linked: a starved
  popper always leads to a lost item, any two threads can produce one, and one thread cannot.
 */
module QueueBreaks {
  import opened QueueMachine
  import opened QueueInvariant
  import opened QueueSteps
  import opened QueueSafety
  import opened QueueHistory
  import opened QueueRuns
  import opened Sequences

  /** Some run of the given threads leads from one state to another. */
  ghost predicate Leads(o: Order, s: State, s': State, threads: set<Tid>) {
    exists states: seq<State>, w: Schedule ::
      IsRun(o, states, w) && By(w, threads) && states[0] == s && states[|w|] == s'
  }

  lemma LeadsSelf(o: Order, s: State, threads: set<Tid>)
    ensures Leads(o, s, s, threads)
  {
    var w: Schedule := [];
    assert IsRun(o, [s], w) && By(w, threads);
  }

  lemma Take(o: Order, s0: State, s: State, threads: set<Tid>, t: Tid, a: Act)
    requires Leads(o, s0, s, threads) && t in threads && Enabled(s, t, a)
    ensures Leads(o, s0, Step(o, s, t, a), threads)
  {
    hide Enabled, Step;
    var states: seq<State>, w: Schedule :|
      IsRun(o, states, w) && By(w, threads) && states[0] == s0 && states[|w|] == s;
    var states', w' := states + [Step(o, s, t, a)], w + [(t, a)];
    forall k: nat | k < |w'| ensures StepAt(o, states', w', k) {
      if k < |w| { assert StepAt(o, states, w, k); }
    }
    assert IsRun(o, states', w') && By(w', threads);
  }

  /** n steps of thread t, inside the operation it is in. */
  function Go(o: Order, s: State, t: Tid, n: nat): State
    decreases n
  {
    if n == 0 then s else Go(o, Step(o, s, t, Run), t, n - 1)
  }

  ghost predicate CanGo(o: Order, s: State, t: Tid, n: nat)
    decreases n
  {
    n == 0 || (Enabled(s, t, Run) && CanGo(o, Step(o, s, t, Run), t, n - 1))
  }

  lemma {:induction false} GoLeads(o: Order, s0: State, s: State, threads: set<Tid>, t: Tid, n: nat)
    requires Leads(o, s0, s, threads) && t in threads && CanGo(o, s, t, n)
    ensures Leads(o, s0, Go(o, s, t, n), threads)
    decreases n
  {
    hide Step, Enabled;
    if n > 0 {
      Take(o, s0, s, threads, t, Run);
      GoLeads(o, s0, Step(o, s, t, Run), threads, t, n - 1);
    }
  }

  lemma PopGo(o: Order, s: State, t: Tid, i: Ptr, lt: bool, at: PopAt, n: nat) returns (s': State)
    requires s.Pc(t) == Popping(i, lt, at)
    requires (at.AwaitHead? ==> s.headLock.Free?) && (at.AwaitTail? ==> s.tailLock.Free?)
    ensures s' == PopStep(s, t, i, lt, at)
    ensures CanGo(o, s', t, n) ==> CanGo(o, s, t, n + 1)
    ensures Go(o, s, t, n + 1) == Go(o, s', t, n)
  {
    s' := PopStep(s, t, i, lt, at);
  }

  lemma PushGo(o: Order, s: State, t: Tid, x: Node, lh: bool, at: PushAt, n: nat) returns (s': State)
    requires s.Pc(t) == Pushing(x, lh, at)
    requires (at.WantHead? ==> s.headLock.Free?) && (at.WantTail? ==> s.tailLock.Free?)
    ensures s' == PushStep(o, s, t, x, lh, at)
    ensures CanGo(o, s', t, n) ==> CanGo(o, s, t, n + 1)
    ensures Go(o, s, t, n + 1) == Go(o, s', t, n)
  {
    s' := PushStep(o, s, t, x, lh, at);
  }

  /** A starved popper owes its count to a pusher that has announced an item and not linked it. */
  lemma StarvedBy(s: State, c: seq<Node>, t: Tid) returns (p: Tid)
    requires Inv(CountFirst, s, c) && Starved(s, t)
    ensures p != t && |c| == 1 && s.count == 2
    ensures s.tailLock == HeldBy(p) && s.headLock == HeldBy(t)
    ensures s.Pc(t) == Popping(Null, false, Decide) && s.head == s.tail == Ref(c[0])
    ensures Linking(s.Pc(p)) && !s.Pc(p).lh && !s.Pc(p).push.SetHead? && !s.Pc(p).push.SetTail?
    ensures Replay(s.lin) == Holds([c[0], s.Pc(p).x])
  {
    Roles(s, t);
    assert LockOk(s, t);
    p := s.tailLock.t;
    Roles(s, p);
    assert LockOk(s, p);
  }

  lemma OthersStay(o: Order, s: State, t: Tid, a: Act, u: Tid)
    requires u != t
    ensures Step(o, s, t, a).Pc(u) == s.Pc(u)
  {
    hide PushStep, PopStep;
    if a.Run? {
      match s.Pc(t)
      case Pushing(x, lh, at) => PushMovesOne(o, s, t, x, lh, at, u);
      case Popping(i, lt, at) => PopMovesOne(s, t, i, lt, at, u);
      case _ =>
    }
  }

  lemma PushMovesOne(o: Order, s: State, t: Tid, x: Node, lh: bool, at: PushAt, u: Tid)
    requires u != t
    ensures PushStep(o, s, t, x, lh, at).Pc(u) == s.Pc(u)
  {
  }

  lemma PopMovesOne(s: State, t: Tid, i: Ptr, lt: bool, at: PopAt, u: Tid)
    requires u != t
    ensures PopStep(s, t, i, lt, at).Pc(u) == s.Pc(u)
  {
  }

  /** With one thread there is nobody to starve it. */
  lemma {:induction false} OthersIdle(o: Order, states: seq<State>, w: Schedule, t: Tid, u: Tid, k: nat)
    requires IsRun(o, states, w) && states[0] == INIT && By(w, {t}) && u != t && k <= |w|
    ensures states[k].Pc(u) == Idle
  {
    if k > 0 {
      OthersIdle(o, states, w, t, u, k - 1);
      hide Enabled, Step;
      assert StepAt(o, states, w, k - 1) && w[k - 1].0 in {t};
      OthersStay(o, states[k - 1], t, w[k - 1].1, u);
    }
  }

  lemma {:induction false} OneThreadNeverStarves(states: seq<State>, w: Schedule, t: Tid, k: nat)
    requires IsRun(CountFirst, states, w) && states[0] == INIT && By(w, {t}) && k <= |w|
    ensures forall j :: 0 <= j < k ==> !StarvedAt(states, w, j)
  {
    if k > 0 {
      OneThreadNeverStarves(states, w, t, k - 1);
      hide Inv, Starved;
      assert w[k - 1].0 in {t};
      if StarvedAt(states, w, k - 1) {
        InitInv(CountFirst);
        var c := RunKeeps(CountFirst, states, w, [], k - 1);
        var p := StarvedBy(states[k - 1], c, t);
        OthersIdle(CountFirst, states, w, t, p, k - 1);
        assert false;
      }
    }
  }

  /** Threads other than these two stand where they stood. */
  ghost predicate SameElse(s: State, s': State, t: Tid, p: Tid) {
    forall v: Tid :: v != t && v != p ==> s'.Pc(v) == s.Pc(v)
  }

  /** What the starved popper t and the pusher p are about to do to the last linked item b. */
  ghost predicate Doomed(s: State, t: Tid, p: Tid, b: Node, x: Node) {
    && t != p && b != x
    && s.count == 2 && s.head == s.tail == Ref(b) && s.F(b).owned
    && s.headLock == HeldBy(t) && s.tailLock == HeldBy(p)
    && s.Pc(t) == Popping(Null, false, Decide) && s.Pc(p) == Pushing(x, false, LinkTail)
    && Replay(s.lin) == Holds([b, x])
  }

  lemma AboutToLink(s: State, c: seq<Node>, t: Tid, p: Tid)
    requires Inv(CountFirst, s, c) && Starved(s, t) && s.tailLock == HeldBy(p) && Linking(s.Pc(p)) && s.Pc(p).push.LinkTail?
    ensures c != [] && Doomed(s, t, p, c[0], s.Pc(p).x)
  {
    var q := StarvedBy(s, c, t);
    Roles(s, p);
    assert PrivateOk(CountFirst, s, c, p);
    assert LinkOk(s.mem, c, 0, Cut(HeadPc(s)), Half(TailPc(s)), Unowned(TailPc(s)));
  }

  /** The pusher goes on until it is about to write `tail`. */
  lemma {:induction false} PusherAdvances(s: State, c: seq<Node>, t: Tid, p: Tid) returns (n: nat)
    requires Inv(CountFirst, s, c) && Starved(s, t) && s.tailLock == HeldBy(p)
    ensures CanGo(CountFirst, s, p, n) && c != []
    ensures Doomed(Go(CountFirst, s, p, n), t, p, c[0], s.Pc(p).x)
    ensures Inv(CountFirst, Go(CountFirst, s, p, n), c) && SameElse(s, Go(CountFirst, s, p, n), t, p)
    decreases if s.Pc(p).push.Test? then 3 else if s.Pc(p).push.LinkNext? then 2 else if s.Pc(p).push.LinkPrev? then 1 else 0
  {
    var q := StarvedBy(s, c, t);
    var at := s.Pc(p).push;
    if at.LinkTail? {
      n := 0;
      AboutToLink(s, c, t, p);
    } else {
      var s' := PushGo(CountFirst, s, p, s.Pc(p).x, false, at, 0);
      PushKeeps(CountFirst, s, c, p, s.Pc(p).x, false, at);
      n := PusherAdvances(s', c, t, p);
      n := n + 1;
    }
  }

  ghost predicate PusherWaits(s: State, p: Tid, x: Node) {
    s.tailLock == HeldBy(p) && s.Pc(p) == Pushing(x, false, LinkTail)
  }

  /** The popper takes the count of the announced item for a second linked one. */
  lemma PopperCommits(s: State, t: Tid, p: Tid, b: Node, x: Node) returns (s': State)
    requires Doomed(s, t, p, b, x)
    ensures CanGo(CountFirst, s, t, 3) && s' == Go(CountFirst, s, t, 3)
    ensures PusherWaits(s', p, x) && SameElse(s, s', t, p) && s'.count == 1
    ensures s'.head == s'.tail == Ref(b) && s'.F(b).owned && s'.headLock == HeldBy(t)
    ensures s'.Pc(t) == Popping(Null, false, Read) && Replay(s'.lin) == Holds([x])
    ensures s'.lin == s.lin + [Event(t, Deq(Ref(b)))] && s'.ret == s.ret
  {
    s' := PopGo(CountFirst, s, t, Null, false, Decide, 2);
    s' := PopGo(CountFirst, s', t, Null, false, Check, 1);
    s' := PopGo(CountFirst, s', t, Null, false, Discount, 0);
    ReplaySnoc(s.lin, Event(t, Deq(Ref(b))));
  }

  /** It empties the list although the pusher is about to hang its item on the last one. */
  lemma PopperEmpties(s: State, t: Tid, p: Tid, b: Node, x: Node) returns (s': State)
    requires t != p && PusherWaits(s, p, x)
    requires s.head == s.tail == Ref(b) && s.F(b).owned && s.headLock == HeldBy(t)
    requires s.Pc(t) == Popping(Null, false, Read)
    ensures CanGo(CountFirst, s, t, 3) && s' == Go(CountFirst, s, t, 3)
    ensures PusherWaits(s', p, x) && SameElse(s, s', t, p) && s'.count == s.count
    ensures s'.head == Null && s'.headLock == HeldBy(t) && s'.lin == s.lin && s'.ret == s.ret
    ensures s'.Pc(t) == Popping(Ref(b), false, ForgetNext)
  {
    hide Step, Enabled;
    s' := PopGo(CountFirst, s, t, Null, false, Read, 2);
    s' := PopGo(CountFirst, s', t, Ref(b), false, NullHead, 1);
    s' := PopGo(CountFirst, s', t, Ref(b), false, NullTail, 0);
  }

  lemma PopperLeaves(s: State, t: Tid, p: Tid, b: Node, x: Node) returns (s': State)
    requires t != p && PusherWaits(s, p, x) && s.head == Null && s.headLock == HeldBy(t)
    requires s.Pc(t) == Popping(Ref(b), false, ForgetNext)
    ensures CanGo(CountFirst, s, t, 3) && s' == Go(CountFirst, s, t, 3)
    ensures PusherWaits(s', p, x) && SameElse(s, s', t, p) && s'.count == s.count && s'.Pc(t).Idle?
    ensures s'.head == Null && s'.headLock == Free && s'.lin == s.lin && s'.ret == s.ret + [Event(t, Deq(Ref(b)))]
  {
    hide Step, Enabled;
    s' := PopGo(CountFirst, s, t, Ref(b), false, ForgetNext, 2);
    s' := PopGo(CountFirst, s', t, Ref(b), false, ForgetOwner, 1);
    s' := PopGo(CountFirst, s', t, Ref(b), false, FreeHead, 0);
  }

  /** The pusher leaves an item behind `tail` in a list whose `head` is null: it is lost. */
  lemma PusherSetsTail(s: State, t: Tid, p: Tid, x: Node) returns (s': State)
    requires t != p && PusherWaits(s, p, x) && s.head == Null && s.headLock == Free
    ensures CanGo(CountFirst, s, p, 2) && s' == Go(CountFirst, s, p, 2)
    ensures s'.headLock == Free && s'.head == Null && s'.lin == s.lin && s'.ret == s.ret && s'.Pc(p) == Pushing(x, false, Owner)
    ensures SameElse(s, s', t, p) && s'.Pc(t) == s.Pc(t) && s'.count == s.count
  {
    hide Step, Enabled;
    s' := PushGo(CountFirst, s, p, x, false, LinkTail, 1);
    s' := PushGo(CountFirst, s', p, x, false, ClearNext, 0);
  }

  lemma PusherLeaves(s: State, t: Tid, p: Tid, x: Node) returns (s': State)
    requires t != p && s.headLock == Free && s.head == Null && s.Pc(p) == Pushing(x, false, Owner)
    ensures CanGo(CountFirst, s, p, 2) && s' == Go(CountFirst, s, p, 2)
    ensures s'.headLock == s'.tailLock == Free && s'.head == Null && s'.lin == s.lin && s'.ret == s.ret + [Event(p, Enq(x))]
    ensures SameElse(s, s', t, p) && s'.Pc(t) == s.Pc(t) && s'.Pc(p).Idle? && s'.count == s.count
  {
    hide Step, Enabled;
    s' := PushGo(CountFirst, s, p, x, false, Owner, 1);
    s' := PushGo(CountFirst, s', p, x, false, DropTail, 0);
  }

  /**
    Nobody holds a mutex, `head` is null, one item counts, and one is left of what has taken
    effect. Threads that were idle before are idle again, with all their effects returned.
   */
  ghost predicate Lost(s: State, q: State, t: Tid, p: Tid) {
    && q.headLock == q.tailLock == Free && q.head == Null && q.count == 1
    && q.Pc(t).Idle? && q.Pc(p).Idle? && SameElse(s, q, t, p)
    && Replay(q.lin).Holds? && |Replay(q.lin).q| == 1
    && (forall v: Tid :: q.Pc(v).Idle? ==> Project(q.lin, v) == Project(q.ret, v))
  }

  /** The histories after the two operations have finished. */
  lemma LostLogs(d: State, q: State, c: seq<Node>, t: Tid, p: Tid, b: Node, x: Node)
    requires Inv(CountFirst, d, c) && Doomed(d, t, p, b, x) && SameElse(d, q, t, p)
    requires q.lin == d.lin + [Event(t, Deq(Ref(b)))] && q.ret == d.ret + [Event(t, Deq(Ref(b)))] + [Event(p, Enq(x))]
    ensures forall v: Tid :: q.Pc(v).Idle? ==> Project(q.lin, v) == Project(q.ret, v)
  {
    forall v: Tid | q.Pc(v).Idle? ensures Project(q.lin, v) == Project(q.ret, v) {
      assert LogOk(CountFirst, d, c, v);
      ProjectSnoc(d.lin, Event(t, Deq(Ref(b))), v);
      ProjectSnoc(d.ret, Event(t, Deq(Ref(b))), v);
      ProjectSnoc(d.ret + [Event(t, Deq(Ref(b)))], Event(p, Enq(x)), v);
      hide Project;
      assert v != t && v != p ==> d.Pc(v) == q.Pc(v);
    }
  }

  /** From every starved state the popper and the pusher that holds `TailMutex` can lose an item. */
  lemma StarvedStateStrandsAnItem(s0: State, threads: set<Tid>, s: State, c: seq<Node>, t: Tid) returns (q: State, p: Tid)
    requires Leads(CountFirst, s0, s, threads) && Inv(CountFirst, s, c) && Starved(s, t)
    requires t in threads && s.tailLock.HeldBy? && s.tailLock.t in threads
    ensures p == s.tailLock.t && p != t && Leads(CountFirst, s0, q, threads) && Lost(s, q, t, p)
  {
    p := StarvedBy(s, c, t);
    hide Step, Enabled, Inv, Starved;
    var x := s.Pc(p).x;
    var n := PusherAdvances(s, c, t, p);
    GoLeads(CountFirst, s0, s, threads, p, n);
    var d := Go(CountFirst, s, p, n);
    hide Go, CanGo, Leads;
    var s1 := PopperCommits(d, t, p, c[0], x);
    GoLeads(CountFirst, s0, d, threads, t, 3);
    assert Replay(s1.lin) == Holds([x]);
    var s2 := PopperEmpties(s1, t, p, c[0], x);
    GoLeads(CountFirst, s0, s1, threads, t, 3);
    var s3 := PopperLeaves(s2, t, p, c[0], x);
    GoLeads(CountFirst, s0, s2, threads, t, 3);
    var s4 := PusherSetsTail(s3, t, p, x);
    GoLeads(CountFirst, s0, s3, threads, p, 2);
    q := PusherLeaves(s4, t, p, x);
    GoLeads(CountFirst, s0, s4, threads, p, 2);
    LostLogs(d, q, c, t, p, c[0], x);
  }

  /** A pop on what is left gives up, although an item is still to come. */
  lemma PopGetsLocks(q: State, t: Tid) returns (s': State)
    requires q.headLock == q.tailLock == Free && q.head == Null && q.count == 1 && q.Pc(t) == Popping(Null, false, Begin)
    ensures CanGo(CountFirst, q, t, 4) && s' == Go(CountFirst, q, t, 4)
    ensures s'.Pc(t) == Popping(Null, true, Check) && s'.head == Null && s'.lin == q.lin && s'.ret == q.ret
    ensures SameElse(q, s', t, t)
  {
    hide Step, Enabled;
    s' := PopGo(CountFirst, q, t, Null, false, Begin, 3);
    s' := PopGo(CountFirst, s', t, Null, false, AwaitHead, 2);
    s' := PopGo(CountFirst, s', t, Null, false, Decide, 1);
    s' := PopGo(CountFirst, s', t, Null, false, AwaitTail, 0);
  }

  lemma PopGivesUp(s: State, t: Tid) returns (s': State)
    requires s.Pc(t) == Popping(Null, true, Check) && s.head == Null
    ensures CanGo(CountFirst, s, t, 3) && s' == Go(CountFirst, s, t, 3)
    ensures s'.Pc(t).Idle? && s'.lin == s.lin + [Event(t, Deq(Null))] && s'.ret == s.ret + [Event(t, Deq(Null))]
    ensures SameElse(s, s', t, t)
  {
    hide Step, Enabled;
    s' := PopGo(CountFirst, s, t, Null, true, Check, 2);
    s' := PopGo(CountFirst, s', t, Null, true, FreeHead, 1);
    s' := PopGo(CountFirst, s', t, Null, true, FreeTail, 0);
  }

  /** From every starved state there is a run of the two threads whose effects are no history of a FIFO queue. */
  lemma StarvedStateLosesAnItem(s0: State, threads: set<Tid>, s: State, c: seq<Node>, t: Tid) returns (s': State)
    requires Leads(CountFirst, s0, s, threads) && Inv(CountFirst, s, c) && Starved(s, t)
    requires t in threads && s.tailLock.HeldBy? && s.tailLock.t in threads
    ensures Leads(CountFirst, s0, s', threads) && Replay(s'.lin) == Illegal
  {
    hide Step, Inv, Starved, Leads, Go, CanGo;
    var q, p := StarvedStateStrandsAnItem(s0, threads, s, c, t);
    Take(CountFirst, s0, q, threads, t, CallPop);
    var q1 := CallsPop(q, t);
    var q2 := PopGetsLocks(q1, t);
    GoLeads(CountFirst, s0, q1, threads, t, 4);
    s' := PopGivesUp(q2, t);
    GoLeads(CountFirst, s0, q2, threads, t, 3);
    ReplaySnoc(q.lin, Event(t, Deq(Null)));
  }

  lemma CallsPop(q: State, t: Tid) returns (q1: State)
    requires q.Pc(t).Idle?
    ensures Enabled(q, t, CallPop) && q1 == Step(CountFirst, q, t, CallPop)
    ensures q1 == q.(pcs := q1.pcs) && q1.Pc(t) == Popping(Null, false, Begin) && SameElse(q, q1, t, t)
  {
    q1 := Step(CountFirst, q, t, CallPop);
  }

  /** The popper goes on with `HeadMutex` alone, wherever the pusher p stands. */
  lemma PopperTakes(s: State, t: Tid, p: Tid, b: Node) returns (s': State)
    requires t != p && s.count == 2 && s.head == s.tail == Ref(b) && s.F(b).owned && s.Pc(t) == Popping(Null, false, Decide)
    ensures CanGo(CountFirst, s, t, 3) && s' == Go(CountFirst, s, t, 3)
    ensures s'.head == s'.tail == Ref(b) && s'.F(b).owned && s'.Pc(t) == Popping(Null, false, Read) && s'.Pc(p) == s.Pc(p)
  {
    hide Step, Enabled;
    s' := PopGo(CountFirst, s, t, Null, false, Decide, 2);
    s' := PopGo(CountFirst, s', t, Null, false, Check, 1);
    s' := PopGo(CountFirst, s', t, Null, false, Discount, 0);
  }

  lemma PopperClears(s: State, t: Tid, p: Tid, b: Node) returns (s': State)
    requires t != p && s.head == s.tail == Ref(b) && s.F(b).owned && s.Pc(t) == Popping(Null, false, Read)
    ensures CanGo(CountFirst, s, t, 3) && s' == Go(CountFirst, s, t, 3)
    ensures s'.tail == Null && s'.Pc(p) == s.Pc(p)
  {
    hide Step, Enabled;
    s' := PopGo(CountFirst, s, t, Null, false, Read, 2);
    s' := PopGo(CountFirst, s', t, Ref(b), false, NullHead, 1);
    s' := PopGo(CountFirst, s', t, Ref(b), false, NullTail, 0);
  }

  /** The pusher goes on until it is about to link its item behind `tail`. */
  lemma PusherFindsTail(s: State, c: seq<Node>, t: Tid) returns (n: nat, d: State)
    requires Inv(CountFirst, s, c) && Starved(s, t) && s.tailLock.HeldBy?
    requires s.Pc(s.tailLock.t).Pushing? && (s.Pc(s.tailLock.t).push.Test? || s.Pc(s.tailLock.t).push.LinkNext?)
    ensures var p := s.tailLock.t;
            && CanGo(CountFirst, s, p, n) && d == Go(CountFirst, s, p, n)
            && p != t && c != [] && d.count == 2 && d.head == d.tail == Ref(c[0]) && d.F(c[0]).owned
            && d.Pc(t) == Popping(Null, false, Decide) && d.Pc(p) == Pushing(s.Pc(p).x, false, LinkNext)
  {
    var p := StarvedBy(s, c, t);
    Roles(s, p);
    assert LinkOk(s.mem, c, 0, Cut(HeadPc(s)), Half(TailPc(s)), Unowned(TailPc(s)));
    hide Inv;
    n, d := 0, s;
    if s.Pc(p).push.Test? {
      d := PushGo(CountFirst, s, p, s.Pc(p).x, false, Test, 0);
      n := 1;
    }
  }

  lemma PusherCrashes(s: State, p: Tid, x: Node) returns (s': State)
    requires s.Pc(p) == Pushing(x, false, LinkNext) && s.tail == Null
    ensures CanGo(CountFirst, s, p, 1) && s' == Go(CountFirst, s, p, 1) && s'.Pc(p).Crashed?
  {
    hide Step, Enabled;
    s' := PushGo(CountFirst, s, p, x, false, LinkNext, 0);
  }

  /**
    From every starved state whose pusher has not yet linked its item behind `tail`, the popper
    sets `tail` to null and the pusher then writes through it.
   */
  lemma StarvedStateCrashes(s0: State, threads: set<Tid>, s: State, c: seq<Node>, t: Tid) returns (s': State)
    requires Leads(CountFirst, s0, s, threads) && Inv(CountFirst, s, c) && Starved(s, t)
    requires t in threads && s.tailLock.HeldBy? && s.tailLock.t in threads
    requires s.Pc(s.tailLock.t).Pushing? && (s.Pc(s.tailLock.t).push.Test? || s.Pc(s.tailLock.t).push.LinkNext?)
    ensures Leads(CountFirst, s0, s', threads) && s'.Pc(s.tailLock.t).Crashed?
  {
    var p := s.tailLock.t;
    var x := s.Pc(p).x;
    hide Inv, Starved, Leads, Step, Enabled;
    var n, d := PusherFindsTail(s, c, t);
    hide Go, CanGo;
    GoLeads(CountFirst, s0, s, threads, p, n);
    var e := PopperTakes(d, t, p, c[0]);
    GoLeads(CountFirst, s0, d, threads, t, 3);
    var f := PopperClears(e, t, p, c[0]);
    GoLeads(CountFirst, s0, e, threads, t, 3);
    s' := PusherCrashes(f, p, x);
    GoLeads(CountFirst, s0, f, threads, p, 1);
  }

  // ---- any two threads can get there ------------------------------------------------------

  /** Nobody else holds a mutex. */
  predicate Alone(s: State, t: Tid) {
    ByOwner(s.headLock, Free, t) && ByOwner(s.tailLock, Free, t)
  }

  function PushRank(at: PushAt): nat {
    match at
    case Load => 12 case WantHead => 11 case WantTail => 10 case Recheck => 9 case Count => 8
    case Test => 7 case SetHead => 6 case SetTail => 5 case LinkNext => 6 case LinkPrev => 5
    case LinkTail => 4 case ClearNext => 3 case Owner => 2 case DropHead => 1 case DropTail => 0
  }

  /** Where a push that runs alone goes next. */
  lemma PushControl(s: State, t: Tid, x: Node, lh: bool, at: PushAt)
    requires LockOk(s, t) && s.Pc(t) == Pushing(x, lh, at) && Alone(s, t) && (at.LinkNext? ==> s.tail.Ref?)
    requires (at.WantTail? || at.Recheck?) && !lh ==> s.count >= 2
    ensures var s' := PushStep(CountFirst, s, t, x, lh, at);
            && s'.count == s.count + (if at.Count? then 1 else 0)
            && Alone(s', t)
            && if at.DropTail? then s'.Pc(t).Idle? && s'.headLock.Free? && s'.tailLock.Free?
               else
                 var pc := s'.Pc(t);
                 && pc.Pushing? && pc.x == x && PushRank(pc.push) < PushRank(at)
                 && (PushRank(pc.push) >= 8 <==> PushRank(at) > 8)
                 && ((pc.push.WantTail? || pc.push.Recheck?) && !pc.lh ==> s'.count >= 2)
  {
  }

  /** A state of a run of t and u in which the items from k on have not been used yet. */
  ghost predicate World(s: State, c: seq<Node>, t: Tid, u: Tid, k: nat) {
    && Leads(CountFirst, INIT, s, {t, u}) && Inv(CountFirst, s, c)
    && (forall v: Tid :: v != t && v != u ==> s.Pc(v).Idle?)
    && (forall m :: m in c ==> m < k) && (forall m: nat :: m >= k ==> s.F(m) == CLEAN)
  }

  lemma WorldCall(s: State, c: seq<Node>, t: Tid, u: Tid, k: nat, a: Act)
    requires World(s, c, t, u, k) && !a.Run? && s.Pc(t).Idle? && (a.CallPush? ==> a.x == k && !Mentions(s.Pc(u), k))
    ensures World(Step(CountFirst, s, t, a), c, t, u, k + 1)
  {
    Take(CountFirst, INIT, s, {t, u}, t, a);
    CallKeeps(CountFirst, s, c, t, a);
    WorldFrame(s, Step(CountFirst, s, t, a), c, t, u);
  }

  lemma WorldFrame(s: State, s': State, c: seq<Node>, t: Tid, u: Tid)
    requires s'.pcs == s.pcs[t := s'.Pc(t)]
    requires forall v: Tid :: v != t && v != u ==> s.Pc(v).Idle?
    ensures forall v: Tid :: v != t && v != u ==> s'.Pc(v).Idle?
    ensures t != u ==> s'.Pc(u) == s.Pc(u)
    ensures s'.mem == s.mem ==> forall m :: s'.F(m) == s.F(m)
  {
    forall v: Tid | v != t && v != u ensures s'.Pc(v).Idle? {
      assert s'.Pc(v) == s.Pc(v);
    }
  }

  /** What a push finds, out of the invariant. */
  lemma PushKnows(s: State, c: seq<Node>, t: Tid)
    requires Inv(CountFirst, s, c)
    ensures Locks(s) && LockOk(s, t)
    ensures s.Pc(t).Pushing? ==> PushFacts(s, c, s.Pc(t).x, s.Pc(t).push)
  {
    Roles(s, t);
  }

  lemma WorldPush(s: State, c: seq<Node>, t: Tid, u: Tid, k: nat, x: Node, lh: bool, at: PushAt)
    requires World(s, c, t, u, k) && s.Pc(t) == Pushing(x, lh, at) && x < k && Alone(s, t)
    ensures World(PushStep(CountFirst, s, t, x, lh, at), ChainAfter(s, c, t, Run), t, u, k)
    ensures LockOk(s, t) && (at.LinkNext? ==> s.tail.Ref?)
    ensures t != u ==> PushStep(CountFirst, s, t, x, lh, at).Pc(u) == s.Pc(u)
  {
    hide Inv, Leads;
    PushKnows(s, c, t);
    Take(CountFirst, INIT, s, {t, u}, t, Run);
    assert Step(CountFirst, s, t, Run) == PushStep(CountFirst, s, t, x, lh, at);
    PushKeeps(CountFirst, s, c, t, x, lh, at);
    PushConfined(CountFirst, s, c, t, x, lh, at);
    hide PushStep, ChainAfter, Step, Locks;
    WorldFrame(s, PushStep(CountFirst, s, t, x, lh, at), c, t, u);
  }

  /** A push that runs alone finishes: it counts its item and releases both mutexes. */
  lemma PushAlone(s: State, c: seq<Node>, t: Tid, u: Tid, k: nat) returns (s': State, d: seq<Node>)
    requires World(s, c, t, u, k) && s.Pc(t).Idle? && s.headLock.Free? && s.tailLock.Free? && !Mentions(s.Pc(u), k)
    ensures World(s', d, t, u, k + 1) && s'.count == s.count + 1
    ensures s'.Pc(t).Idle? && s'.headLock.Free? && s'.tailLock.Free? && (t != u ==> s'.Pc(u) == s.Pc(u))
  {
    WorldCall(s, c, t, u, k, CallPush(k));
    s', d := Step(CountFirst, s, t, CallPush(k)), c;
    hide World, Step, PushStep, ChainAfter;
    while s'.Pc(t).Pushing?
      invariant World(s', d, t, u, k + 1) && Alone(s', t)
      invariant t != u ==> s'.Pc(u) == s.Pc(u)
      invariant s'.Pc(t).Pushing? || (s'.Pc(t).Idle? && s'.headLock.Free? && s'.tailLock.Free?)
      invariant s'.Pc(t).Pushing? ==> s'.Pc(t).x == k
      invariant s'.Pc(t).Pushing? && (s'.Pc(t).push.WantTail? || s'.Pc(t).push.Recheck?) && !s'.Pc(t).lh ==> s'.count >= 2
      invariant s'.count == s.count + (if s'.Pc(t).Pushing? && PushRank(s'.Pc(t).push) >= 8 then 0 else 1)
      decreases s'.Pc(t).Pushing?, if s'.Pc(t).Pushing? then PushRank(s'.Pc(t).push) else 0
    {
      var pc := s'.Pc(t);
      WorldPush(s', d, t, u, k + 1, k, pc.lh, pc.push);
      PushControl(s', t, k, pc.lh, pc.push);
      s', d := PushStep(CountFirst, s', t, k, pc.lh, pc.push), ChainAfter(s', d, t, Run);
    }
  }

  /** A push that has two items before it runs until it has announced its own, with `TailMutex` only. */
  lemma PushAnnounces(s: State, c: seq<Node>, t: Tid, u: Tid, k: nat) returns (s': State, d: seq<Node>)
    requires World(s, c, t, u, k) && t != u && s.Pc(t).Idle? && s.headLock.Free? && s.tailLock.Free? && !Mentions(s.Pc(u), k)
    requires s.count >= 2
    ensures World(s', d, t, u, k + 1) && s'.count == s.count + 1 && s'.Pc(u) == s.Pc(u)
    ensures s'.headLock.Free? && s'.tailLock == HeldBy(t) && s'.Pc(t) == Pushing(k, false, Test)
  {
    hide World;
    WorldCall(s, c, t, u, k, CallPush(k));
    var s1 := Step(CountFirst, s, t, CallPush(k));
    WorldPush(s1, c, t, u, k + 1, k, false, Load);
    var s2 := PushStep(CountFirst, s1, t, k, false, Load);
    WorldPush(s2, c, t, u, k + 1, k, false, WantTail);
    var s3 := PushStep(CountFirst, s2, t, k, false, WantTail);
    WorldPush(s3, c, t, u, k + 1, k, false, Recheck);
    var s4 := PushStep(CountFirst, s3, t, k, false, Recheck);
    WorldPush(s4, c, t, u, k + 1, k, false, Count);
    s', d := PushStep(CountFirst, s4, t, k, false, Count), c;
  }

  function PopRank(at: PopAt): nat {
    match at
    case Begin => 12 case AwaitHead => 11 case Decide => 10 case AwaitTail => 9 case Check => 8
    case Discount => 7 case Read => 6 case NullHead => 5 case NullTail => 4 case CutPrev => 5
    case MoveHead => 4 case ForgetNext => 3 case ForgetOwner => 2 case FreeHead => 1 case FreeTail => 0
  }

  /** A pop by t beside a pusher u that holds `TailMutex` and has announced its item. */
  predicate Beside(s: State, t: Tid, u: Tid) {
    && t != u && ByOwner(s.headLock, Free, t) && s.tailLock == HeldBy(u)
    && s.Pc(u).Pushing? && !s.Pc(u).lh && s.Pc(u).push.Test?
  }

  lemma BesideKnows(s: State, c: seq<Node>, t: Tid, u: Tid)
    requires Inv(CountFirst, s, c) && Beside(s, t, u) && s.Pc(t).Popping? && !s.Pc(t).pop.AwaitTail?
    ensures LockOk(s, t) && PopSure(s, c, t, s.Pc(t).i, s.Pc(t).lt, s.Pc(t).pop)
    ensures PopFacts(s, c, s.Pc(t).i, s.Pc(t).lt, s.Pc(t).pop) && Locks(s)
    ensures HoldsHead(s.Pc(t)) ==> s.count == (if Taking(s.Pc(t)) then |c| else |c| + 1)
    ensures s.Pc(t).pop.Decide? || s.Pc(t).pop.Check? || s.Pc(t).pop.Read? ==> (s.head == s.tail <==> |c| == 1)
    ensures s.Pc(t).pop.Check? ==> s.head.Ref? && s.tail.Ref?
    ensures s.Pc(t).pop.NullHead? || s.Pc(t).pop.NullTail? ==> |c| == 1 && s.Pc(t).lt
  {
    Roles(s, t);
    Roles(s, u);
    assert LockOk(s, t) && LockOk(s, u);
    PopKnows(CountFirst, s, c, t, s.Pc(t).i, s.Pc(t).lt, s.Pc(t).pop, HeadPc(s), TailPc(s));
  }

  /** Where a pop with at least two linked items goes next beside such a pusher. */
  lemma PopControl(s: State, t: Tid, i: Ptr, lt: bool, at: PopAt)
    requires LockOk(s, t) && s.Pc(t) == Popping(i, lt, at) && !lt && s.count >= 2 && !at.AwaitTail? && !at.FreeTail?
    requires at.Check? ==> s.head.Ref? && s.tail.Ref?
    requires at.Read? ==> s.head.Ref? && s.F(s.head.node).owned && s.head != s.tail
    requires at.CutPrev? ==> i.Ref? && s.F(i.node).next.Ref?
    requires at.MoveHead? || at.ForgetNext? || at.ForgetOwner? ==> i.Ref?
    ensures var s' := PopStep(s, t, i, lt, at);
            && s'.count == s.count - (if at.Discount? then 1 else 0) && s'.tailLock == s.tailLock
            && if at.FreeHead? then s'.Pc(t).Idle? && s'.headLock.Free?
               else
                 var pc := s'.Pc(t);
                 && pc.Popping? && !pc.lt && PopRank(pc.pop) < PopRank(at) && !pc.pop.AwaitTail? && !pc.pop.FreeTail?
                 && !(pc.pop.NullHead? && at.Read?) && (PopRank(pc.pop) >= 7 <==> PopRank(at) > 7)
  {
  }

  lemma WorldPop(s: State, c: seq<Node>, t: Tid, u: Tid, k: nat, i: Ptr, lt: bool, at: PopAt)
    requires World(s, c, t, u, k) && s.Pc(t) == Popping(i, lt, at) && Enabled(s, t, Run) && !Starved(s, t) && t != u
    requires Locks(s) && PopFacts(s, c, i, lt, at)
    requires at.CutPrev? ==> s.F(i.node).next.Ref?
    ensures World(PopStep(s, t, i, lt, at), ChainAfter(s, c, t, Run), t, u, k)
    ensures PopStep(s, t, i, lt, at).Pc(u) == s.Pc(u)
  {
    hide Inv, Leads;
    Take(CountFirst, INIT, s, {t, u}, t, Run);
    assert Step(CountFirst, s, t, Run) == PopStep(s, t, i, lt, at);
    PopKeeps(CountFirst, s, c, t, i, lt, at);
    PopConfined(CountFirst, s, c, t, i, lt, at);
    PopOwn(s, c, t, i, lt, at, k);
    hide PopStep, ChainAfter, Step, Locks, Starved, PopFacts;
    WorldFrame(s, PopStep(s, t, i, lt, at), c, t, u);
  }

  /** What a popper has unlinked is one of the items used so far. */
  lemma PopOwn(s: State, c: seq<Node>, t: Tid, i: Ptr, lt: bool, at: PopAt, k: nat)
    requires Inv(CountFirst, s, c) && s.Pc(t) == Popping(i, lt, at) && forall m: nat :: m >= k ==> s.F(m) == CLEAN
    ensures Private(CountFirst, s.Pc(t)).Ref? && (at.ForgetNext? || at.ForgetOwner?) ==> Private(CountFirst, s.Pc(t)).node < k
  {
    assert PrivateOk(CountFirst, s, c, t);
  }

  lemma WorldInv(s: State, c: seq<Node>, t: Tid, u: Tid, k: nat)
    requires World(s, c, t, u, k)
    ensures Inv(CountFirst, s, c) && Leads(CountFirst, INIT, s, {t, u}) && World(s, c, u, t, k)
  {
    hide Inv, Leads;
    assert {t, u} == {u, t};
  }

  lemma NotStarved(s: State, t: Tid)
    requires s.Pc(t).Popping? && s.Pc(t).pop.Decide? ==> s.head != s.tail
    ensures !Starved(s, t)
  {
  }

  /** A pop beside the pusher gets as far as its decision about `TailMutex`. */
  lemma PopStarts(s: State, c: seq<Node>, t: Tid, u: Tid, k: nat) returns (s': State)
    requires World(s, c, t, u, k) && Beside(s, t, u) && s.headLock.Free? && s.Pc(t).Idle? && s.count >= 2
    ensures World(s', c, t, u, k + 1) && Beside(s', t, u) && s'.Pc(t) == Popping(Null, false, Decide) && s'.count == s.count
  {
    WorldCall(s, c, t, u, k, CallPop);
    var s1 := Step(CountFirst, s, t, CallPop);
    hide World;
    WorldInv(s1, c, t, u, k + 1);
    BesideKnows(s1, c, t, u);
    WorldPop(s1, c, t, u, k + 1, Null, false, Begin);
    s' := PopStep(s1, t, Null, false, Begin);
    WorldInv(s', c, t, u, k + 1);
    BesideKnows(s', c, t, u);
    WorldPop(s', c, t, u, k + 1, Null, false, AwaitHead);
    s' := PopStep(s', t, Null, false, AwaitHead);
  }

  /** Beside the pusher a pop takes an item with `HeadMutex` alone and leaves one item linked. */
  lemma PopBeside(s: State, c: seq<Node>, t: Tid, u: Tid, k: nat) returns (s': State, d: seq<Node>)
    requires World(s, c, t, u, k) && Beside(s, t, u) && s.headLock.Free? && s.Pc(t).Idle? && s.count == 3
    ensures World(s', d, t, u, k + 1) && Beside(s', t, u) && s'.headLock.Free? && s'.Pc(t).Idle? && s'.count == 2
  {
    s' := PopStarts(s, c, t, u, k);
    d := c;
    hide World, Step, PopStep, ChainAfter, Inv, Leads, Starved;
    while s'.Pc(t).Popping?
      invariant World(s', d, t, u, k + 1) && Beside(s', t, u)
      invariant s'.Pc(t).Popping? || (s'.Pc(t).Idle? && s'.headLock.Free?)
      invariant s'.Pc(t).Popping? ==>
        !s'.Pc(t).lt && !s'.Pc(t).pop.AwaitTail? && !s'.Pc(t).pop.FreeTail? && PopRank(s'.Pc(t).pop) <= 10
      invariant s'.count == if s'.Pc(t).Popping? && PopRank(s'.Pc(t).pop) >= 7 then 3 else 2
      decreases s'.Pc(t).Popping?, if s'.Pc(t).Popping? then PopRank(s'.Pc(t).pop) else 0
    {
      var pc := s'.Pc(t);
      WorldInv(s', d, t, u, k + 1);
      BesideKnows(s', d, t, u);
      NotStarved(s', t);
      WorldPop(s', d, t, u, k + 1, pc.i, pc.lt, pc.pop);
      PopControl(s', t, pc.i, pc.lt, pc.pop);
      s', d := PopStep(s', t, pc.i, pc.lt, pc.pop), ChainAfter(s', d, t, Run);
    }
  }

  lemma WorldInit(t: Tid, u: Tid)
    ensures World(INIT, [], t, u, 0)
  {
    InitInv(CountFirst);
    LeadsSelf(CountFirst, INIT, {t, u});
  }

  // ---- a run that has no linearization ---------------------------------------------------------

  /** All operations have returned, and one item remains of them. */
  ghost predicate OneRemains(s: State) {
    && (forall v: Tid :: s.Pc(v).Idle? && Project(s.lin, v) == Project(s.ret, v))
    && Replay(s.lin).Holds? && |Replay(s.lin).q| == 1
  }

  /** A history with a pop that was called after all others had returned has that pop at its end. */
  lemma LateIsLast(s: State, h: seq<Event>, t: Tid, e: Event)
    requires (forall v: Tid :: s.Pc(v).Idle?) && InOrder(s, h) && e.t == t
    requires forall v: Tid :: Project(h, v) == Project(s.ret, v) + if v == t then [e.op] else []
    ensures h != [] && h[|h| - 1] == e
  {
    var m := |Project(s.ret, t)|;
    assert |Project(h, t)| == m + 1 && Project(h, t)[m] == e.op && Called(s, t) == m;
    var last := |h| - 1;
    var n := EventIs(h, last);
    var v := h[last].t;
    assert Project(h, v) == Project(s.ret, v) + if v == t then [e.op] else [];
    hide Project, InOrder, Position, Called;
    if n < Returned(s, v) {
      OrderAt(s, h, v, n, t, m);
    }
    assert v == t && n == m;
  }

  lemma OrderAt(s: State, h: seq<Event>, t: Tid, n: nat, u: Tid, m: nat)
    requires InOrder(s, h) && n < Returned(s, t) && n < |Project(h, t)| && Called(s, u) <= m < |Project(h, u)|
    ensures Position(h, t, n) < Position(h, u, m)
  {
  }

  /** Then the history is not legal, if an item remains of the others. */
  lemma LatePopIsIllegal(s: State, h: seq<Event>, t: Tid)
    requires OneRemains(s) && InOrder(s, h)
    requires forall v: Tid :: Project(h, v) == Project(s.ret, v) + if v == t then [Deq(Null)] else []
    ensures Replay(h) == Illegal
  {
    var e := Event(t, Deq(Null));
    LateIsLast(s, h, t, e);
    var g := h[..|h| - 1];
    assert h == g + [e];
    forall v: Tid ensures Project(g, v) == Project(s.lin, v) {
      assert Project(h, v) == Project(s.ret, v) + if v == t then [Deq(Null)] else [];
      ProjectSnoc(g, e, v);
      CancelLast(Project(g, v), Project(s.ret, v), if v == t then [Deq(Null)] else []);
    }
    SameOperationsSameNet(g, s.lin);
    NetIsLength(s.lin);
    if Replay(g).Holds? {
      NetIsLength(g);
    }
    ReplaySnoc(g, e);
  }

  lemma NoLinearization(states: seq<State>, i: nat, k: nat, t: Tid)
    requires i <= k < |states| && OneRemains(states[i])
    requires (forall v: Tid :: states[k].Pc(v).Idle?) && states[k].ret == states[i].ret + [Event(t, Deq(Null))]
    ensures !HasLinearization(states, k)
  {
    forall h ensures !IsLinearization(states, k, h) {
      if IsLinearization(states, k, h) {
        forall v: Tid ensures Project(h, v) == Project(states[i].ret, v) + if v == t then [Deq(Null)] else [] {
          assert Project(states[k].ret, v) <= Project(h, v) && |Project(h, v)| <= Called(states[k], v);
          ProjectSnoc(states[i].ret, Event(t, Deq(Null)), v);
        }
        LatePopIsIllegal(states[i], h, t);
      }
    }
  }

  lemma RunTakes(o: Order, states: seq<State>, w: Schedule, t: Tid, a: Act) returns (states': seq<State>, w': Schedule)
    requires IsRun(o, states, w) && Enabled(states[|w|], t, a)
    ensures w' == w + [(t, a)] && states' == states + [Step(o, states[|w|], t, a)] && IsRun(o, states', w')
  {
    states', w' := states + [Step(o, states[|w|], t, a)], w + [(t, a)];
    hide Enabled, Step;
    forall k: nat | k < |w'| ensures StepAt(o, states', w', k) {
      if k < |w| { assert StepAt(o, states, w, k); }
    }
  }

  lemma {:induction false} RunGoes(o: Order, states: seq<State>, w: Schedule, t: Tid, n: nat) returns (states': seq<State>, w': Schedule)
    requires IsRun(o, states, w) && CanGo(o, states[|w|], t, n)
    ensures IsRun(o, states', w') && states <= states' && w <= w' && states'[|w'|] == Go(o, states[|w|], t, n)
    ensures forall k :: |w| <= k < |w'| ==> w'[k].0 == t
    decreases n
  {
    states', w' := states, w;
    if n > 0 {
      var s := states[|w|];
      assert Enabled(s, t, Run) && CanGo(o, Step(o, s, t, Run), t, n - 1) && Go(o, s, t, n) == Go(o, Step(o, s, t, Run), t, n - 1);
      hide Enabled, Step, Go, CanGo, StepAt;
      var ss, ww := RunTakes(o, states, w, t, Run);
      assert ss[|ww|] == Step(o, s, t, Run) && ww[|w|].0 == t;
      hide IsRun;
      states', w' := RunGoes(o, ss, ww, t, n - 1);
      assert w' != [] && |ww| == |w| + 1;
    }
  }

  /** The pop that finds nothing, at the end of a run after which an item remains. */
  lemma LatePop(states: seq<State>, w: Schedule, t: Tid, q: State) returns (states': seq<State>, w': Schedule)
    requires IsRun(CountFirst, states, w) && states[|w|] == q && OneRemains(q)
    requires q.headLock == q.tailLock == Free && q.head == Null && q.count == 1
    ensures IsRun(CountFirst, states', w') && states <= states' && w <= w' && !HasLinearization(states', |w'|)
    ensures forall k :: |w| <= k < |w'| ==> w'[k].0 == t
  {
    hide Step, Enabled, Go, CanGo, OneRemains;
    var q1 := IdlePops(q, t);
    var s1, w1 := RunTakes(CountFirst, states, w, t, CallPop);
    var q2 := PopGetsLocks(q1, t);
    var s2, w2 := RunGoes(CountFirst, s1, w1, t, 4);
    var q3 := PopGivesUp(q2, t);
    states', w' := RunGoes(CountFirst, s2, w2, t, 3);
    assert states'[|w|] == q && states'[|w'|] == q3;
    AllIdle(q, q1, q2, q3, t);
    hide IsRun, HasLinearization;
    NoLinearization(states', |w|, |w'|, t);
  }

  lemma IdlePops(q: State, t: Tid) returns (q1: State)
    requires OneRemains(q)
    ensures Enabled(q, t, CallPop) && q1 == Step(CountFirst, q, t, CallPop)
    ensures q1 == q.(pcs := q1.pcs) && q1.Pc(t) == Popping(Null, false, Begin) && SameElse(q, q1, t, t)
  {
    q1 := CallsPop(q, t);
  }

  lemma AllIdle(q: State, q1: State, q2: State, q3: State, t: Tid)
    requires OneRemains(q) && SameElse(q, q1, t, t) && SameElse(q1, q2, t, t) && SameElse(q2, q3, t, t) && q3.Pc(t).Idle?
    ensures forall v: Tid :: q3.Pc(v).Idle?
  {
    forall v: Tid ensures q3.Pc(v).Idle? {
      assert q.Pc(v).Idle?;
      if v != t {
        assert q1.Pc(v) == q.Pc(v) && q2.Pc(v) == q1.Pc(v) && q3.Pc(v) == q2.Pc(v);
      }
    }
  }

  lemma LostRemains(s: State, q: State, t: Tid, p: Tid)
    requires Lost(s, q, t, p) && forall v: Tid :: v != t && v != p ==> s.Pc(v).Idle?
    ensures OneRemains(q)
  {
    forall v: Tid ensures q.Pc(v).Idle? {
      if v != t && v != p { assert q.Pc(v) == s.Pc(v); }
    }
  }

  /** Any two threads get from the empty queue to a starved state, whose pusher has just announced its item. */
  lemma TwoThreadsStarve(t: Tid, u: Tid) returns (s: State, c: seq<Node>)
    requires t != u
    ensures Leads(CountFirst, INIT, s, {u, t}) && Inv(CountFirst, s, c) && Starved(s, u)
    ensures s.tailLock == HeldBy(t) && s.Pc(t).Pushing? && s.Pc(t).push.Test?
    ensures forall v: Tid :: v != t && v != u ==> s.Pc(v).Idle?
  {
    WorldInit(t, u);
    hide World, Inv, Leads;
    c := [];
    s, c := PushAlone(INIT, c, t, u, 0);
    s, c := PushAlone(s, c, t, u, 1);
    s, c := PushAnnounces(s, c, t, u, 2);
    WorldInv(s, c, t, u, 3);
    s, c := PopBeside(s, c, u, t, 3);
    s := PopStarts(s, c, u, t, 4);
    WorldInv(s, c, u, t, 5);
    BesideKnows(s, c, u, t);
    WorldIdle(s, c, u, t, 5);
  }

  /** Any two threads have a run, in the code's order, from the empty queue, that has no linearization. */
  lemma TwoThreadsLoseAnItem(t: Tid, u: Tid) returns (states: seq<State>, w: Schedule)
    requires t != u
    ensures IsRun(CountFirst, states, w) && By(w, {t, u}) && states[0] == INIT && !Linearizable(states)
  {
    var s, c := TwoThreadsStarve(t, u);
    hide Inv, Leads, Lost, Starved;
    var q, p := StarvedStateStrandsAnItem(INIT, {u, t}, s, c, u);
    assert p == t;
    LostRemains(s, q, u, t);
    var states0, w0 := LeadOf(CountFirst, INIT, q, {u, t});
    LostIs(s, q, u, t);
    states, w := LatePop(states0, w0, u, q);
    hide HasLinearization, IsRun;
    assert states[0] == states0[0];
    forall k | 0 <= k < |w| ensures w[k].0 in {t, u} {
      if k < |w0| { assert w[k] == w0[k]; }
    }
    assert !HasLinearization(states, |w|) && |states| == |w| + 1 by { RunLength(CountFirst, states, w); }
  }

  /** Any two threads have a run in which one of them writes through a null `tail`. */
  lemma TwoThreadsCrash(t: Tid, u: Tid) returns (states: seq<State>, w: Schedule)
    requires t != u
    ensures IsRun(CountFirst, states, w) && By(w, {t, u}) && states[0] == INIT && states[|w|].Pc(t).Crashed?
  {
    var s, c := TwoThreadsStarve(t, u);
    hide Inv, Leads, Starved;
    var s' := StarvedStateCrashes(INIT, {u, t}, s, c, u);
    states, w := LeadOf(CountFirst, INIT, s', {u, t});
    assert {u, t} == {t, u};
  }

  lemma RunLength(o: Order, states: seq<State>, w: Schedule)
    requires IsRun(o, states, w)
    ensures |states| == |w| + 1
  {
  }

  lemma WorldIdle(s: State, c: seq<Node>, t: Tid, u: Tid, k: nat)
    requires World(s, c, t, u, k)
    ensures forall v: Tid :: v != t && v != u ==> s.Pc(v).Idle?
  {
  }

  lemma LostIs(s: State, q: State, t: Tid, p: Tid)
    requires Lost(s, q, t, p)
    ensures q.headLock == q.tailLock == Free && q.head == Null && q.count == 1
  {
  }

  lemma LeadOf(o: Order, s: State, s': State, threads: set<Tid>) returns (states: seq<State>, w: Schedule)
    requires Leads(o, s, s', threads)
    ensures IsRun(o, states, w) && By(w, threads) && states[0] == s && states[|w|] == s'
  {
    states, w :| IsRun(o, states, w) && By(w, threads) && states[0] == s && states[|w|] == s';
  }

  ghost predicate RunFromEmpty(o: Order, states: seq<State>, w: Schedule, threads: set<Tid>) {
    IsRun(o, states, w) && By(w, threads) && states[0] == INIT
  }

  /** In no run by the given threads from the empty queue does a thread follow a null pointer. */
  ghost predicate NeverCrashes(o: Order, threads: set<Tid>) {
    forall states: seq<State>, w: Schedule, k: nat, t: Tid ::
      RunFromEmpty(o, states, w, threads) && k < |states| ==> !states[k].Pc(t).Crashed?
  }

  /** Every run by the given threads from the empty queue is linearizable. */
  ghost predicate AlwaysLinearizable(o: Order, threads: set<Tid>) {
    forall states: seq<State>, w: Schedule :: RunFromEmpty(o, states, w, threads) ==> Linearizable(states)
  }

  lemma OneThreadIsLinearizable(t: Tid, threads: set<Tid>, states: seq<State>, w: Schedule)
    requires threads <= {t} && RunFromEmpty(CountFirst, states, w, threads)
    ensures Linearizable(states)
  {
    hide Good, Linearizable;
    OneThreadNeverStarves(states, w, t, |w|);
    UnstarvedRunsAreLinearizable(CountFirst, states, w);
  }

  lemma AtMostOne(threads: set<Tid>) returns (t: Tid)
    requires |threads| <= 1
    ensures threads <= {t}
  {
    t := 0;
    if threads != {} { t :| t in threads; }
    forall u | u in threads ensures u == t { SameMember(threads, u, t); }
  }

  lemma OneThreadIsGood(t: Tid, threads: set<Tid>, states: seq<State>, w: Schedule, k: nat)
    requires threads <= {t} && RunFromEmpty(CountFirst, states, w, threads) && k < |states|
    ensures Good(states[k])
  {
    hide Good, Linearizable;
    OneThreadNeverStarves(states, w, t, |w|);
    UnstarvedRunsAreLinearizable(CountFirst, states, w);
  }

  /**
    The exact condition: no run of the code's queue follows a null pointer if and only if at most
    one thread uses it.
   */
  lemma CodeQueueNeverCrashesForOneThread(threads: set<Tid>)
    ensures NeverCrashes(CountFirst, threads) <==> |threads| <= 1
  {
    hide IsRun;
    if |threads| <= 1 {
      var t := AtMostOne(threads);
      forall states: seq<State>, w: Schedule, k: nat, u: Tid | RunFromEmpty(CountFirst, states, w, threads) && k < |states|
        ensures !states[k].Pc(u).Crashed?
      {
        OneThreadIsGood(t, threads, states, w, k);
      }
    } else {
      var t, u := TwoMembers(threads);
      var states, w := TwoThreadsCrash(t, u);
      RunLength(CountFirst, states, w);
      assert RunFromEmpty(CountFirst, states, w, threads);
    }
  }

  /**
    The exact condition: the code's queue is linearizable in every run if and only if at most
    one thread uses it.
   */
  lemma CodeQueueIsLinearizableForOneThread(threads: set<Tid>)
    ensures AlwaysLinearizable(CountFirst, threads) <==> |threads| <= 1
  {
    hide Linearizable, IsRun;
    if |threads| <= 1 {
      var t := AtMostOne(threads);
      forall states: seq<State>, w: Schedule | RunFromEmpty(CountFirst, states, w, threads)
        ensures Linearizable(states)
      {
        OneThreadIsLinearizable(t, threads, states, w);
      }
    } else {
      var t, u := TwoMembers(threads);
      var states, w := TwoThreadsLoseAnItem(t, u);
      assert By(w, threads) && RunFromEmpty(CountFirst, states, w, threads);
    }
  }
}
