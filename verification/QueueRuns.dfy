/** The two-lock queue over whole runs, in the code's order and in the repaired one. */
module QueueRuns {
  import opened QueueMachine
  import opened QueueInvariant
  import opened QueueSafety
  import opened QueueHistory

  /** The linked list is exactly q: heads, tails, both links and the owner of every item. */
  ghost predicate WellLinked(s: State, q: seq<Node>) {
    && Chain(s.mem, q, false, Null, false)
    && s.head == First(q) && s.tail == Last(q) && s.count == |q|
  }

  /** What a thread that stands at pc may be in the middle of: the push of its item, or a pop. */
  predicate Fits(pc: Pc, op: Op) {
    match pc
    case Pushing(x, _, _) => op == Enq(x)
    case Popping(_, _, _) => op.Deq?
    case _ => false
  }

  /** Of the operations that have not returned, h has only those that were called. */
  ghost predicate UnderWayFits(s: State, h: seq<Event>) {
    forall t: Tid :: |Project(s.ret, t)| < |Project(h, t)| ==> Fits(s.Pc(t), Project(h, t)[|Project(s.ret, t)|])
  }

  /**
    Right so far: `lin` is a legal FIFO history, every thread's returned operations
    are its operations in `lin`, up to the one it is in the middle of, and whenever nobody
    holds a mutex the linked list is the queue that `lin` leaves.
   */
  ghost predicate Good(s: State) {
    && Replay(s.lin).Holds?
    && (forall t: Tid :: Project(s.ret, t) <= Project(s.lin, t) && |Project(s.lin, t)| <= |Project(s.ret, t)| + 1)
    && (forall t: Tid :: s.Pc(t).Idle? ==> Project(s.ret, t) == Project(s.lin, t))
    && UnderWayFits(s, s.lin)
    && (forall t: Tid :: !s.Pc(t).Crashed?)
    && (s.headLock.Free? && s.tailLock.Free? ==> WellLinked(s, Replay(s.lin).q))
  }

  lemma InvGood(o: Order, s: State, c: seq<Node>)
    requires Inv(o, s, c)
    ensures Good(s)
  {
    forall t: Tid
      ensures Project(s.ret, t) <= Project(s.lin, t) && |Project(s.lin, t)| <= |Project(s.ret, t)| + 1
      ensures s.Pc(t).Idle? ==> Project(s.ret, t) == Project(s.lin, t)
      ensures |Project(s.ret, t)| < |Project(s.lin, t)| ==> Fits(s.Pc(t), Project(s.lin, t)[|Project(s.ret, t)|])
      ensures !s.Pc(t).Crashed?
    {
      assert LogOk(o, s, c, t) && LockOk(s, t);
    }
  }

  lemma InitInv(o: Order)
    ensures Inv(o, INIT, [])
  {
    forall t: Tid ensures LockOk(INIT, t) && PrivateOk(o, INIT, [], t) && LogOk(o, INIT, [], t) {}
    forall t: Tid, u: Tid ensures Apart(o, INIT, t, u) {}
  }

  /** The k-th step of the run is that of a starved popper. */
  predicate StarvedAt(states: seq<State>, w: Schedule, k: nat)
    requires k < |w| && |states| == |w| + 1
  {
    w[k].1.Run? && Starved(states[k], w[k].0)
  }

  ghost predicate NeverStarved(states: seq<State>, w: Schedule)
    requires |states| == |w| + 1
  {
    forall k :: 0 <= k < |w| ==> !StarvedAt(states, w, k)
  }

  /** The invariant after k steps, if none of them is that of a starved popper. */
  lemma {:induction false} RunKeeps(o: Order, states: seq<State>, w: Schedule, c: seq<Node>, k: nat) returns (d: seq<Node>)
    requires IsRun(o, states, w) && Inv(o, states[0], c) && k <= |w|
    requires forall j :: 0 <= j < k ==> !StarvedAt(states, w, j)
    ensures Inv(o, states[k], d)
  {
    if k == 0 {
      d := c;
    } else {
      var e := RunKeeps(o, states, w, c, k - 1);
      assert StepAt(o, states, w, k - 1) && !StarvedAt(states, w, k - 1);
      hide Step, Inv, Enabled;
      StepKeeps(o, states[k - 1], e, w[k - 1].0, w[k - 1].1);
      d := ChainAfter(states[k - 1], e, w[k - 1].0, w[k - 1].1);
    }
  }

  // ---- linearizability ------------------------------------------------------------------------

  /** How many operations of the thread have returned, and how many it has called. */
  function Returned(s: State, t: Tid): nat {
    |Project(s.ret, t)|
  }

  function Called(s: State, t: Tid): nat {
    Returned(s, t) + if s.Pc(t).Idle? then 0 else 1
  }

  /** In h, what has returned in the state s comes before what has not been called in it. */
  ghost predicate InOrder(s: State, h: seq<Event>) {
    forall t: Tid, n: nat, u: Tid, m: nat ::
      n < Returned(s, t) && n < |Project(h, t)| && Called(s, u) <= m < |Project(h, u)|
      ==> Position(h, t, n) < Position(h, u, m)
  }

  /**
    h is a linearization of the run up to state k: a legal history of a FIFO queue, with every
    operation that has returned and its result, perhaps some of those that are under way, and no
    other, in which no operation stands before one that had returned when it was called.
   */
  ghost predicate IsLinearization(states: seq<State>, k: nat, h: seq<Event>)
    requires k < |states|
  {
    && Replay(h).Holds?
    && (forall t: Tid :: Project(states[k].ret, t) <= Project(h, t) && |Project(h, t)| <= Called(states[k], t))
    && UnderWayFits(states[k], h)
    && (forall i :: 0 <= i <= k ==> InOrder(states[i], h))
  }

  ghost predicate HasLinearization(states: seq<State>, k: nat)
    requires k < |states|
  {
    exists h :: IsLinearization(states, k, h)
  }

  ghost predicate Linearizable(states: seq<State>) {
    forall k :: 0 <= k < |states| ==> HasLinearization(states, k)
  }

  lemma StepGrows(o: Order, s: State, t: Tid, a: Act)
    ensures s.lin <= Step(o, s, t, a).lin
  {
    if a.Run? {
      match s.Pc(t)
      case Pushing(x, lh, at) => assert s.lin <= PushStep(o, s, t, x, lh, at).lin;
      case Popping(i, lt, at) => assert s.lin <= PopStep(s, t, i, lt, at).lin;
      case _ =>
    }
  }

  /** What has taken effect stays where it is. */
  lemma {:induction false} HistoryGrows(o: Order, states: seq<State>, w: Schedule, i: nat, k: nat)
    requires IsRun(o, states, w) && i <= k <= |w|
    ensures states[i].lin <= states[k].lin
    decreases k
  {
    if i < k {
      HistoryGrows(o, states, w, i, k - 1);
      assert StepAt(o, states, w, k - 1);
      hide Step, Enabled;
      StepGrows(o, states[k - 1], w[k - 1].0, w[k - 1].1);
    }
  }

  /** The effects so far separate what has returned from what has not been called. */
  lemma GoodInOrder(s: State, h: seq<Event>)
    requires Good(s) && s.lin <= h
    ensures InOrder(s, h)
  {
    forall t: Tid, n: nat, u: Tid, m: nat | n < Returned(s, t) && n < |Project(h, t)| && Called(s, u) <= m < |Project(h, u)|
      ensures Position(h, t, n) < Position(h, u, m)
    {
      assert Project(s.ret, t) <= Project(s.lin, t);
      assert |Project(s.lin, u)| <= Called(s, u);
      PositionPrefix(s.lin, h, t, n);
      PositionPrefix(s.lin, h, u, m);
    }
  }

  lemma GoodIsLinearizable(o: Order, states: seq<State>, w: Schedule)
    requires IsRun(o, states, w) && forall k :: 0 <= k <= |w| ==> Good(states[k])
    ensures Linearizable(states)
  {
    forall k | 0 <= k < |states| ensures HasLinearization(states, k) {
      var h := states[k].lin;
      forall i | 0 <= i <= k ensures InOrder(states[i], h) {
        HistoryGrows(o, states, w, i, k);
        hide Good, IsRun;
        GoodInOrder(states[i], h);
      }
      assert Good(states[k]);
      hide InOrder, WellLinked;
      assert IsLinearization(states, k, h);
    }
  }

  /** Either order: every run without a starved popper is linearizable, for any number of threads. */
  lemma UnstarvedRunsAreLinearizable(o: Order, states: seq<State>, w: Schedule)
    requires IsRun(o, states, w) && states[0] == INIT && NeverStarved(states, w)
    ensures (forall k :: 0 <= k <= |w| ==> Good(states[k])) && Linearizable(states)
  {
    hide Good, Inv;
    InitInv(o);
    forall k | 0 <= k <= |w| ensures Good(states[k]) {
      var c := RunKeeps(o, states, w, [], k);
      InvGood(o, states[k], c);
    }
    hide IsRun, Linearizable;
    GoodIsLinearizable(o, states, w);
  }

  /** The holder of `TailMutex` can step, without one the holder of `HeadMutex`, and without both anyone. */
  lemma SomeoneCanStep(o: Order, s: State, c: seq<Node>, t: Tid) returns (u: Tid)
    requires Inv(o, s, c) && !s.Pc(t).Idle?
    ensures Enabled(s, u, Run)
  {
    u := if s.tailLock.HeldBy? then s.tailLock.t else if s.headLock.HeldBy? then s.headLock.t else t;
    assert LockOk(s, u);
  }

  /** Either order: in a run without a starved popper, as long as an operation is under way some thread can go on. */
  lemma UnstarvedRunsNeverBlock(o: Order, states: seq<State>, w: Schedule, k: nat)
    requires IsRun(o, states, w) && states[0] == INIT && NeverStarved(states, w) && k <= |w|
    ensures (forall t: Tid :: states[k].Pc(t).Idle?) || exists u: Tid :: Enabled(states[k], u, Run)
  {
    hide Inv, Enabled;
    InitInv(o);
    var c := RunKeeps(o, states, w, [], k);
    if t: Tid :| !states[k].Pc(t).Idle? {
      var u := SomeoneCanStep(o, states[k], c, t);
    }
  }

  /** In the repaired order a popper that reads two items has two linked items before it. */
  lemma RepairedNeverStarves(s: State, c: seq<Node>, t: Tid)
    requires Inv(CountLast, s, c)
    ensures !Starved(s, t)
  {
    Roles(s, t);
  }

  lemma {:induction false} RepairedRunsAreUnstarved(states: seq<State>, w: Schedule, k: nat)
    requires IsRun(CountLast, states, w) && states[0] == INIT && k <= |w|
    ensures forall j :: 0 <= j < k ==> !StarvedAt(states, w, j)
  {
    if k > 0 {
      RepairedRunsAreUnstarved(states, w, k - 1);
      hide Inv, Starved;
      InitInv(CountLast);
      var c := RunKeeps(CountLast, states, w, [], k - 1);
      RepairedNeverStarves(states[k - 1], c, w[k - 1].0);
    }
  }

  /** Repaired order: every run of any number of threads is linearizable. */
  lemma RepairedQueueIsLinearizable(states: seq<State>, w: Schedule)
    requires IsRun(CountLast, states, w) && states[0] == INIT
    ensures (forall k :: 0 <= k <= |w| ==> Good(states[k])) && Linearizable(states)
  {
    hide Good, Linearizable;
    RepairedRunsAreUnstarved(states, w, |w|);
    UnstarvedRunsAreLinearizable(CountLast, states, w);
  }
}
