/** Polls and the timer wheel together: the timeouts of Deal are what the wheel's scan delivers. */
module PollTimers {
  import opened Sequences
  import opened PollSpec
  import opened PollSafety
  import PollRuns
  import opened TimerSpec
  import opened TimerExact
  import opened TimerRuns

  /** The polls, the wheel that holds their timer nodes, and the deadlines that the nodes stand for. */
  datatype Timed = Timed(p: Polls, w: Wheel<MsgId>, due: map<MsgId, int>)

  /** The timer nodes in the wheel are those of the parked polls without an event, each in the bucket of its deadline. */
  ghost predicate Joined(t: Timed) {
    Inv(t.p) && Tracks(t.w, t.due) && t.due.Keys == t.p.timers
  }

  /** The timeout of `poll` in milliseconds; a negative one asks for no timeout. */
  function TimeoutMs(timeout: int): nat {
    if timeout < 0 then 0x7FFF_FFFF_FFFF_FFFF else timeout
  }

  ghost function Start(t: Timed, m: MsgId, fds: seq<Fd>, accepts: set<Fd>, timeout: int): Timed
    requires t.w.Shaped()
  {
    Timed(Poll(t.p, m, fds, accepts), Insert(t.w, m, TimeoutMs(timeout)), t.due[m := t.w.last + Delay(t.w.size, TimeoutMs(timeout))])
  }

  /** `pollPerpare` with its cancellation. */
  ghost function Note(t: Timed, e: Event): Timed
    requires t.w.Shaped()
  {
    if e.msg !in t.p.polls then t
    else if t.p.polls[e.msg].IsRemoveFromTimeoutList then t.(p := Prepare(t.p, e))
    else Timed(Prepare(t.p, e), Cancel(t.w, e.msg), t.due - {e.msg})
  }

  ghost function NoteAll(t: Timed, batch: seq<Event>): (r: Timed)
    requires t.w.Shaped()
    ensures r.w.Shaped() && r.w.last == t.w.last && r.w.size == t.w.size && r.p == PrepareAll(t.p, batch)
  {
    if batch == [] then t else Note(NoteAll(t, batch[..|batch| - 1]), batch[|batch| - 1])
  }

  /** Deal with the scan of the code, or the repaired one, and the timeouts that it delivers. */
  ghost function Wake(repaired: bool, t: Timed, batch: seq<Event>, now: nat): (Timed, seq<MsgId>)
    requires t.w.Shaped() && t.w.last <= now
  {
    var r := NoteAll(t, batch);
    var (w, out) := WheelStep(repaired, r.w, Tick(now));
    (Timed(ExpireAll(CallbackAll(r.p, batch), out), w, TimerExact.Left(r.due, out)), out)
  }

  // ---- one timer node for each poll that waits ---------------------------------------------------

  /** A parked poll has its timer node in exactly one bucket, once, unless it has been cancelled; no other poll has one. */
  lemma OneBucketUnlessCancelled(t: Timed, m: MsgId)
    requires Joined(t)
    ensures m in t.p.timers <==> exists b: nat :: InBucket(t.w, b, m)
    ensures forall b: nat, c: nat :: InBucket(t.w, b, m) && InBucket(t.w, c, m) ==> b == c
    ensures forall b :: 0 <= b < t.w.size ==> NoRepeat(t.w.buckets[b])
  {
    hide Home, Inv;
    if m in t.p.timers {
      assert InBucket(t.w, Home(t.w, t.due[m]), m);
    }
  }

  /** The state of the timers after the events of a batch have been noted. */
  lemma {:induction false} NotesTrack(t: Timed, batch: seq<Event>)
    requires Tracks(t.w, t.due) && t.due.Keys == t.p.timers
    ensures var r := NoteAll(t, batch);
            && Tracks(r.w, r.due) && r.due.Keys == r.p.timers
            && forall m :: m in r.due ==> m in t.due && r.due[m] == t.due[m]
  {
    if batch != [] {
      var b, e := batch[..|batch| - 1], batch[|batch| - 1];
      NotesTrack(t, b);
      var r := NoteAll(t, b);
      CancelTracks(r.w, r.due, e.msg);
      hide Tracks, Cancel, PrepareAll;
    }
  }

  // ---- what a scan hands to Deal --------------------------------------------------------------------

  /** The answer of a scan in terms of deadlines: nothing early, nothing twice, and what is left stays. */
  ghost predicate ScanOk(w: Wheel<MsgId>, due: map<MsgId, int>, now: nat, w': Wheel<MsgId>, out: seq<MsgId>) {
    && NoRepeat(out) && (forall m :: m in out ==> m in due && due[m] <= now)
    && Tracks(w', TimerExact.Left(due, out)) && w'.last == now && w'.size == w.size
  }

  lemma RepairedScanOk(w: Wheel<MsgId>, due: map<MsgId, int>, now: nat)
    requires Tracks(w, due) && OnTime(w, due) && w.last <= now
    ensures var (w', out) := RepairedScan(w, now);
            ScanOk(w, due, now, w', out) && OnTime(w', TimerExact.Left(due, out)) && forall m :: m in out <==> m in due && due[m] <= now
  {
    var (w', out) := RepairedScan(w, now);
    RepairedNoRepeat(w, due, now);
    RepairedTracks(w, due, now);
    forall m: MsgId ensures m in out <==> m in due && due[m] <= now {
      RepairedDelivers(w, due, now, m);
    }
    hide Tracks, OnTime, Ahead, Passes, Passed;
    assert TimerExact.Left(due, out) == due - DueBy(due, now);
  }

  lemma CodeScanOk(w: Wheel<MsgId>, due: map<MsgId, int>, now: nat)
    requires Tracks(w, due) && w.last <= now
    ensures var (w', out) := Scan(w, now);
            ScanOk(w, due, now, w', out)
  {
    ScanNeverEarly(w, due, now);
    ScanFields(w, now);
    var (w', out) := Scan(w, now);
    hide Tracks, Scan;
    forall m | m in out ensures m in due && due[m] <= now {
      assert m in Elems(out);
    }
  }

  /** When its scan covers what is due, the code delivers exactly that. */
  lemma CoveringScanOk(w: Wheel<MsgId>, due: map<MsgId, int>, now: nat)
    requires Tracks(w, due) && OnTime(w, due) && w.last <= now && Covers(w, now)
    ensures var (w', out) := Scan(w, now);
            OnTime(w', TimerExact.Left(due, out)) && forall m :: m in out <==> m in due && due[m] <= now
  {
    StepRefines(false, w, due, Tick(now));
    var (w', out) := Scan(w, now);
    hide Tracks, Scan, Covers, OnTime;
    forall m ensures m in out <==> m in due && due[m] <= now {
      assert m in out <==> m in Elems(out);
    }
    assert TimerExact.Left(due, out) == due - DueBy(due, now);
  }

  lemma WheelScanOk(repaired: bool, w: Wheel<MsgId>, due: map<MsgId, int>, now: nat)
    requires Tracks(w, due) && w.last <= now && (repaired ==> OnTime(w, due))
    ensures var (w', out) := WheelStep(repaired, w, Tick(now));
            && ScanOk(w, due, now, w', out)
            && (OnTime(w, due) && Fit(repaired, w, Tick(now)) ==>
                  OnTime(w', TimerExact.Left(due, out)) && forall m :: m in out <==> m in due && due[m] <= now)
  {
    if repaired {
      RepairedScanOk(w, due, now);
    } else {
      CodeScanOk(w, due, now);
      if OnTime(w, due) && Covers(w, now) {
        CoveringScanOk(w, due, now);
      }
    }
    hide Tracks, Scan, RepairedScan, ScanOk, OnTime, Covers;
  }

  // ---- Deal with its own timeouts ---------------------------------------------------------------------

  /** What Deal does when its timeouts come from the wheel. */
  ghost predicate Woken(repaired: bool, t: Timed, batch: seq<Event>, now: nat, t': Timed, out: seq<MsgId>)
    requires t.w.Shaped() && t.w.last <= now
  {
    && PollRuns.CanDeal(t.p, batch, out) && t'.p == Deal(t.p, batch, out)
    && PollRuns.Dealt(t.p, batch, out, t'.p) && Joined(t') && t'.w.last == now && t'.w.size == t.w.size
    && (forall m :: m in out ==> m in t.p.timers && m in t.due && t.due[m] <= now)
    && (OnTime(t.w, t.due) && Fit(repaired, NoteAll(t, batch).w, Tick(now)) ==>
          && OnTime(t'.w, t'.due)
          && forall m :: m in t.due && t.due[m] <= now && !InBatch(batch, m) ==> m in out)
  }

  /** No poll that timed out has an event, and none had been cancelled: the wheel no longer holds it. */
  lemma WheelCanDeal(t: Timed, batch: seq<Event>, out: seq<MsgId>)
    requires Joined(t) && Reported(t.p.interest, batch) && NoRepeat(out)
    requires forall m :: m in out ==> m in NoteAll(t, batch).due
    ensures PollRuns.CanDeal(t.p, batch, out)
  {
    NotesTrack(t, batch);
  }

  lemma NotedDue(t: Timed, batch: seq<Event>)
    requires Joined(t) && Reported(t.p.interest, batch)
    ensures forall m :: m in NoteAll(t, batch).due <==> m in t.p.timers && !InBatch(batch, m)
    ensures forall m :: m in NoteAll(t, batch).due ==> m in t.due && NoteAll(t, batch).due[m] == t.due[m]
    ensures Tracks(NoteAll(t, batch).w, NoteAll(t, batch).due)
  {
    NotesTrack(t, batch);
    PreparePhase(t.p, batch);
    hide Inv, Tracks, PrepareAll, NoteAll, Prepared;
    forall m ensures CountOf(batch, m) > 0 <==> InBatch(batch, m) { CountIn(batch, m); }
  }

  /**
    Deal, with nothing assumed of its timeouts: they are what the scan delivers. Each poll is made
    ready once, by an event or by its timeout and never by both, no timeout comes before its
    deadline, and the wheel holds the timer nodes of exactly the polls that wait on. A scan that
    covers what is due leaves no poll waiting beyond its deadline.
   */
  lemma DealWakesOnce(repaired: bool, t: Timed, batch: seq<Event>, now: nat)
    requires Joined(t) && Reported(t.p.interest, batch) && t.w.last <= now && (repaired ==> OnTime(t.w, t.due))
    ensures var (t', out) := Wake(repaired, t, batch, now);
            Woken(repaired, t, batch, now, t', out)
  {
    var r := NoteAll(t, batch);
    var (t', out) := Wake(repaired, t, batch, now);
    var w' := WheelStep(repaired, r.w, Tick(now)).0;
    WakeIs(repaired, t, batch, now);
    NotedDue(t, batch);
    assert OnTime(t.w, t.due) ==> OnTime(r.w, r.due);
    WheelScanOk(repaired, r.w, r.due, now);
    assert forall m :: m in out ==> m in r.due && r.due[m] <= now;
    assert NoRepeat(out) && Tracks(w', TimerExact.Left(r.due, out)) && w'.last == now && w'.size == r.w.size == t.w.size;
    hide *;
    WheelCanDeal(t, batch, out);
    PollRuns.DealReleasesOnce(t.p, batch, out);
    DealtTimers(t.p, batch, out, t'.p);
    DealJoins(t, batch, r, t', out);
    WokenBy(repaired, t, batch, now, r, t', out);
  }

  lemma WakeIs(repaired: bool, t: Timed, batch: seq<Event>, now: nat)
    requires t.w.Shaped() && t.w.last <= now
    ensures var r := NoteAll(t, batch);
            var (w, out) := WheelStep(repaired, r.w, Tick(now));
            var (t', out') := Wake(repaired, t, batch, now);
            out' == out && t' == Timed(Deal(t.p, batch, out), w, TimerExact.Left(r.due, out))
  {
  }

  lemma DealJoins(t: Timed, batch: seq<Event>, r: Timed, t': Timed, out: seq<MsgId>)
    requires Inv(t'.p) && Tracks(t'.w, TimerExact.Left(r.due, out)) && t'.due == TimerExact.Left(r.due, out)
    requires forall m :: m in r.due <==> m in t.p.timers && !InBatch(batch, m)
    requires forall m :: m in t'.p.timers <==> m in t.p.timers && !InBatch(batch, m) && m !in out
    ensures Joined(t')
  {
    hide Inv, Tracks, InBatch;
  }

  lemma WokenBy(repaired: bool, t: Timed, batch: seq<Event>, now: nat, r: Timed, t': Timed, out: seq<MsgId>)
    requires t.w.Shaped() && t.w.last <= now && r == NoteAll(t, batch)
    requires PollRuns.CanDeal(t.p, batch, out) && t'.p == Deal(t.p, batch, out)
    requires PollRuns.Dealt(t.p, batch, out, t'.p) && Joined(t') && t'.w.last == now && t'.w.size == t.w.size
    requires forall m :: m in out ==> m in r.due && r.due[m] <= now
    requires forall m :: m in r.due <==> m in t.p.timers && !InBatch(batch, m)
    requires forall m :: m in r.due ==> m in t.due && r.due[m] == t.due[m]
    requires t.due.Keys == t.p.timers
    requires OnTime(t.w, t.due) && Fit(repaired, r.w, Tick(now)) ==> OnTime(t'.w, t'.due) && forall m :: m in out <==> m in r.due && r.due[m] <= now
    ensures Woken(repaired, t, batch, now, t', out)
  {
    hide PollRuns.CanDeal, PollRuns.Dealt, Deal, NoteAll, Joined, OnTime, Fit, InBatch;
  }

  lemma DealtTimers(p: Polls, batch: seq<Event>, expired: seq<MsgId>, d: Polls)
    requires PollRuns.Dealt(p, batch, expired, d)
    ensures forall m :: m in d.timers <==> m in p.timers && !InBatch(batch, m) && m !in expired
  {
  }

  // ---- poll, return and runs ---------------------------------------------------------------------------

  /** A poll files its timer node under its deadline; one without a timeout is woken after a turn of the wheel. */
  lemma StartJoins(t: Timed, m: MsgId, fds: seq<Fd>, accepts: set<Fd>, timeout: int)
    requires Joined(t) && m !in t.p.polls && t.w.size <= 0x7FFF_FFFF_FFFF_FFFF
    ensures var t' := Start(t, m, fds, accepts, timeout);
            && Joined(t') && (OnTime(t.w, t.due) ==> OnTime(t'.w, t'.due)) && t'.w.last == t.w.last && t'.w.size == t.w.size
            && t'.due[m] == t.w.last + if timeout <= 0 || timeout > t.w.size then t.w.size else timeout
  {
    PollRuns.PollKeeps(t.p, m, fds, accepts);
    InsertTracks(t.w, t.due, m, TimeoutMs(timeout));
    hide Inv, Tracks, Insert, Poll;
    var t' := Start(t, m, fds, accepts, timeout);
    assert t'.p.timers == t.p.timers + {m} by { PollTimersAre(t.p, m, fds, accepts); }
    assert Inv(t'.p);
  }

  lemma PollTimersAre(p: Polls, m: MsgId, fds: seq<Fd>, accepts: set<Fd>)
    ensures Poll(p, m, fds, accepts).timers == p.timers + {m}
  {
  }

  datatype Step =
    | DoPoll(m: MsgId, fds: seq<Fd>, accepts: set<Fd>, timeout: int)
    | DoDeal(batch: seq<Event>, now: nat)
    | DoReturn

  /** The scan of Deal comes to an end. */
  ghost predicate Ends(repaired: bool, w: Wheel<MsgId>, now: nat)
    requires w.Shaped() && w.last <= now
  {
    repaired || !Hangs(w.pos, w.size, Target(w, now))
  }

  ghost predicate Can(repaired: bool, t: Timed, s: Step) {
    t.w.Shaped() &&
    match s
    case DoPoll(m, _, _, _) => m !in t.p.polls
    case DoDeal(batch, now) => Reported(t.p.interest, batch) && t.w.last <= now && Ends(repaired, NoteAll(t, batch).w, now)
    case DoReturn => t.p.ready != [] && t.p.ready[0] in t.p.polls
  }

  ghost function Do(repaired: bool, t: Timed, s: Step): Timed
    requires Can(repaired, t, s)
  {
    match s
    case DoPoll(m, fds, accepts, timeout) => Start(t, m, fds, accepts, timeout)
    case DoDeal(batch, now) => Wake(repaired, t, batch, now).0
    case DoReturn => t.(p := Return(t.p).0)
  }

  /** The step of the polls alone, with the timeouts that the wheel delivers. */
  ghost function Erase(repaired: bool, t: Timed, s: Step): PollRuns.Step
    requires Can(repaired, t, s)
  {
    match s
    case DoPoll(m, fds, accepts, _) => PollRuns.DoPoll(m, fds, accepts)
    case DoDeal(batch, now) => PollRuns.DoDeal(batch, Wake(repaired, t, batch, now).1)
    case DoReturn => PollRuns.DoReturn
  }

  /** Joined, on a wheel of a size that fits a timeout, and with the repaired scan also on time. */
  ghost predicate Sound(repaired: bool, t: Timed) {
    Joined(t) && t.w.size <= 0x7FFF_FFFF_FFFF_FFFF && (repaired ==> OnTime(t.w, t.due))
  }

  lemma StepErases(repaired: bool, t: Timed, s: Step)
    requires Sound(repaired, t) && Can(repaired, t, s)
    ensures Sound(repaired, Do(repaired, t, s))
    ensures PollRuns.Can(t.p, Erase(repaired, t, s)) && Do(repaired, t, s).p == PollRuns.Do(t.p, Erase(repaired, t, s))
  {
    match s
    case DoPoll(m, fds, accepts, timeout) =>
      StartJoins(t, m, fds, accepts, timeout);
      hide Joined, OnTime, Poll, Insert, Delay;
    case DoDeal(batch, now) =>
      hide Inv, Tracks, OnTime, Wake, PollRuns.Dealt, PollRuns.CanDeal, Deal;
      DealWakesOnce(repaired, t, batch, now);
    case DoReturn =>
      PollRuns.ReturnKeeps(t.p);
      hide Inv, Tracks, OnTime;
  }

  ghost predicate IsRun(repaired: bool, states: seq<Timed>, steps: seq<Step>) {
    && |states| == |steps| + 1
    && states[0].p == Polls(map[], map[], {}, []) && Sound(repaired, states[0])
    && forall k :: 0 <= k < |steps| ==> Can(repaired, states[k], steps[k]) && states[k + 1] == Do(repaired, states[k], steps[k])
  }

  lemma LastStep(repaired: bool, states: seq<Timed>, steps: seq<Step>)
    requires IsRun(repaired, states, steps) && steps != []
    ensures var n := |steps| - 1;
            && |states| == n + 2 && IsRun(repaired, states[..n + 1], steps[..n]) && states[..n + 1][n] == states[n]
            && Can(repaired, states[n], steps[n]) && states[n + 1] == Do(repaired, states[n], steps[n])
  {
    hide Can, Do, Sound;
  }

  function PollsOf(states: seq<Timed>): (ps: seq<Polls>)
    ensures |ps| == |states| && forall k :: 0 <= k < |states| ==> ps[k] == states[k].p
  {
    seq(|states|, k requires 0 <= k < |states| => states[k].p)
  }

  /** The steps of a run can be taken, and these are what they are for the polls alone. */
  ghost predicate Erased(repaired: bool, states: seq<Timed>, steps: seq<Step>, erased: seq<PollRuns.Step>)
    requires |states| == |steps| + 1
  {
    && |erased| == |steps|
    && forall k :: 0 <= k < |steps| ==> Can(repaired, states[k], steps[k]) && erased[k] == Erase(repaired, states[k], steps[k])
  }

  lemma ErasedSnoc(repaired: bool, states: seq<Timed>, steps: seq<Step>, n: nat, before: seq<PollRuns.Step>)
    requires |states| == n + 2 && |steps| == n + 1 && Erased(repaired, states[..n + 1], steps[..n], before) && Can(repaired, states[n], steps[n])
    ensures Erased(repaired, states, steps, before + [Erase(repaired, states[n], steps[n])])
  {
    hide Can, Erase;
    forall k | 0 <= k < n ensures Can(repaired, states[k], steps[k]) && before[k] == Erase(repaired, states[k], steps[k]) {
      assert states[..n + 1][k] == states[k] && steps[..n][k] == steps[k];
    }
  }

  lemma RunSnoc(states: seq<Timed>, n: nat, before: seq<PollRuns.Step>, e: PollRuns.Step)
    requires |states| == n + 2 && |before| == n && PollRuns.IsRun(PollsOf(states[..n + 1]), before)
    requires PollRuns.Can(states[n].p, e) && states[n + 1].p == PollRuns.Do(states[n].p, e)
    ensures PollRuns.IsRun(PollsOf(states), before + [e])
  {
    hide PollRuns.Can, PollRuns.Do;
    var ps, qs := PollsOf(states), PollsOf(states[..n + 1]);
    forall k | 0 <= k <= n ensures ps[k] == qs[k] { assert states[..n + 1][k] == states[k]; }
    hide PollsOf;
    forall k | 0 <= k < n ensures PollRuns.Can(ps[k], before[k]) && ps[k + 1] == PollRuns.Do(ps[k], before[k]) {
      assert PollRuns.Can(qs[k], before[k]);
    }
  }

  /** The polls along a run are a run of the polls alone, with the timeouts that the wheel delivers. */
  lemma {:induction false} RunErases(repaired: bool, states: seq<Timed>, steps: seq<Step>) returns (erased: seq<PollRuns.Step>)
    requires IsRun(repaired, states, steps)
    ensures |states| == |steps| + 1 && Sound(repaired, states[|steps|]) && Erased(repaired, states, steps, erased)
    ensures PollRuns.IsRun(PollsOf(states), erased)
    decreases |steps|
  {
    if steps == [] {
      erased := [];
      hide Sound;
    } else {
      var n := |steps| - 1;
      LastStep(repaired, states, steps);
      hide *;
      var before := RunErases(repaired, states[..n + 1], steps[..n]);
      assert |before| == n by { ErasedLength(repaired, states[..n + 1], steps[..n], before); }
      StepErases(repaired, states[n], steps[n]);
      var e := Erase(repaired, states[n], steps[n]);
      ErasedSnoc(repaired, states, steps, n, before);
      RunSnoc(states, n, before, e);
      erased := before + [e];
    }
  }

  lemma ErasedLength(repaired: bool, states: seq<Timed>, steps: seq<Step>, erased: seq<PollRuns.Step>)
    requires |states| == |steps| + 1 && Erased(repaired, states, steps, erased)
    ensures |erased| == |steps|
  {
  }

  /**
    In every run of polls, Deals and returns over the wheel, with the code's scan or the repaired
    one: a poll was made ready as often as it was started, less one while it waits, whatever the
    wheel delivered; polls return in the order in which they were made ready; and a poll waits
    exactly while the wheel holds its timer node.
   */
  lemma EveryTimedPollIsReadyOnce(repaired: bool, states: seq<Timed>, steps: seq<Step>) returns (erased: seq<PollRuns.Step>)
    requires IsRun(repaired, states, steps)
    ensures var t := states[|steps|];
            && PollRuns.IsRun(PollsOf(states), erased) && Erased(repaired, states, steps, erased)
            && Joined(t) && (repaired ==> OnTime(t.w, t.due))
            && PollRuns.MadeReady(erased) == PollRuns.Returned(PollsOf(states), erased) + t.p.ready
            && forall m :: multiset(PollRuns.Started(erased))[m] == multiset(PollRuns.MadeReady(erased))[m] + PollRuns.Once(m, t.p.timers)
  {
    erased := RunErases(repaired, states, steps);
    PollRuns.EveryPollIsReadyOnce(PollsOf(states), erased);
    hide Joined, OnTime, PollRuns.IsRun, Can, Erase;
  }
}
