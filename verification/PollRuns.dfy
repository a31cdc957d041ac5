/** Runs of poll, Deal and return: each parked poll is made ready exactly once. */
module PollRuns {
  import opened Sequences
  import opened PollSpec
  import opened PollSafety

  // ---- what is left after the second phase ---------------------------------------------------

  lemma {:induction false} DroppedIs(interest: map<Fd, Interest>, polls: map<MsgId, PollMessage>, s: seq<MsgId>, fd: Fd)
    ensures fd in Dropped(interest, polls, s) <==>
              fd in interest && forall k :: 0 <= k < |s| && s[k] in polls ==> fd !in FdSet(polls[s[k]].fds)
    ensures fd in Dropped(interest, polls, s) ==> Dropped(interest, polls, s)[fd] == interest[fd]
  {
    if s != [] {
      DroppedIs(interest, polls, s[..|s| - 1], fd);
    }
  }

  lemma {:induction false} NoneNonZero(s: seq<nat>)
    requires NonZero(s) == 0
    ensures s == Zeros(|s|)
  {
    if s != [] {
      NoneNonZero(s[..|s| - 1]);
      assert s[..|s| - 1] == Zeros(|s| - 1);
      assert forall k :: 0 <= k < |s| - 1 ==> s[k] == s[..|s| - 1][k];
    }
  }

  /** A waiting poll without an event in the batch is still parked, one with an event is released. */
  lemma SettledPoll(p: Polls, batch: seq<Event>, m: MsgId)
    requires Inv(p) && Reported(p.interest, batch) && m in p.timers
    ensures m in PrepareAll(p, batch).polls
    ensures var pm := Called(PrepareAll(p, batch).polls[m], batch, |batch|, m);
            && pm.fds == p.polls[m].fds
            && (if InBatch(batch, m) then Released(pm) else Parked(pm))
            && (pm.IsTasktimeout <==> false)
            && forall j :: 0 <= j < |batch| && batch[j].msg == m ==> Shows(pm, batch[j])
  {
    PreparePhase(p, batch);
    CountIn(batch, m);
    assert batch[..|batch|] == batch;
    var pm := PrepareAll(p, batch).polls[m];
    assert Prepared(pm, p.polls[m].fds, batch, m);
    if !InBatch(batch, m) {
      NoneNonZero(pm.revents);
    }
  }

  /** A poll record and its descriptors after the callbacks of a batch. */
  ghost predicate SettledOne(before: PollMessage, after: PollMessage, batch: seq<Event>, m: MsgId) {
    && after.fds == before.fds && !after.IsTasktimeout
    && (if InBatch(batch, m) then Released(after) else Parked(after))
    && forall j :: 0 <= j < |batch| && batch[j].msg == m ==> Shows(after, batch[j])
  }

  /** No descriptor of the poll is registered. */
  predicate Unregistered(interest: map<Fd, Interest>, pm: PollMessage) {
    FdSet(pm.fds) !! interest.Keys
  }

  predicate Restricts(small: map<Fd, Interest>, big: map<Fd, Interest>) {
    small.Keys <= big.Keys && forall fd :: fd in small ==> small[fd] == big[fd]
  }

  /** The state after the callbacks of a batch, told from the state before the batch. */
  ghost predicate Settled(p: Polls, batch: seq<Event>, c: Polls) {
    && c.polls.Keys == p.polls.Keys && p.timers <= p.polls.Keys
    && (forall m :: m in c.polls ==>
         if m in p.timers then SettledOne(p.polls[m], c.polls[m], batch, m) else c.polls[m] == p.polls[m])
    && c.ready == p.ready + Finished(batch, |batch|)
    && (forall m :: m in c.timers <==> m in p.timers && !InBatch(batch, m))
    && Restricts(c.interest, p.interest)
    && (forall m :: InBatch(batch, m) ==> m in p.timers && Unregistered(c.interest, c.polls[m]))
  }

  lemma EventsSettlePolls(p: Polls, batch: seq<Event>)
    requires Inv(p) && Reported(p.interest, batch)
    ensures var c := CallbackAll(PrepareAll(p, batch), batch);
            && c.polls.Keys == p.polls.Keys
            && forall m :: m in c.polls ==>
                 if m in p.timers then SettledOne(p.polls[m], c.polls[m], batch, m) else c.polls[m] == p.polls[m]
  {
    PreparePhase(p, batch);
    CallbackPhase(p, batch, |batch|);
    assert batch[..|batch|] == batch;
    forall m | m in p.timers
      ensures SettledOne(p.polls[m], CallbackAll(PrepareAll(p, batch), batch).polls[m], batch, m)
    {
      SettledPoll(p, batch, m);
    }
  }

  lemma EventsSettleQueue(p: Polls, batch: seq<Event>)
    requires Inv(p) && Reported(p.interest, batch)
    ensures var c := CallbackAll(PrepareAll(p, batch), batch);
            && c.ready == p.ready + Finished(batch, |batch|)
            && (forall m :: m in c.timers <==> m in p.timers && !InBatch(batch, m))
            && Restricts(c.interest, p.interest)
  {
    var r := PrepareAll(p, batch);
    PreparePhase(p, batch);
    CallbackPhase(p, batch, |batch|);
    assert batch[..|batch|] == batch;
    hide Inv, Reported, CallbackAll, PrepareAll, Finished, Prepared, Called;
    forall m ensures CountOf(batch, m) > 0 <==> InBatch(batch, m) { CountIn(batch, m); }
    forall fd ensures fd in Dropped(r.interest, r.polls, Finished(batch, |batch|)) ==>
                        fd in r.interest && Dropped(r.interest, r.polls, Finished(batch, |batch|))[fd] == r.interest[fd]
    {
      DroppedIs(r.interest, r.polls, Finished(batch, |batch|), fd);
    }
  }

  lemma EventsSettle(p: Polls, batch: seq<Event>)
    requires Inv(p) && Reported(p.interest, batch)
    ensures Settled(p, batch, CallbackAll(PrepareAll(p, batch), batch))
  {
    EventsSettlePolls(p, batch);
    EventsSettleQueue(p, batch);
    forall m | InBatch(batch, m)
      ensures m in p.timers && Unregistered(CallbackAll(PrepareAll(p, batch), batch).interest, CallbackAll(PrepareAll(p, batch), batch).polls[m])
    {
      var k :| 0 <= k < |batch| && batch[k].msg == m;
      EventIsWaitedFor(p, batch[k]);
      hide *;
      EventsUnregister(p, batch, m);
    }
  }

  lemma EventsUnregister(p: Polls, batch: seq<Event>, m: MsgId)
    requires Inv(p) && Reported(p.interest, batch) && InBatch(batch, m) && m in p.timers
    ensures var c := CallbackAll(PrepareAll(p, batch), batch);
            m in c.polls && Unregistered(c.interest, c.polls[m])
  {
    var r := PrepareAll(p, batch);
    PreparePhase(p, batch);
    CallbackPhase(p, batch, |batch|);
    assert batch[..|batch|] == batch;
    FinishedIs(batch, |batch|, m);
    var f := Finished(batch, |batch|);
    var k :| 0 <= k < |f| && f[k] == m;
    hide Inv, Reported, InterestOk, Finished, CallbackAll, PrepareAll, InBatch, CountOf, Prepared;
    forall fd | fd in FdSet(r.polls[m].fds) ensures fd !in Dropped(r.interest, r.polls, f) {
      DroppedIs(r.interest, r.polls, f, fd);
    }
  }

  lemma EventsKeepInterest(p: Polls, batch: seq<Event>, c: Polls)
    requires Inv(p) && Settled(p, batch, c)
    ensures InterestOk(c)
  {
    hide Finished, InBatch, Released, Shows;
    forall fd | fd in c.interest
      ensures c.interest[fd].msg in c.timers && c.interest[fd].entry == FirstEntry(c.polls[c.interest[fd].msg].fds, fd)
                                             && c.interest[fd].entry < |c.polls[c.interest[fd].msg].fds|
    {
      var m := p.interest[fd].msg;
      assert m in p.timers && fd in FdSet(p.polls[m].fds);
      assert SettledOne(p.polls[m], c.polls[m], batch, m);
    }
  }

  lemma EventsKeepReady(p: Polls, batch: seq<Event>, c: Polls)
    requires Inv(p) && Settled(p, batch, c)
    ensures NoRepeat(c.ready)
    ensures forall m :: m in c.ready <==> m in p.ready || InBatch(batch, m)
  {
    FinishedExactly(batch);
    hide Finished, InterestOk, Released, SettledOne, Restricts, Unregistered;
    assert forall m :: m in p.ready ==> m !in p.timers;
    assert forall m :: InBatch(batch, m) ==> m in p.timers;
    assert NoRepeat(p.ready);
    hide Inv, Settled, InBatch;
    NoRepeatConcat(p.ready, Finished(batch, |batch|));
  }

  /** After the callbacks the invariant holds again. */
  lemma EventsKeep(p: Polls, batch: seq<Event>, c: Polls)
    requires Inv(p) && Settled(p, batch, c)
    ensures Inv(c)
  {
    EventsKeepInterest(p, batch, c);
    EventsKeepReady(p, batch, c);
    hide Finished, InBatch, Released, Shows, InterestOk, FirstEntry, FdSet, Restricts, Unregistered, Parked;
    forall m | m in c.polls && m in p.timers ensures SettledOne(p.polls[m], c.polls[m], batch, m) {}
  }

  // ---- third phase: the timeouts ------------------------------------------------------------------

  /** The state after the timeouts s, told from the state before them. */
  ghost predicate Expired(c: Polls, s: seq<MsgId>, d: Polls) {
    && d.polls.Keys == c.polls.Keys
    && d.ready == c.ready + s
    && (forall m :: m in d.timers <==> m in c.timers && m !in s)
    && Restricts(d.interest, c.interest)
    && (forall m :: m in c.polls ==>
         if m in s then TimedOut(c.polls[m], d.polls[m], d.interest) else d.polls[m] == c.polls[m])
  }

  ghost predicate TimedOut(before: PollMessage, after: PollMessage, interest: map<Fd, Interest>) {
    after == before.(IsTasktimeout := true) && Unregistered(interest, after)
  }

  lemma ExpireKeeps(p: Polls, m: MsgId)
    requires Inv(p) && m in p.timers
    ensures Inv(Expire(p, m)) && Expired(p, [m], Expire(p, m))
  {
    var x := Expire(p, m);
    NonZeroZeros(|p.polls[m].fds|);
    assert Released(x.polls[m]);
    assert InterestOk(x);
    hide InterestOk, Released, FirstEntry;
    forall j, k | 0 <= j < k < |x.ready|
      ensures x.ready[j] != x.ready[k]
    {
      if j < |p.ready| == k {
        assert p.ready[j] in p.ready;
      }
    }
  }

  lemma ExpiredThen(c: Polls, b: seq<MsgId>, d: Polls, m: MsgId, x: Polls)
    requires Expired(c, b, d) && Expired(d, [m], x) && m !in b
    ensures Expired(c, b + [m], x)
  {
    assert c.ready + b + [m] == c.ready + (b + [m]);
    assert x.interest.Keys <= d.interest.Keys;
    forall k | k in b && k in c.polls ensures TimedOut(c.polls[k], x.polls[k], x.interest) {
      assert k in d.polls && k !in [m] && k in x.polls;
      assert TimedOut(c.polls[k], d.polls[k], d.interest);
    }
  }

  lemma {:induction false} ExpireAllKeeps(c: Polls, s: seq<MsgId>)
    requires Inv(c) && NoRepeat(s) && (forall k :: 0 <= k < |s| ==> s[k] in c.timers)
    ensures Inv(ExpireAll(c, s)) && Expired(c, s, ExpireAll(c, s))
  {
    if s != [] {
      var b, m := s[..|s| - 1], s[|s| - 1];
      ExpireAllKeeps(c, b);
      assert s == b + [m] && m !in b;
      ExpireKeeps(ExpireAll(c, b), m);
      hide Inv, Expire;
      ExpiredThen(c, b, ExpireAll(c, b), m, ExpireAll(c, s));
      hide Expired;
    }
  }

  // ---- Deal, poll and return --------------------------------------------------------------------

  /** What Deal is handed: a batch of the kernel, and tasks that the wheel still holds after the first phase. */
  ghost predicate CanDeal(p: Polls, batch: seq<Event>, expired: seq<MsgId>) {
    && Reported(p.interest, batch) && NoRepeat(expired)
    && forall k :: 0 <= k < |expired| ==> expired[k] in PrepareAll(p, batch).timers
  }

  /** A poll that Deal made ready, by an event or by its timeout, told from its record before. */
  ghost predicate ReleasedBy(before: PollMessage, after: PollMessage, byEvent: bool, byTimeout: bool, interest: map<Fd, Interest>) {
    && after.fds == before.fds && Unregistered(interest, after)
    && byEvent != byTimeout
    && (after.IsJoinActiveList <==> byEvent) && (after.IsTasktimeout <==> byTimeout)
  }

  /** What Deal does to the queue, the timers and the polls. */
  ghost predicate Dealt(p: Polls, batch: seq<Event>, expired: seq<MsgId>, d: Polls) {
    && d.polls.Keys == p.polls.Keys
    && d.ready == p.ready + (Finished(batch, |batch|) + expired)
    && NoRepeat(Finished(batch, |batch|) + expired)
    && (forall m :: m in d.timers <==> m in p.timers && !InBatch(batch, m) && m !in expired)
    && (forall m :: m in Finished(batch, |batch|) + expired <==> m in p.timers && m !in d.timers)
    && (forall m :: m in p.polls && m in p.timers && m !in d.timers ==>
         ReleasedBy(p.polls[m], d.polls[m], InBatch(batch, m), m in expired, d.interest))
    && (forall j :: 0 <= j < |batch| ==> batch[j].msg in d.polls && Shows(d.polls[batch[j].msg], batch[j]))
    && (forall m :: m in p.polls && (m !in p.timers || m in d.timers) ==> d.polls[m] == p.polls[m])
  }

  lemma FinishedExactly(batch: seq<Event>)
    ensures forall m :: m in Finished(batch, |batch|) <==> InBatch(batch, m)
    ensures NoRepeat(Finished(batch, |batch|))
  {
    assert batch[..|batch|] == batch;
    forall m ensures m in Finished(batch, |batch|) <==> InBatch(batch, m) {
      FinishedIs(batch, |batch|, m);
    }
    FinishedIs(batch, |batch|, 0);
  }

  /** Two disjoint sequences that take the elements of a set in turn. */
  lemma TakenInTurn(f: seq<MsgId>, expired: seq<MsgId>, p: set<MsgId>, c: set<MsgId>, d: set<MsgId>)
    requires forall m :: m in c <==> m in p && m !in f
    requires forall m :: m in d <==> m in c && m !in expired
    requires (forall m :: m in f ==> m in p) && forall m :: m in expired ==> m in c
    ensures forall m :: m in f + expired <==> m in p && m !in d
  {
  }

  lemma DealtQueue(p: Polls, batch: seq<Event>, expired: seq<MsgId>, c: Polls, d: Polls)
    requires Settled(p, batch, c) && Expired(c, expired, d)
    requires NoRepeat(expired) && forall m :: m in expired ==> m in c.timers
    ensures d.ready == p.ready + (Finished(batch, |batch|) + expired)
    ensures NoRepeat(Finished(batch, |batch|) + expired)
    ensures forall m :: m in Finished(batch, |batch|) + expired <==> m in p.timers && m !in d.timers
  {
    hide *;
    var f := Finished(batch, |batch|);
    FinishedExactly(batch);
    SettledQueue(p, batch, c);
    ExpiredQueue(c, expired, d);
    TakenInTurn(f, expired, p.timers, c.timers, d.timers);
    NoRepeatConcat(f, expired);
    assert p.ready + f + expired == p.ready + (f + expired);
  }

  lemma ExpiredQueue(c: Polls, expired: seq<MsgId>, d: Polls)
    requires Expired(c, expired, d)
    ensures d.ready == c.ready + expired
    ensures forall m :: m in d.timers <==> m in c.timers && m !in expired
  {
  }

  lemma SettledQueue(p: Polls, batch: seq<Event>, c: Polls)
    requires Settled(p, batch, c)
    ensures c.ready == p.ready + Finished(batch, |batch|)
    ensures forall m :: m in Finished(batch, |batch|) ==> m in p.timers
    ensures forall m :: m in c.timers <==> m in p.timers && m !in Finished(batch, |batch|)
  {
    FinishedExactly(batch);
    hide Finished, NoRepeat, SettledOne, Unregistered, Restricts;
    forall m | m in Finished(batch, |batch|) ensures m in p.timers {
      assert InBatch(batch, m);
    }
  }

  lemma DealtPolls(p: Polls, batch: seq<Event>, expired: seq<MsgId>, c: Polls, d: Polls)
    requires Inv(p) && Settled(p, batch, c) && Expired(c, expired, d)
    requires forall m :: m in expired ==> m in c.timers
    ensures forall m :: m in p.polls && m in p.timers && m !in d.timers ==>
              ReleasedBy(p.polls[m], d.polls[m], InBatch(batch, m), m in expired, d.interest)
    ensures forall j :: 0 <= j < |batch| ==> batch[j].msg in d.polls && Shows(d.polls[batch[j].msg], batch[j])
  {
    hide InterestOk;
    forall m | m in p.polls && m in p.timers && m !in d.timers
      ensures ReleasedBy(p.polls[m], d.polls[m], InBatch(batch, m), m in expired, d.interest)
    {
      assert SettledOne(p.polls[m], c.polls[m], batch, m);
      assert d.interest.Keys <= c.interest.Keys;
      if m in expired {
        assert TimedOut(c.polls[m], d.polls[m], d.interest);
      }
    }
    forall j | 0 <= j < |batch|
      ensures batch[j].msg in d.polls && Shows(d.polls[batch[j].msg], batch[j])
    {
      var m := batch[j].msg;
      assert InBatch(batch, m);
      assert SettledOne(p.polls[m], c.polls[m], batch, m);
    }
  }

  lemma DealtRest(p: Polls, batch: seq<Event>, expired: seq<MsgId>, c: Polls, d: Polls)
    requires Inv(p) && Settled(p, batch, c) && Expired(c, expired, d)
    requires forall m :: m in expired ==> m in c.timers
    ensures forall m :: m in p.polls && (m !in p.timers || m in d.timers) ==> d.polls[m] == p.polls[m]
  {
    forall m | m in p.polls && (m !in p.timers || m in d.timers) ensures d.polls[m] == p.polls[m] {
      if m in p.timers {
        assert SettledOne(p.polls[m], c.polls[m], batch, m);
        assert m in d.timers && m !in p.ready && Parked(c.polls[m]);
      }
    }
  }

  /**
    Deal makes ready exactly the polls that have an event, in the order of their last events, and
    then those that timed out; no poll twice, and none by both. A poll it makes ready has no
    descriptor registered any more, and its revents hold the bits of its events.
   */
  lemma DealReleasesOnce(p: Polls, batch: seq<Event>, expired: seq<MsgId>)
    requires Inv(p) && CanDeal(p, batch, expired)
    ensures Inv(Deal(p, batch, expired)) && Dealt(p, batch, expired, Deal(p, batch, expired))
  {
    var c := CallbackAll(PrepareAll(p, batch), batch);
    EventsSettle(p, batch);
    EventsKeep(p, batch, c);
    assert forall m :: m in expired ==> m in c.timers by {
      CallbackPhase(p, batch, |batch|);
      assert batch[..|batch|] == batch;
    }
    ExpireAllKeeps(c, expired);
    hide *;
    DealtAll(p, batch, expired, c, ExpireAll(c, expired));
  }

  lemma DealtAll(p: Polls, batch: seq<Event>, expired: seq<MsgId>, c: Polls, d: Polls)
    requires Inv(p) && Settled(p, batch, c) && Expired(c, expired, d)
    requires NoRepeat(expired) && forall m :: m in expired ==> m in c.timers
    ensures Dealt(p, batch, expired, d)
  {
    DealtQueue(p, batch, expired, c, d);
    DealtPolls(p, batch, expired, c, d);
    DealtRest(p, batch, expired, c, d);
    hide Inv, NoRepeat, Finished, InBatch, SettledOne, TimedOut, Restricts, ReleasedBy, Shows, Unregistered;
  }

  lemma {:induction false} AddIs(interest: map<Fd, Interest>, m: MsgId, fds: seq<Fd>, k: nat, accepts: set<Fd>, fd: Fd)
    requires k <= |fds|
    ensures var a := Add(interest, m, fds, k, accepts);
            && (fd in a <==> fd in interest || (fd in accepts && FirstEntry(fds, fd) < k))
            && (fd in interest ==> a[fd] == interest[fd])
            && (fd in a && fd !in interest ==> a[fd] == Interest(m, FirstEntry(fds, fd)))
  {
    if k > 0 {
      AddIs(interest, m, fds, k - 1, accepts, fd);
    }
  }

  /** A poll may start when no waiting routine has its record. */
  lemma PollKeeps(p: Polls, m: MsgId, fds: seq<Fd>, accepts: set<Fd>)
    requires Inv(p) && m !in p.polls
    ensures Inv(Poll(p, m, fds, accepts))
  {
    var q := Poll(p, m, fds, accepts);
    forall fd | fd in q.interest
      ensures var i := q.interest[fd];
              i.msg in q.timers && i.entry < |q.polls[i.msg].fds| && i.entry == FirstEntry(q.polls[i.msg].fds, fd)
    {
      AddIs(p.interest, m, fds, |fds|, accepts, fd);
    }
  }

  /** The returned number counts the entries with events; it is 0 exactly after a timeout. */
  lemma ReturnKeeps(p: Polls)
    requires Inv(p) && p.ready != []
    ensures p.ready[0] in p.polls && Inv(Return(p).0)
    ensures var pm := p.polls[p.ready[0]];
            && Return(p).1 == NonZero(pm.revents)
            && (Return(p).1 == 0 <==> pm.IsTasktimeout)
            && (pm.IsTasktimeout <==> !pm.IsJoinActiveList)
            && forall fd :: fd in p.interest ==> p.interest[fd].msg != p.ready[0]
  {
    assert p.ready[0] in p.ready;
    var q := Return(p).0;
    assert InterestOk(q);
    forall m | m in q.ready ensures m in p.ready && m != p.ready[0] {
      var k :| 0 <= k < |q.ready| && q.ready[k] == m;
      assert m == p.ready[k + 1];
    }
    forall m | m in p.ready && m != p.ready[0] ensures m in q.ready {
      var k :| 0 <= k < |p.ready| && p.ready[k] == m;
      assert m == q.ready[k - 1];
    }
  }

  // ---- runs ----------------------------------------------------------------------------------------

  datatype Step =
    | DoPoll(m: MsgId, fds: seq<Fd>, accepts: set<Fd>)
    | DoDeal(batch: seq<Event>, expired: seq<MsgId>)
    | DoReturn

  ghost predicate Can(p: Polls, s: Step) {
    match s
    case DoPoll(m, _, _) => m !in p.polls
    case DoDeal(batch, expired) => CanDeal(p, batch, expired)
    case DoReturn => p.ready != [] && p.ready[0] in p.polls
  }

  ghost function Do(p: Polls, s: Step): Polls
    requires Can(p, s)
  {
    match s
    case DoPoll(m, fds, accepts) => Poll(p, m, fds, accepts)
    case DoDeal(batch, expired) => Deal(p, batch, expired)
    case DoReturn => Return(p).0
  }

  /** The states of a run, one more than its steps. */
  ghost predicate IsRun(states: seq<Polls>, steps: seq<Step>) {
    && |states| == |steps| + 1
    && states[0] == Polls(map[], map[], {}, [])
    && forall k :: 0 <= k < |steps| ==> Can(states[k], steps[k]) && states[k + 1] == Do(states[k], steps[k])
  }

  /** The poll that a step starts, those it makes ready, and the one that it returns from. */
  function StartedBy(s: Step): seq<MsgId> {
    if s.DoPoll? then [s.m] else []
  }

  function ReadyBy(s: Step): seq<MsgId> {
    if s.DoDeal? then Finished(s.batch, |s.batch|) + s.expired else []
  }

  function ReturnedBy(p: Polls, s: Step): seq<MsgId> {
    if s.DoReturn? && p.ready != [] then [p.ready[0]] else []
  }

  function Started(steps: seq<Step>): seq<MsgId> {
    if steps == [] then [] else Started(steps[..|steps| - 1]) + StartedBy(steps[|steps| - 1])
  }

  function MadeReady(steps: seq<Step>): seq<MsgId> {
    if steps == [] then [] else MadeReady(steps[..|steps| - 1]) + ReadyBy(steps[|steps| - 1])
  }

  function Returned(states: seq<Polls>, steps: seq<Step>): seq<MsgId>
    requires |states| == |steps| + 1
    decreases |steps|
  {
    if steps == [] then []
    else
      var n := |steps| - 1;
      Returned(states[..n + 1], steps[..n]) + ReturnedBy(states[n], steps[n])
  }

  lemma {:induction false} CountedOnce(s: seq<MsgId>, m: MsgId)
    requires NoRepeat(s)
    ensures multiset(s)[m] == if m in s then 1 else 0
  {
    if s != [] {
      var rest, last := s[..|s| - 1], s[|s| - 1];
      CountedOnce(rest, m);
      assert s == rest + [last];
    }
  }

  function Once(m: MsgId, s: set<MsgId>): nat {
    if m in s then 1 else 0
  }

  /** What one step does to the invariant, the queue and the timers. */
  ghost predicate Tells(p: Polls, s: Step, q: Polls) {
    && Inv(q)
    && p.ready + ReadyBy(s) == ReturnedBy(p, s) + q.ready
    && forall m :: Once(m, p.timers) + multiset(StartedBy(s))[m] == multiset(ReadyBy(s))[m] + Once(m, q.timers)
  }

  lemma DealTells(p: Polls, s: Step, q: Polls)
    requires s.DoDeal? && Inv(q) && Dealt(p, s.batch, s.expired, q)
    ensures Tells(p, s, q)
  {
    var f := Finished(s.batch, |s.batch|) + s.expired;
    assert ReadyBy(s) == f && StartedBy(s) == [] && ReturnedBy(p, s) == [];
    assert NoRepeat(f) && q.ready == p.ready + f;
    assert (forall m :: m in f <==> m in p.timers && m !in q.timers) && q.timers <= p.timers;
    hide Inv, Dealt, ReadyBy, StartedBy, ReturnedBy, NoRepeat, Finished;
    forall m ensures Once(m, p.timers) == multiset(f)[m] + Once(m, q.timers) {
      CountedOnce(f, m);
    }
    assert [] + q.ready == q.ready;
  }

  lemma PollTells(p: Polls, s: Step)
    requires Inv(p) && Can(p, s) && s.DoPoll?
    ensures Tells(p, s, Do(p, s))
  {
    PollKeeps(p, s.m, s.fds, s.accepts);
    hide InterestOk, Add;
  }

  lemma ReturnTells(p: Polls, s: Step)
    requires Inv(p) && Can(p, s) && s.DoReturn?
    ensures Tells(p, s, Do(p, s))
  {
    ReturnKeeps(p);
    hide InterestOk, Released;
  }

  lemma StepTells(p: Polls, s: Step)
    requires Inv(p) && Can(p, s)
    ensures Tells(p, s, Do(p, s))
  {
    if s.DoPoll? {
      PollTells(p, s);
    } else if s.DoReturn? {
      ReturnTells(p, s);
    } else {
      hide Inv, Tells, Dealt, CanDeal, Deal;
      DealReleasesOnce(p, s.batch, s.expired);
      DealTells(p, s, Deal(p, s.batch, s.expired));
    }
  }

  lemma Appended<T>(a: seq<T>, b: seq<T>, c: seq<T>, d: seq<T>, e: seq<T>, f: seq<T>)
    requires a == b + c && c + d == e + f
    ensures a + d == b + e + f
  {
    assert b + c + d == b + (c + d) && b + (e + f) == b + e + f;
  }

  /** A run that is extended by one step. */
  lemma RunGrows(states: seq<Polls>, steps: seq<Step>, s: Step, q: Polls)
    requires |states| == |steps| + 1 && Tells(states[|steps|], s, q)
    requires var p := states[|steps|];
             && MadeReady(steps) == Returned(states, steps) + p.ready
             && forall m :: multiset(Started(steps))[m] == multiset(MadeReady(steps))[m] + Once(m, p.timers)
    ensures && MadeReady(steps + [s]) == Returned(states + [q], steps + [s]) + q.ready
            && forall m :: multiset(Started(steps + [s]))[m] == multiset(MadeReady(steps + [s]))[m] + Once(m, q.timers)
  {
    var steps', p := steps + [s], states[|steps|];
    assert steps'[..|steps|] == steps && (states + [q])[..|steps| + 1] == states;
    assert Started(steps') == Started(steps) + StartedBy(s);
    assert MadeReady(steps') == MadeReady(steps) + ReadyBy(s);
    assert Returned(states + [q], steps') == Returned(states, steps) + ReturnedBy(p, s);
    assert p.ready + ReadyBy(s) == ReturnedBy(p, s) + q.ready;
    assert forall m :: Once(m, p.timers) + multiset(StartedBy(s))[m] == multiset(ReadyBy(s))[m] + Once(m, q.timers);
    hide *;
    Appended(MadeReady(steps), Returned(states, steps), p.ready, ReadyBy(s), ReturnedBy(p, s), q.ready);
  }

  /**
    In every run, the invariant holds; a poll was made ready as often as it was started, less one
    while it waits; and polls return in the order in which they were made ready.
   */
  lemma {:induction false} EveryPollIsReadyOnce(states: seq<Polls>, steps: seq<Step>)
    requires IsRun(states, steps)
    ensures var p := states[|steps|];
            && Inv(p)
            && MadeReady(steps) == Returned(states, steps) + p.ready
            && forall m :: multiset(Started(steps))[m] == multiset(MadeReady(steps))[m] + Once(m, p.timers)
    decreases |steps|
  {
    if steps == [] {
      hide Inv;
      InitialPolls();
    } else {
      var n := |steps| - 1;
      LastStep(states, steps);
      hide *;
      EveryPollIsReadyOnce(states[..n + 1], steps[..n]);
      StepTells(states[n], steps[n]);
      TellsInv(states[n], steps[n], states[n + 1]);
      RunGrows(states[..n + 1], steps[..n], steps[n], states[n + 1]);
    }
  }

  lemma InitialPolls()
    ensures Inv(Polls(map[], map[], {}, []))
  {
  }

  lemma TellsInv(p: Polls, s: Step, q: Polls)
    requires Tells(p, s, q)
    ensures Inv(q)
  {
  }

  lemma LastStep(states: seq<Polls>, steps: seq<Step>)
    requires IsRun(states, steps) && steps != []
    ensures var n := |steps| - 1;
            && |states| == n + 2 && IsRun(states[..n + 1], steps[..n]) && states[..n + 1][n] == states[n]
            && Can(states[n], steps[n]) && states[n + 1] == Do(states[n], steps[n])
            && steps == steps[..n] + [steps[n]] && states == states[..n + 1] + [states[n + 1]]
  {
    hide Can, Do;
  }
}
