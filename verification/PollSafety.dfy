/** Every parked poll is made ready exactly once, and what it returns. */
module PollSafety {
  import opened PollSpec

  function CountOf(batch: seq<Event>, m: MsgId): nat {
    if batch == [] then 0
    else CountOf(batch[..|batch| - 1], m) + if batch[|batch| - 1].msg == m then 1 else 0
  }

  function NonZero(s: seq<nat>): nat {
    if s == [] then 0 else NonZero(s[..|s| - 1]) + if s[|s| - 1] != 0 then 1 else 0
  }

  predicate InBatch(batch: seq<Event>, m: MsgId) {
    exists k :: 0 <= k < |batch| && batch[k].msg == m
  }

  /** The descriptor has an event of poll m in the batch. */
  predicate HasEvent(batch: seq<Event>, m: MsgId, fd: Fd) {
    exists k :: 0 <= k < |batch| && batch[k].msg == m && batch[k].fd == fd
  }

  /** What the kernel reports: registered descriptors, each at most once, with some bit set. */
  ghost predicate Reported(interest: map<Fd, Interest>, batch: seq<Event>) {
    && (forall k :: 0 <= k < |batch| ==>
         batch[k].fd in interest && interest[batch[k].fd].msg == batch[k].msg && batch[k].mask != 0)
    && (forall j, k :: 0 <= j < k < |batch| ==> batch[j].fd != batch[k].fd)
  }

  /** A registered descriptor belongs to a poll that is still waiting, by its first entry for it. */
  ghost predicate InterestOk(p: Polls) {
    forall fd :: fd in p.interest ==>
      var i := p.interest[fd];
      i.msg in p.polls && i.msg in p.timers && i.entry < |p.polls[i.msg].fds| && i.entry == FirstEntry(p.polls[i.msg].fds, fd)
  }

  predicate Parked(pm: PollMessage) {
    pm == New(pm.fds)
  }

  /** A poll that has been made ready, by events or by its timeout and never by both. */
  predicate Released(pm: PollMessage) {
    && |pm.revents| == |pm.fds| && pm.activeFdsNums2 == 0
    && pm.activeFdsNums == NonZero(pm.revents)
    && (pm.IsJoinActiveList <==> !pm.IsTasktimeout)
    && (pm.IsTasktimeout <==> pm.activeFdsNums == 0)
  }

  /** Between two calls of Deal. */
  ghost predicate Inv(p: Polls) {
    && InterestOk(p)
    && (forall j, k :: 0 <= j < k < |p.ready| ==> p.ready[j] != p.ready[k])
    && (forall m :: m in p.ready ==> m in p.polls && Released(p.polls[m]) && m !in p.timers)
    && (forall m :: m in p.polls && m !in p.ready ==> m in p.timers && Parked(p.polls[m]))
    && p.timers <= p.polls.Keys
  }

  // ---- first phase: prepare every event ---------------------------------------------------

  lemma {:induction false} NonZeroUpdate(s: seq<nat>, k: nat, v: nat)
    requires k < |s| && s[k] == 0 && v != 0
    ensures NonZero(s[k := v]) == NonZero(s) + 1
  {
    var n := |s| - 1;
    if k < n {
      assert s[k := v][..n] == s[..n][k := v];
      NonZeroUpdate(s[..n], k, v);
    } else {
      assert s[k := v][..n] == s[..n];
    }
  }

  lemma {:induction false} NonZeroZeros(n: nat)
    ensures NonZero(Zeros(n)) == 0
  {
    if n > 0 {
      assert Zeros(n)[..n - 1] == Zeros(n - 1);
      NonZeroZeros(n - 1);
    }
  }

  lemma {:induction false} CountIn(batch: seq<Event>, m: MsgId)
    ensures CountOf(batch, m) > 0 <==> InBatch(batch, m)
  {
    if batch != [] {
      var b := batch[..|batch| - 1];
      CountIn(b, m);
      if InBatch(batch, m) {
        var k :| 0 <= k < |batch| && batch[k].msg == m;
        assert k < |b| ==> b[k].msg == m;
      }
      if InBatch(b, m) {
        var k :| 0 <= k < |b| && b[k].msg == m;
        assert batch[k].msg == m;
      }
    }
  }

  /** The first entry for the descriptor of an event holds the bits of the event. */
  predicate Shows(pm: PollMessage, e: Event) {
    var k := FirstEntry(pm.fds, e.fd);
    k < |pm.revents| && pm.revents[k] == e.mask
  }

  /** A waiting poll after the events b of a batch have been prepared. */
  ghost predicate Prepared(pm: PollMessage, fds: seq<Fd>, b: seq<Event>, m: MsgId) {
    && pm.fds == fds && |pm.revents| == |fds|
    && pm.activeFdsNums == pm.activeFdsNums2 == CountOf(b, m) == NonZero(pm.revents)
    && (pm.IsRemoveFromTimeoutList <==> CountOf(b, m) > 0)
    && !pm.IsJoinActiveList && !pm.IsTasktimeout
    && (forall k :: 0 <= k < |fds| && pm.revents[k] != 0 ==> HasEvent(b, m, fds[k]))
    && (forall j :: 0 <= j < |b| && b[j].msg == m ==> Shows(pm, b[j]))
  }

  ghost predicate AfterPrepare(p: Polls, b: seq<Event>, q: Polls) {
    && q.interest == p.interest && q.ready == p.ready && q.polls.Keys == p.polls.Keys
    && (forall m :: m in q.timers <==> m in p.timers && CountOf(b, m) == 0)
    && (forall m :: m in p.timers && m in p.polls ==> Prepared(q.polls[m], p.polls[m].fds, b, m))
    && (forall m :: m in p.polls && m !in p.timers ==> q.polls[m] == p.polls[m])
  }

  /** Noting an event for another descriptor keeps what an earlier event left. */
  lemma ShowsBoth(pm: PollMessage, earlier: Event, e: Event)
    requires |pm.revents| == |pm.fds| && earlier.fd != e.fd && Shows(pm, earlier)
    ensures Shows(Noted(pm, e), earlier)
  {
  }

  lemma EventsGrow(b: seq<Event>, e: Event, m: MsgId)
    ensures CountOf(b + [e], m) == CountOf(b, m) + if e.msg == m then 1 else 0
    ensures forall fd :: HasEvent(b + [e], m, fd) <==> HasEvent(b, m, fd) || (e.msg == m && e.fd == fd)
  {
    var batch := b + [e];
    assert batch[..|b|] == b && batch[|b|] == e;
    forall fd ensures HasEvent(batch, m, fd) <==> HasEvent(b, m, fd) || (e.msg == m && e.fd == fd) {
      if HasEvent(b, m, fd) {
        var j :| 0 <= j < |b| && b[j].msg == m && b[j].fd == fd;
        assert batch[j].msg == m && batch[j].fd == fd;
      }
    }
  }

  lemma ShowsAll(pm: PollMessage, b: seq<Event>, e: Event, m: MsgId)
    requires |pm.revents| == |pm.fds| && FirstEntry(pm.fds, e.fd) < |pm.fds|
    requires forall j :: 0 <= j < |b| && b[j].msg == m ==> Shows(pm, b[j])
    requires forall j :: 0 <= j < |b| ==> b[j].fd != e.fd
    ensures forall j :: 0 <= j < |b + [e]| && (b + [e])[j].msg == m ==> Shows(Noted(pm, e), (b + [e])[j])
  {
    forall j | 0 <= j < |b + [e]| && (b + [e])[j].msg == m
      ensures Shows(Noted(pm, e), (b + [e])[j])
    {
      if j < |b| {
        ShowsBoth(pm, b[j], e);
      }
    }
  }

  /** One more event, seen by the poll it is for. */
  lemma PrepareOwn(fds: seq<Fd>, b: seq<Event>, e: Event, pm: PollMessage)
    requires e.mask != 0 && Prepared(pm, fds, b, e.msg)
    requires FirstEntry(fds, e.fd) < |fds|
    requires forall j :: 0 <= j < |b| ==> b[j].fd != e.fd
    ensures Prepared(Noted(pm, e), fds, b + [e], e.msg)
  {
    var k := FirstEntry(fds, e.fd);
    assert fds[k] == e.fd;
    assert pm.revents[k] == 0;
    EventsGrow(b, e, e.msg);
    NonZeroUpdate(pm.revents, k, e.mask);
    ShowsAll(pm, b, e, e.msg);
    hide Shows, FirstEntry, HasEvent, NonZero, CountOf;
  }

  /** One more event, seen by a poll it is not for. */
  lemma PrepareOther(fds: seq<Fd>, b: seq<Event>, e: Event, pm: PollMessage, m: MsgId)
    requires e.msg != m && Prepared(pm, fds, b, m)
    ensures Prepared(pm, fds, b + [e], m)
  {
    EventsGrow(b, e, m);
    hide Shows, FirstEntry, HasEvent, NonZero, CountOf;
  }

  /** An event belongs to a poll that waits and has an entry for the descriptor. */
  lemma EventIsWaitedFor(p: Polls, e: Event)
    requires Inv(p) && e.fd in p.interest && p.interest[e.fd].msg == e.msg
    ensures e.msg in p.timers && e.msg in p.polls
    ensures FirstEntry(p.polls[e.msg].fds, e.fd) < |p.polls[e.msg].fds|
  {
  }

  lemma PrepareStep(p: Polls, b: seq<Event>, e: Event, q: Polls)
    requires p.timers <= p.polls.Keys && e.mask != 0 && forall j :: 0 <= j < |b| ==> b[j].fd != e.fd
    requires e.msg in p.timers && FirstEntry(p.polls[e.msg].fds, e.fd) < |p.polls[e.msg].fds|
    requires AfterPrepare(p, b, q)
    ensures AfterPrepare(p, b + [e], Prepare(q, e))
  {
    var fds := p.polls[e.msg].fds;
    hide FirstEntry, Noted, CountOf;
    PrepareOwn(fds, b, e, q.polls[e.msg]);
    forall m | m in p.timers && m != e.msg
      ensures Prepared(q.polls[m], p.polls[m].fds, b + [e], m)
    {
      PrepareOther(p.polls[m].fds, b, e, q.polls[m], m);
    }
    forall m ensures CountOf(b + [e], m) == CountOf(b, m) + if e.msg == m then 1 else 0 {
      EventsGrow(b, e, m);
    }
    assert Prepared(q.polls[e.msg], fds, b, e.msg);
    assert q.polls[e.msg].IsRemoveFromTimeoutList <==> CountOf(b, e.msg) > 0;
    hide Prepared;
  }

  lemma PrepareNone(p: Polls)
    requires Inv(p)
    ensures AfterPrepare(p, [], p)
  {
    forall m | m in p.timers ensures Prepared(p.polls[m], p.polls[m].fds, [], m) {
      NonZeroZeros(|p.polls[m].fds|);
    }
    hide InterestOk, Prepared, Released;
  }

  /** What the kernel reports in its last event. */
  lemma LastReported(p: Polls, batch: seq<Event>)
    requires Inv(p) && Reported(p.interest, batch) && batch != []
    ensures var b, e := batch[..|batch| - 1], batch[|batch| - 1];
            && batch == b + [e] && Reported(p.interest, b) && p.timers <= p.polls.Keys
            && e.mask != 0 && e.msg in p.timers && FirstEntry(p.polls[e.msg].fds, e.fd) < |p.polls[e.msg].fds|
            && forall j :: 0 <= j < |b| ==> b[j].fd != e.fd
  {
    assert batch[|batch| - 1].fd in p.interest;
    EventIsWaitedFor(p, batch[|batch| - 1]);
    hide InterestOk, Released, FirstEntry;
  }

  lemma {:induction false} PreparePhase(p: Polls, batch: seq<Event>)
    requires Inv(p) && Reported(p.interest, batch)
    ensures AfterPrepare(p, batch, PrepareAll(p, batch))
  {
    if batch == [] {
      PrepareNone(p);
    } else {
      var b, e := batch[..|batch| - 1], batch[|batch| - 1];
      LastReported(p, batch);
      assert PrepareAll(p, batch) == Prepare(PrepareAll(p, b), e);
      hide *;
      PreparePhase(p, b);
      PrepareStep(p, b, e, PrepareAll(p, b));
    }
  }

  // ---- second phase: call back every event --------------------------------------------------

  /** No later event of the batch is for the same poll. */
  predicate LastOf(batch: seq<Event>, k: nat)
    requires k < |batch|
  {
    forall j :: k < j < |batch| ==> batch[j].msg != batch[k].msg
  }

  /** The polls whose last event is among the first n, in the order of those last events. */
  function Finished(batch: seq<Event>, n: nat): seq<MsgId>
    requires n <= |batch|
  {
    if n == 0 then []
    else Finished(batch, n - 1) + if LastOf(batch, n - 1) then [batch[n - 1].msg] else []
  }

  /** The number of events of m that the first n callbacks leave. */
  function Left(batch: seq<Event>, n: nat, m: MsgId): int
    requires n <= |batch|
  {
    CountOf(batch, m) - CountOf(batch[..n], m)
  }

  lemma {:induction false} LeftIsCount(batch: seq<Event>, n: nat, m: MsgId)
    requires n <= |batch|
    ensures Left(batch, n, m) == CountOf(batch[n..], m)
  {
    if n < |batch| {
      var b := batch[..|batch| - 1];
      assert batch[n..][..|batch[n..]| - 1] == b[n..] && b[..n] == batch[..n];
      LeftIsCount(b, n, m);
    } else {
      assert batch[..n] == batch;
    }
  }

  lemma LeftStep(batch: seq<Event>, n: nat, m: MsgId)
    requires n < |batch|
    ensures Left(batch, n, m) == Left(batch, n + 1, m) + if batch[n].msg == m then 1 else 0
    ensures Left(batch, n + 1, m) >= 0
    ensures batch[n].msg == m ==> (Left(batch, n + 1, m) == 0 <==> LastOf(batch, n))
  {
    assert batch[..n + 1][..n] == batch[..n];
    LeftIsCount(batch, n + 1, m);
    CountIn(batch[n + 1..], m);
    var rest := batch[n + 1..];
    assert forall j :: n < j < |batch| ==> batch[j] == rest[j - n - 1];
  }

  lemma {:induction false} FinishedIs(batch: seq<Event>, n: nat, m: MsgId)
    requires n <= |batch|
    ensures m in Finished(batch, n) <==> InBatch(batch, m) && Left(batch, n, m) == 0
    ensures forall j, k :: 0 <= j < k < |Finished(batch, n)| ==> Finished(batch, n)[j] != Finished(batch, n)[k]
  {
    CountIn(batch, m);
    if n > 0 {
      FinishedIs(batch, n - 1, m);
      LeftStep(batch, n - 1, m);
      CountIn(batch, batch[n - 1].msg);
      FinishedIs(batch, n - 1, batch[n - 1].msg);
      LeftStep(batch, n - 1, batch[n - 1].msg);
    }
  }

  /** A waiting poll after n of the callbacks. */
  function Called(pm: PollMessage, batch: seq<Event>, n: nat, m: MsgId): PollMessage
    requires n <= |batch|
  {
    pm.(activeFdsNums2 := Left(batch, n, m),
        IsJoinActiveList := CountOf(batch, m) > 0 && Left(batch, n, m) == 0)
  }

  ghost predicate AfterCallback(r: Polls, waiting: set<MsgId>, batch: seq<Event>, n: nat, c: Polls)
    requires n <= |batch|
  {
    && c.timers == r.timers && c.polls.Keys == r.polls.Keys
    && (forall m :: m in r.polls ==> c.polls[m] == if m in waiting then Called(r.polls[m], batch, n, m) else r.polls[m])
    && c.ready == r.ready + Finished(batch, n)
    && c.interest == Dropped(r.interest, r.polls, Finished(batch, n))
  }

  /** The interest list after the polls of s have removed their descriptors, one after the other. */
  function Dropped(interest: map<Fd, Interest>, polls: map<MsgId, PollMessage>, s: seq<MsgId>): map<Fd, Interest> {
    if s == [] then interest
    else
      var before, m := Dropped(interest, polls, s[..|s| - 1]), s[|s| - 1];
      if m in polls then before - FdSet(polls[m].fds) else before
  }

  lemma CallbackStep(r: Polls, waiting: set<MsgId>, batch: seq<Event>, n: nat, c: Polls)
    requires 0 < n <= |batch| && AfterCallback(r, waiting, batch, n - 1, c)
    requires batch[n - 1].msg in waiting && waiting <= r.polls.Keys
    ensures AfterCallback(r, waiting, batch, n, Callback(c, batch[n - 1]))
  {
    var e := batch[n - 1];
    var c' := Callback(c, e);
    forall m | m in waiting
      ensures c'.polls[m] == Called(r.polls[m], batch, n, m)
    {
      LeftStep(batch, n - 1, m);
    }
    LeftStep(batch, n - 1, e.msg);
    CountIn(batch, e.msg);
    var f := Finished(batch, n - 1);
    assert (f + [e.msg])[..|f|] == f && f + [] == f;
    assert r.ready + (f + [e.msg]) == r.ready + f + [e.msg];
  }

  lemma CallbackStart(p: Polls, batch: seq<Event>, r: Polls)
    requires Inv(p) && AfterPrepare(p, batch, r)
    ensures AfterCallback(r, p.timers, batch, 0, r)
  {
    hide Inv, Reported, InterestOk;
    forall m | m in r.polls && m in p.timers
      ensures Called(r.polls[m], batch, 0, m) == r.polls[m]
    {
      assert Prepared(r.polls[m], p.polls[m].fds, batch, m);
      assert batch[..0] == [];
    }
  }

  /**
    The counter of a poll reaches 0 exactly at its last callback: callback n puts its poll on the
    ready queue if no later event is for that poll, and leaves the queue alone otherwise.
   */
  lemma {:induction false} CallbackPhase(p: Polls, batch: seq<Event>, n: nat)
    requires Inv(p) && Reported(p.interest, batch) && n <= |batch|
    ensures AfterCallback(PrepareAll(p, batch), p.timers, batch, n, CallbackAll(PrepareAll(p, batch), batch[..n]))
  {
    var r := PrepareAll(p, batch);
    PreparePhase(p, batch);
    hide PrepareAll;
    if n == 0 {
      CallbackStart(p, batch, r);
      assert batch[..0] == [];
    } else {
      CallbackPhase(p, batch, n - 1);
      assert batch[..n][..n - 1] == batch[..n - 1];
      assert batch[n - 1].fd in p.interest;
      CallbackStep(r, p.timers, batch, n, CallbackAll(r, batch[..n - 1]));
      hide AfterCallback, Callback, Prepared;
    }
  }
}
