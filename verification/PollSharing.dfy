/** Polls that share a descriptor: when what a parked poll has registered stays registered. */
module PollSharing {
  import opened Sequences
  import opened PollSpec
  import opened PollSafety
  import opened PollRuns

  /** Every descriptor that a parked poll lists, and that the kernel accepts, is registered for it. */
  ghost predicate AllRegistered(p: Polls, accepts: set<Fd>) {
    forall m, fd :: m in p.timers && m in p.polls && fd in FdSet(p.polls[m].fds) && fd in accepts
      ==> fd in p.interest && p.interest[fd].msg == m
  }

  /** No two parked polls list the same descriptor. */
  ghost predicate NoSharing(p: Polls, accepts: set<Fd>) {
    forall m, k, fd :: m in p.timers && k in p.timers && m in p.polls && k in p.polls && m != k && fd in accepts
      ==> !(fd in FdSet(p.polls[m].fds) && fd in FdSet(p.polls[k].fds))
  }

  /** A run in which the kernel does not change its mind about the descriptors it accepts. */
  ghost predicate IsRunWith(accepts: set<Fd>, states: seq<Polls>, steps: seq<Step>) {
    IsRun(states, steps) && forall k :: 0 <= k < |steps| ==> steps[k].DoPoll? ==> steps[k].accepts == accepts
  }

  // ---- what Deal leaves registered -----------------------------------------------------------

  lemma {:induction false} ExpireAllRegistered(c: Polls, s: seq<MsgId>, fd: Fd)
    requires fd in c.interest && forall k :: 0 <= k < |s| && s[k] in c.polls ==> fd !in FdSet(c.polls[s[k]].fds)
    ensures var d := ExpireAll(c, s);
            && fd in d.interest && d.interest[fd] == c.interest[fd] && d.polls.Keys == c.polls.Keys
            && forall m :: m in c.polls ==> d.polls[m].fds == c.polls[m].fds
  {
    if s != [] {
      ExpireAllRegistered(c, s[..|s| - 1], fd);
    }
  }

  /** Deal takes no descriptor that none of the polls it makes ready lists. */
  lemma DealLeavesRegistered(p: Polls, batch: seq<Event>, expired: seq<MsgId>, fd: Fd)
    requires Inv(p) && CanDeal(p, batch, expired) && fd in p.interest
    requires forall m :: m in Finished(batch, |batch|) + expired && m in p.polls ==> fd !in FdSet(p.polls[m].fds)
    ensures var d := Deal(p, batch, expired);
            fd in d.interest && d.interest[fd] == p.interest[fd]
  {
    var r := PrepareAll(p, batch);
    var c := CallbackAll(r, batch);
    PreparePhase(p, batch);
    CallbackPhase(p, batch, |batch|);
    assert batch[..|batch|] == batch;
    FdsStay(p, batch);
    var f := Finished(batch, |batch|);
    forall k | 0 <= k < |f| && f[k] in r.polls ensures fd !in FdSet(r.polls[f[k]].fds) {
      assert f[k] in f + expired;
    }
    DroppedIs(r.interest, r.polls, f, fd);
    forall k | 0 <= k < |expired| && expired[k] in c.polls ensures fd !in FdSet(c.polls[expired[k]].fds) {
      assert expired[k] in f + expired;
    }
    ExpireAllRegistered(c, expired, fd);
  }

  /** The first two phases change no list of descriptors. */
  lemma FdsStay(p: Polls, batch: seq<Event>)
    requires Inv(p) && Reported(p.interest, batch)
    ensures var r := PrepareAll(p, batch);
            var c := CallbackAll(r, batch);
            && r.polls.Keys == c.polls.Keys == p.polls.Keys
            && forall m :: m in p.polls ==> r.polls[m].fds == c.polls[m].fds == p.polls[m].fds
  {
    PreparePhase(p, batch);
    CallbackPhase(p, batch, |batch|);
    assert batch[..|batch|] == batch;
    forall m | m in p.polls && m in p.timers ensures PrepareAll(p, batch).polls[m].fds == p.polls[m].fds {
      assert Prepared(PrepareAll(p, batch).polls[m], p.polls[m].fds, batch, m);
    }
  }

  // ---- steps and runs --------------------------------------------------------------------------

  /** The poll for which a descriptor is registered already still waits when another poll starts. */
  lemma RegisteredBefore(p: Polls, m: MsgId, fds: seq<Fd>, accepts: set<Fd>, fd: Fd)
    requires Inv(p) && m !in p.polls && fd in p.interest
    ensures var q, o := Poll(p, m, fds, accepts), p.interest[fd].msg;
            o != m && o in q.timers && o in q.polls && fd in FdSet(q.polls[o].fds)
  {
  }

  lemma PollRegisters(p: Polls, m: MsgId, fds: seq<Fd>, accepts: set<Fd>)
    requires Inv(p) && m !in p.polls && AllRegistered(p, accepts) && NoSharing(Poll(p, m, fds, accepts), accepts)
    ensures AllRegistered(Poll(p, m, fds, accepts), accepts)
  {
    var q := Poll(p, m, fds, accepts);
    forall k, fd | k in q.timers && k in q.polls && fd in FdSet(q.polls[k].fds) && fd in accepts
      ensures fd in q.interest && q.interest[fd].msg == k
    {
      AddIs(p.interest, m, fds, |fds|, accepts, fd);
      if k == m {
        var j :| 0 <= j < |fds| && fds[j] == fd;
        assert FirstEntry(fds, fd) < |fds|;
        if fd in p.interest {
          RegisteredBefore(p, m, fds, accepts, fd);
        }
      }
    }
  }

  lemma DealRegisters(p: Polls, batch: seq<Event>, expired: seq<MsgId>, accepts: set<Fd>)
    requires Inv(p) && CanDeal(p, batch, expired) && AllRegistered(p, accepts) && NoSharing(p, accepts)
    ensures AllRegistered(Deal(p, batch, expired), accepts)
  {
    var d := Deal(p, batch, expired);
    hide Inv, CanDeal, Deal, Dealt, Finished;
    DealReleasesOnce(p, batch, expired);
    DealtStays(p, batch, expired, d);
    forall m, fd | m in d.timers && m in d.polls && fd in FdSet(d.polls[m].fds) && fd in accepts
      ensures fd in d.interest && d.interest[fd].msg == m
    {
      DealLeavesRegistered(p, batch, expired, fd);
    }
  }

  lemma DealtStays(p: Polls, batch: seq<Event>, expired: seq<MsgId>, d: Polls)
    requires Inv(p) && Dealt(p, batch, expired, d)
    ensures d.polls.Keys == p.polls.Keys && d.timers <= p.timers <= p.polls.Keys
    ensures forall m :: m in d.timers ==> d.polls[m] == p.polls[m]
    ensures forall m :: m in Finished(batch, |batch|) + expired ==> m in p.timers && m !in d.timers
  {
    hide InterestOk, Released, ReleasedBy, Shows, Finished, InBatch;
  }

  lemma StepRegisters(p: Polls, s: Step, accepts: set<Fd>)
    requires Inv(p) && Can(p, s) && (s.DoPoll? ==> s.accepts == accepts)
    requires AllRegistered(p, accepts) && NoSharing(p, accepts) && NoSharing(Do(p, s), accepts)
    ensures AllRegistered(Do(p, s), accepts)
  {
    match s
    case DoPoll(m, fds, _) =>
      PollRegisters(p, m, fds, accepts);
    case DoDeal(batch, expired) =>
      DealRegisters(p, batch, expired, accepts);
    case DoReturn =>
  }

  lemma {:induction false} RunRegisters(accepts: set<Fd>, states: seq<Polls>, steps: seq<Step>, n: nat)
    requires IsRunWith(accepts, states, steps) && n <= |steps|
    requires forall k :: 0 <= k <= n ==> NoSharing(states[k], accepts)
    ensures AllRegistered(states[n], accepts)
  {
    if n > 0 {
      RunRegisters(accepts, states, steps, n - 1);
      RunInv(states, steps, n - 1);
      assert Can(states[n - 1], steps[n - 1]) && states[n] == Do(states[n - 1], steps[n - 1]);
      hide Inv, Can, Do, AllRegistered;
      StepRegisters(states[n - 1], steps[n - 1], accepts);
    }
  }

  lemma RunInv(states: seq<Polls>, steps: seq<Step>, n: nat)
    requires IsRun(states, steps) && n <= |steps|
    ensures Inv(states[n])
  {
    hide Can, Do;
    assert IsRun(states[..n + 1], steps[..n]);
    hide Inv;
    EveryPollIsReadyOnce(states[..n + 1], steps[..n]);
  }

  /** Two parked polls cannot both have the same descriptor registered. */
  lemma RegisteredIsNotShared(p: Polls, accepts: set<Fd>)
    requires AllRegistered(p, accepts)
    ensures NoSharing(p, accepts)
  {
  }

  /**
    In a run, the accepted descriptors of every parked poll stay registered for it if and only if
    no two parked polls ever share one.
   */
  lemma RegisteredIffNotShared(accepts: set<Fd>, states: seq<Polls>, steps: seq<Step>)
    requires IsRunWith(accepts, states, steps)
    ensures (forall k :: 0 <= k < |states| ==> AllRegistered(states[k], accepts))
            <==> (forall k :: 0 <= k < |states| ==> NoSharing(states[k], accepts))
  {
    hide AllRegistered, NoSharing;
    if forall k :: 0 <= k < |states| ==> AllRegistered(states[k], accepts) {
      forall k | 0 <= k < |states| ensures NoSharing(states[k], accepts) {
        RegisteredIsNotShared(states[k], accepts);
      }
    }
    if forall k :: 0 <= k < |states| ==> NoSharing(states[k], accepts) {
      forall k | 0 <= k < |states| ensures AllRegistered(states[k], accepts) {
        RunRegisters(accepts, states, steps, k);
      }
    }
  }

  /**
    Two routines poll descriptor 5. The kernel refuses the second registration, and the timeout of
    the second poll removes the first one's: it waits on, with nothing registered.
   */
  lemma SharingLosesARegistration() returns (states: seq<Polls>, steps: seq<Step>)
    ensures IsRunWith({5}, states, steps)
    ensures var p := states[|steps|];
            1 in p.timers && 1 in p.polls && p.polls[1].fds == [5] && p.interest == map[]
  {
    var p0 := Polls(map[], map[], {}, []);
    var s1, s2, s3 := DoPoll(1, [5], {5}), DoPoll(2, [5], {5}), DoDeal([], [2]);
    var p1 := Do(p0, s1);
    AddIs(p0.interest, 1, [5], 1, {5}, 5);
    var p2 := Do(p1, s2);
    AddIs(p1.interest, 2, [5], 1, {5}, 5);
    assert forall fd :: fd in p2.interest ==> fd == 5 by {
      forall fd | fd in p2.interest ensures fd == 5 {
        AddIs(p0.interest, 1, [5], 1, {5}, fd);
        AddIs(p1.interest, 2, [5], 1, {5}, fd);
      }
    }
    var p3 := Do(p2, s3);
    LastExpires(p2);
    assert p3.interest == map[];
    steps := [s1, s2, s3];
    states := [p0, p1, p2, p3];
  }

  lemma LastExpires(p: Polls)
    requires 2 in p.polls && 2 in p.timers && p.polls[2].fds == [5]
    ensures CanDeal(p, [], [2])
    ensures var d := Deal(p, [], [2]);
            d.interest == p.interest - {5} && d.polls.Keys == p.polls.Keys && d.timers == p.timers - {2}
            && forall m :: m in p.polls && m != 2 ==> d.polls[m] == p.polls[m]
  {
    assert [2][..0] == [];
    assert ExpireAll(p, [2]) == Expire(p, 2);
    assert FdSet([5]) == {5} by { assert [5][0] == 5; }
  }
}
