/** The poll protocol in the source's own form: objects, loops, the linked timer wheel, and the three phases of Deal. */
module PollDeal {
  import opened PollSpec
  import opened PollSafety
  import PollRuns
  import opened PollTimers
  import opened Sequences
  import opened TaskList
  import opened TimerSpec
  import opened TimerExact
  import opened TimerNodes
  import opened TimerWheel

  /** A poll_message is known by the address of its TaskItem. */
  class poll_message {
    const fds: seq<Fd>
    const task: TaskItem
    var revents: seq<nat>
    var activeFdsNums: nat
    var activeFdsNums2: int
    var IsJoinActiveList: bool
    var IsRemoveFromTimeoutList: bool
    var IsTasktimeout: bool

    function View(): PollMessage
      reads this
    {
      PollMessage(fds, revents, activeFdsNums, activeFdsNums2, IsJoinActiveList, IsRemoveFromTimeoutList, IsTasktimeout)
    }

    constructor (m: MsgId, self: nat, isMain: bool, fds: seq<Fd>)
      ensures View() == New(fds) && fresh(task) && task.Detached() && task.address == m
      ensures task.self == self && task.isMain == isMain
    {
      this.fds := fds;
      task := new TaskItem(m, self, isMain);
      activeFdsNums, activeFdsNums2 := 0, 0;
      IsJoinActiveList, IsRemoveFromTimeoutList, IsTasktimeout := false, false, false;
      revents := Zeros(|fds|);
    }

    /** The fields that `pollPerpare` writes; the answer is whether the timer is to be cancelled. */
    method Note(e: Event) returns (cancel: bool)
      modifies this
      ensures View() == Noted(old(View()), e) && (cancel <==> !old(IsRemoveFromTimeoutList))
    {
      var i := 0;
      while i < |fds|
        invariant i <= |fds| && forall j :: 0 <= j < i ==> fds[j] != e.fd
      {
        if fds[i] == e.fd {
          break;
        }
        i := i + 1;
      }
      FirstEntryFrom(fds, e.fd, i);
      if i < |revents| {
        revents := revents[i := e.mask];
      }
      activeFdsNums := activeFdsNums + 1;
      activeFdsNums2 := activeFdsNums2 + 1;
      cancel := !IsRemoveFromTimeoutList;
      IsRemoveFromTimeoutList := true;
    }

    /** The fields that `pollCallback` writes; the answer is whether this was the last event. */
    method CountDown() returns (last: bool)
      modifies this
      ensures var pm := old(View()).(activeFdsNums2 := old(activeFdsNums2) - 1);
              && (last <==> !pm.IsJoinActiveList && pm.activeFdsNums2 == 0)
              && View() == if last then pm.(IsJoinActiveList := true) else pm
    {
      activeFdsNums2 := activeFdsNums2 - 1;
      last := !IsJoinActiveList && activeFdsNums2 == 0;
      if last {
        IsJoinActiveList := true;
      }
    }
  }

  // ---- the loops on values ----------------------------------------------------------------------

  lemma {:induction false} FirstEntryFrom(fds: seq<Fd>, fd: Fd, i: nat)
    requires i <= |fds| && forall j :: 0 <= j < i ==> fds[j] != fd
    requires i < |fds| ==> fds[i] == fd
    ensures FirstEntry(fds, fd) == i
  {
  }

  lemma OneMoreNote(t: Timed, batch: seq<Event>, q: nat)
    requires t.w.Shaped() && q < |batch|
    ensures NoteAll(t, batch[..q + 1]) == Note(NoteAll(t, batch[..q]), batch[q])
  {
    assert batch[..q + 1][..q] == batch[..q];
  }

  lemma OneMoreCallback(p: Polls, batch: seq<Event>, q: nat)
    requires q < |batch|
    ensures CallbackAll(p, batch[..q + 1]) == Callback(CallbackAll(p, batch[..q]), batch[q])
  {
    assert batch[..q + 1][..q] == batch[..q];
  }

  lemma StartIs(t: Timed, m: MsgId, fds: seq<Fd>, accepts: set<Fd>, timeout: int)
    requires t.w.Shaped()
    ensures var ms := TimeoutMs(timeout);
            Start(t, m, fds, accepts, timeout)
              == Timed(Polls(Add(t.p.interest, m, fds, |fds|, accepts), t.p.polls[m := New(fds)], t.p.timers + {m}, t.p.ready),
                       Insert(t.w, m, ms), t.due[m := t.w.last + Delay(t.w.size, ms)])
  {
  }

  /** Of the timeouts out the first q have been called; m is in hand, and the rest is still to come. */
  predicate Still(out: seq<MsgId>, q: nat, m: MsgId, rest: seq<MsgId>) {
    q < |out| && out[q..] == [m] + rest
  }

  lemma CallOne(p: Polls, out: seq<MsgId>, q: nat, m: MsgId, rest: seq<MsgId>)
    requires Still(out, q, m, rest)
    ensures q < |out| && ExpireAll(p, out[..q + 1]) == Expire(ExpireAll(p, out[..q]), m)
    ensures rest == [] ==> out[..q + 1] == out
  {
    assert out[q..][0] == m && out[q..][1..] == rest;
    assert out[..q + 1][..q] == out[..q];
  }

  lemma NextOf(out: seq<MsgId>, q: nat, m: MsgId, rest: seq<MsgId>, n: MsgId, more: seq<MsgId>)
    requires Still(out, q, m, rest) && rest == [n] + more
    ensures Still(out, q + 1, n, more)
  {
    assert out[q..][1..] == rest;
  }

  lemma CallNone(p: Polls, out: seq<MsgId>)
    ensures out[..0] == [] && ExpireAll(p, out[..0]) == p
  {
  }

  lemma FirstOf(out: seq<MsgId>, n: MsgId, more: seq<MsgId>)
    requires out == [n] + more
    ensures Still(out, 0, n, more)
  {
    assert out[0..] == out;
  }

  lemma NotesStart(t: Timed, batch: seq<Event>)
    requires t.w.Shaped()
    ensures NoteAll(t, batch[..0]) == t && NoteAll(t, batch[..|batch|]) == NoteAll(t, batch)
    ensures forall p :: CallbackAll(p, batch[..0]) == p && CallbackAll(p, batch[..|batch|]) == CallbackAll(p, batch)
  {
    assert batch[..0] == [] && batch[..|batch|] == batch;
  }

  lemma {:induction false} FewInSet(s: seq<MsgId>, big: set<MsgId>)
    requires NoRepeat(s) && forall m :: m in s ==> m in big
    ensures |s| <= |big|
  {
    if s != [] {
      var b := s[..|s| - 1];
      assert s == b + [s[|b|]];
      FewInSet(b, big - {s[|b|]});
    }
  }

  /** No more timeouts are delivered than there are polls. */
  lemma FewTimeouts(t: Timed, batch: seq<Event>, now: nat, n: nat)
    requires Joined(t) && Reported(t.p.interest, batch) && t.w.last <= now && n == |t.p.polls|
    ensures var r := NoteAll(t, batch);
            && r.w.Shaped() && r.w.last <= now && |Scan(r.w, now).1| <= n
            && (Ends(false, r.w, now) <==> !Hangs(r.w.pos, r.w.size, Target(r.w, now)))
  {
    var r := NoteAll(t, batch);
    DealWakesOnce(false, t, batch, now);
    WakeIs(false, t, batch, now);
    hide Scan, ExpireAll, CallbackAll, NoteAll, PollRuns.Dealt, Reported;
    var out := Scan(r.w, now).1;
    FewInSet(out, t.p.polls.Keys);
  }

  /** What Deal leaves, told by its parts. */
  lemma DealIs(t: Timed, batch: seq<Event>, now: nat, v: Timed)
    requires Joined(t) && Reported(t.p.interest, batch) && t.w.last <= now
    requires var r := NoteAll(t, batch);
             v == Timed(ExpireAll(CallbackAll(r.p, batch), Scan(r.w, now).1), Scan(r.w, now).0, TimerExact.Left(r.due, Scan(r.w, now).1))
    ensures v == Wake(false, t, batch, now).0 && Joined(v)
  {
    DealWakesOnce(false, t, batch, now);
    WakeIs(false, t, batch, now);
    hide Scan, ExpireAll, CallbackAll, NoteAll, PollRuns.Dealt, Reported;
  }

  /** A return takes nothing from the wheel. */
  lemma ReturnJoins(t: Timed)
    requires Joined(t) && t.p.ready != []
    ensures t.p.ready[0] in t.p.polls && t.p.ready[0] in t.p.ready && Joined(t.(p := Return(t.p).0))
    ensures Return(t.p) == (t.p.(polls := t.p.polls - {t.p.ready[0]}, ready := t.p.ready[1..]), t.p.polls[t.p.ready[0]].activeFdsNums)
  {
    PollRuns.ReturnKeeps(t.p);
  }

  /** The scan aims at the same bucket, whatever the nodes are called. */
  lemma TargetAddressed(w: Wheel<TaskItem>, now: nat)
    requires w.Shaped() && w.last <= now
    ensures Target(Addressed(w), now) == Target(w, now) && Addressed(w).pos == w.pos && Addressed(w).size == w.size
  {
  }

  /** An event leads to a poll whose timer node is in the wheel, unless an earlier event has cancelled it. */
  lemma NodeIsThere(t: Timed, batch: seq<Event>, q: nat)
    requires Joined(t) && Reported(t.p.interest, batch) && q < |batch|
    ensures var r, m := NoteAll(t, batch[..q]), batch[q].msg;
            m in r.p.polls && (!r.p.polls[m].IsRemoveFromTimeoutList ==> exists b: nat :: InBucket(r.w, b, m))
  {
    var b, m := batch[..q], batch[q].msg;
    var r := NoteAll(t, b);
    PreparePhase(t.p, b);
    NotesTrack(t, b);
    assert m in t.p.timers;
    assert Prepared(r.p.polls[m], t.p.polls[m].fds, b, m);
    if !r.p.polls[m].IsRemoveFromTimeoutList {
      assert InBucket(r.w, Home(r.w, r.due[m]), m);
    }
  }

  lemma EmptyWheel(timer: bEpTimer, now: nat)
    requires timer.Valid() && timer.View() == Wheel(BUCKETS, 0, now, seq(BUCKETS, _ => []))
    ensures timer.Items() == {} && |timer.TaskItemBucket| == BUCKETS && timer.BucketPosNow < BUCKETS
    ensures Addressed(timer.View()) == Wheel(BUCKETS, 0, now, seq(BUCKETS, _ => []))
  {
    forall b | b in timer.TaskItemBucket ensures b.items == [] {
      var k :| 0 <= k < |timer.TaskItemBucket| && timer.TaskItemBucket[k] == b;
      assert timer.View().buckets[k] == b.items;
    }
  }

  lemma EmptyIsJoined(now: nat)
    ensures Joined(Timed(Polls(map[], map[], {}, []), Wheel(BUCKETS, 0, now, seq(BUCKETS, _ => [])), map[]))
  {
  }

  lemma ExpireIs(p: Polls, m: MsgId)
    requires m in p.polls
    ensures Expire(p, m) == Polls(p.interest - FdSet(p.polls[m].fds), p.polls[m := p.polls[m].(IsTasktimeout := true)], p.timers - {m}, p.ready + [m])
  {
  }

  /** Items with different addresses: the first one, and the others. */
  lemma OthersDiffer(s: seq<TaskItem>)
    requires s != [] && NoRepeat(Addresses(s))
    ensures Addresses(s)[0] == s[0].address && Addresses(s)[1..] == Addresses(s[1..])
    ensures forall x :: x in s[1..] ==> x in s && x.address != s[0].address
  {
    forall x | x in s[1..] ensures x in s && x.address != s[0].address {
      var k :| 0 <= k < |s[1..]| && s[1..][k] == x;
      assert s[k + 1] == x && Addresses(s)[k + 1] == x.address;
    }
  }

  /** The routine that called poll, and whether it is the main routine. */
  datatype Caller = Caller(self: nat, isMain: bool)

  class bRoutineEnv {
    var interest: map<Fd, Interest>
    var polls: map<MsgId, poll_message>
    /** The TaskItems that `AddTask` was given. */
    var ready: seq<TaskItem>
    const TimeoutScaner: bEpTimer
    /** Who called the polls that have not returned. */
    ghost var callers: map<MsgId, Caller>
    /** The polls whose timer node has neither been cancelled nor delivered, and their deadlines. */
    ghost var timers: set<MsgId>
    ghost var due: map<MsgId, int>

    /** The timer nodes in the wheel are those of the polls that are known by their addresses. */
    ghost predicate Owns(x: TaskItem)
      reads `polls
    {
      x.address in polls && polls[x.address].task == x
    }

    /** The TaskItem of every poll, in the wheel or ready, dispatches the routine that called it. */
    ghost predicate Attributed()
      reads `polls, `callers
    {
      callers.Keys == polls.Keys && forall m :: m in polls ==> callers[m] == Caller(polls[m].task.self, polls[m].task.isMain)
    }

    ghost predicate Valid()
      reads `polls, `ready, TimeoutScaner, TimeoutScaner.TaskItemBucket, TimeoutScaner.Items()
    {
      && TimeoutScaner.Valid() && |TimeoutScaner.TaskItemBucket| == BUCKETS
      && (forall m :: m in polls ==> polls[m].task.address == m)
      && (forall x :: x in TimeoutScaner.Items() ==> Owns(x))
      && (forall x :: x in ready ==> Owns(x))
    }

    ghost function Views(): map<MsgId, PollMessage>
      reads `polls, polls.Values
    {
      map m | m in polls :: polls[m].View()
    }

    ghost function Records(): Polls
      reads this, polls.Values
    {
      Polls(interest, Views(), timers, Addresses(ready))
    }

    ghost function Clock(): (w: Wheel<MsgId>)
      reads TimeoutScaner, TimeoutScaner.TaskItemBucket
      requires TimeoutScaner.BucketPosNow < |TimeoutScaner.TaskItemBucket|
      ensures w.Shaped()
    {
      Addressed(TimeoutScaner.View())
    }

    ghost function View(): Timed
      reads this, polls.Values, TimeoutScaner, TimeoutScaner.TaskItemBucket
      requires TimeoutScaner.BucketPosNow < |TimeoutScaner.TaskItemBucket|
    {
      Timed(Records(), Clock(), due)
    }

    constructor (now: nat)
      ensures Valid() && Joined(View()) && View() == Timed(Polls(map[], map[], {}, []), Wheel(BUCKETS, 0, now, seq(BUCKETS, _ => [])), map[])
      ensures fresh(TimeoutScaner) && fresh(TimeoutScaner.TaskItemBucket) && Attributed() && View().w.size == 30000
    {
      interest, polls, ready, callers := map[], map[], [], map[];
      timers, due := {}, map[];
      TimeoutScaner := new bEpTimer.New(now);
      new;
      EmptyWheel(TimeoutScaner, now);
      EmptyIsJoined(now);
      hide bEpTimer.Valid, bEpTimer.View, bEpTimer.Items, Addressed, Joined;
    }

    /** A change of one record changes one view, and not the wheel. */
    twostate lemma OnlyRecord(m: MsgId)
      requires old(Valid()) && polls == old(polls) && m in polls
      requires forall k :: k in polls && k != m ==> unchanged(polls[k])
      requires forall x :: x in ready ==> x in old(ready) || Owns(x)
      requires unchanged(TimeoutScaner) && unchanged(TimeoutScaner.TaskItemBucket) && unchanged(old(TimeoutScaner.Items()))
      ensures Valid() && Views() == old(Views())[m := polls[m].View()] && Clock() == old(Clock())
      ensures TimeoutScaner.Items() == old(TimeoutScaner.Items())
    {
      hide bEpTimer.Valid, bEpTimer.View, bEpTimer.Items, Addressed;
      TimeoutScaner.Undisturbed();
    }

    lemma Parts()
      requires Valid()
      ensures TimeoutScaner.Valid() && TimeoutScaner.BucketPosNow < |TimeoutScaner.TaskItemBucket|
      ensures Clock() == Addressed(TimeoutScaner.View()) && Clock().last == TimeoutScaner.View().last == TimeoutScaner.LastCheckTime
      ensures Clock().Shaped() && Clock().size <= 0x7FFF_FFFF_FFFF_FFFF
      ensures View() == Timed(Records(), Clock(), due) && Records() == Polls(interest, Views(), timers, Addresses(ready))
    {
    }

    /** The wheel has changed and links no node that it did not link before. */
    twostate lemma NoNewNodes()
      requires old(Valid()) && polls == old(polls) && ready == old(ready)
      requires TimeoutScaner.Valid() && TimeoutScaner.Items() <= old(TimeoutScaner.Items())
      ensures Valid() && Clock() == Addressed(TimeoutScaner.View())
    {
      hide bEpTimer.Valid, bEpTimer.View, bEpTimer.Items, Addressed;
    }

    /** A new poll whose node may be in the wheel. */
    twostate lemma NewPoll(m: MsgId, new pm: poll_message)
      requires old(Valid()) && m !in old(polls) && polls == old(polls)[m := pm] && pm.task.address == m && ready == old(ready)
      requires forall k :: k in old(polls) ==> unchanged(old(polls[k]))
      requires TimeoutScaner.Valid() && TimeoutScaner.Items() <= old(TimeoutScaner.Items()) + {pm.task}
      ensures Valid() && Clock() == Addressed(TimeoutScaner.View()) && Views() == old(Views())[m := pm.View()]
    {
      hide bEpTimer.Valid, bEpTimer.View, bEpTimer.Items, Addressed;
    }

    /** `epoll_ctl` with `EPOLL_CTL_DEL` for every entry. */
    method DeleteAll(fds: seq<Fd>)
      modifies this`interest
      ensures interest == old(interest) - FdSet(fds)
    {
      var i := 0;
      while i < |fds|
        invariant i <= |fds|
        invariant interest == old(interest) - FdSet(fds[..i])
      {
        interest := interest - {fds[i]};
        assert FdSet(fds[..i + 1]) == FdSet(fds[..i]) + {fds[i]};
        i := i + 1;
      }
      assert fds[..i] == fds;
    }

    /** Where in the wheel the timer node of a poll is linked. */
    lemma NodeOf(m: MsgId) returns (b: nat, k: nat)
      requires Valid() && m in polls && exists b: nat :: InBucket(Clock(), b, m)
      ensures b < |TimeoutScaner.TaskItemBucket| && k < |TimeoutScaner.TaskItemBucket[b].items|
      ensures TimeoutScaner.TaskItemBucket[b].items[k] == polls[m].task && polls[m].task.address == m
    {
      b :| InBucket(Clock(), b, m);
      var items := TimeoutScaner.TaskItemBucket[b].items;
      assert Clock().buckets[b] == Addresses(items);
      k :| 0 <= k < |items| && items[k].address == m;
      assert TimeoutScaner.TaskItemBucket[b] in TimeoutScaner.TaskItemBucket && items[k] in TimeoutScaner.Items();
    }

    /** Addresses tell the timer node of a poll from all others in the wheel. */
    lemma NodesDiffer(m: MsgId)
      requires Valid() && m in polls
      ensures var w := TimeoutScaner.View();
              w.Shaped() && forall b :: 0 <= b < w.size ==> Tells(w.buckets[b], polls[m].task)
    {
      forall b | 0 <= b < |TimeoutScaner.TaskItemBucket| ensures Tells(TimeoutScaner.TaskItemBucket[b].items, polls[m].task) {
        var c := TimeoutScaner.TaskItemBucket[b];
        assert c in TimeoutScaner.TaskItemBucket;
        forall x | x in c.items ensures Owns(x) {
          var k :| 0 <= k < |c.items| && c.items[k] == x;
          assert x in TimeoutScaner.Items();
        }
      }
    }

    /** `RemoveSelfFromOwnerlink_Save(pm->task)`. */
    method CancelTimer(m: MsgId)
      requires Valid() && m in polls && exists b: nat :: InBucket(Clock(), b, m)
      modifies this`timers, this`due, TimeoutScaner.TaskItemBucket, TimeoutScaner.Items()
      ensures Valid() && Clock() == Cancel(old(Clock()), m)
      ensures timers == old(timers) - {m} && due == old(due) - {m}
      ensures TimeoutScaner.Items() <= old(TimeoutScaner.Items())
    {
      hide *;
      ghost var b, k := NodeOf(m);
      Parts();
      NodesDiffer(m);
      CancelAddressed(TimeoutScaner.View(), polls[m].task);
      timers, due := timers - {m}, due - {m};
      TimeoutScaner.Drop(polls[m].task, b, k);
      NoNewNodes();
    }

    method pollPerpare(e: Event)
      requires Valid() && e.msg in polls
      requires !polls[e.msg].IsRemoveFromTimeoutList ==> exists b: nat :: InBucket(Clock(), b, e.msg)
      modifies this`timers, this`due, polls[e.msg], TimeoutScaner.TaskItemBucket, TimeoutScaner.Items()
      ensures Valid() && View() == PollTimers.Note(old(View()), e)
      ensures TimeoutScaner.Items() <= old(TimeoutScaner.Items())
    {
      hide bEpTimer.Valid, bEpTimer.View, bEpTimer.Items, Addressed, Noted, InBucket, Cancel;
      var cancel := polls[e.msg].Note(e);
      OnlyRecord(e.msg);
      if cancel {
        CancelTimer(e.msg);
      }
    }

    /** `AddTask` for the TaskItem of a poll. */
    method MakeReady(task: TaskItem)
      requires Valid() && Owns(task)
      modifies this`ready
      ensures Valid() && Views() == old(Views()) && Clock() == old(Clock()) && Addresses(ready) == old(Addresses(ready)) + [task.address]
    {
      hide bEpTimer.Valid, bEpTimer.View, bEpTimer.Items, Addressed;
      AddressesAppend(ready, [task]);
      ready := ready + [task];
      OnlyRecord(task.address);
    }

    /** A poll that is done gives up its descriptors and is made ready. */
    method Finish(m: MsgId)
      requires Valid() && m in polls
      modifies this`interest, this`ready
      ensures Valid() && Clock() == old(Clock())
      ensures Records() == old(Records()).(interest := old(interest) - FdSet(polls[m].fds), ready := old(Records()).ready + [m])
    {
      TaskOf(m);
      hide Valid, Views, Clock, Addresses, Owns;
      DeleteAll(polls[m].fds);
      StillValid();
      MakeReady(polls[m].task);
    }

    lemma TaskOf(m: MsgId)
      requires Valid() && m in polls
      ensures Owns(polls[m].task) && polls[m].task.address == m
    {
    }

    /** The interest list is in the kernel. */
    twostate lemma StillValid()
      requires old(Valid()) && polls == old(polls) && ready == old(ready)
      requires forall k :: k in polls ==> unchanged(polls[k])
      requires unchanged(TimeoutScaner) && unchanged(TimeoutScaner.TaskItemBucket) && unchanged(old(TimeoutScaner.Items()))
      ensures Valid() && Views() == old(Views()) && Clock() == old(Clock())
    {
      hide bEpTimer.Valid, bEpTimer.View, bEpTimer.Items, Addressed;
      TimeoutScaner.Undisturbed();
    }

    method CountDown(m: MsgId) returns (last: bool)
      requires Valid() && m in polls
      modifies polls[m]
      ensures Valid() && Clock() == old(Clock()) && m in old(Views())
      ensures var pm := old(Views())[m].(activeFdsNums2 := old(Views())[m].activeFdsNums2 - 1);
              && (last <==> !pm.IsJoinActiveList && pm.activeFdsNums2 == 0)
              && Views() == old(Views())[m := if last then pm.(IsJoinActiveList := true) else pm]
    {
      hide bEpTimer.Valid, bEpTimer.View, bEpTimer.Items, Addressed;
      last := polls[m].CountDown();
      OnlyRecord(m);
    }

    method pollCallback(e: Event)
      requires Valid() && e.msg in polls
      modifies this`interest, this`ready, polls[e.msg]
      ensures Valid() && View() == old(View()).(p := Callback(old(Records()), e))
    {
      Parts();
      ViewOf(e.msg);
      hide Valid, Views, Clock, Addresses, FdSet;
      var last := CountDown(e.msg);
      if last {
        Finish(e.msg);
      }
    }

    lemma ViewOf(m: MsgId)
      requires m in polls
      ensures m in Views() && Views()[m].fds == polls[m].fds
      ensures Records().polls == Views() && Records().interest == interest && Records().timers == timers
    {
    }

    method SetTimeout(m: MsgId)
      requires Valid() && m in polls
      modifies polls[m]
      ensures Valid() && Clock() == old(Clock()) && m in old(Records()).polls
      ensures Records() == old(Records()).(polls := old(Records()).polls[m := old(Records()).polls[m].(IsTasktimeout := true)])
    {
      hide bEpTimer.Valid, bEpTimer.View, bEpTimer.Items, Addressed;
      polls[m].IsTasktimeout := true;
      OnlyRecord(m);
    }

    /** The wheel has delivered the node. */
    ghost method DropTimer(m: MsgId)
      requires Valid()
      modifies this`timers
      ensures Valid() && Clock() == old(Clock()) && Records() == old(Records()).(timers := old(timers) - {m})
    {
      hide Valid, Clock, Addresses;
      timers := timers - {m};
      StillValid();
    }

    /** The body of the timeout loop for a node that the wheel has delivered, with `pollTimeout` called through it. */
    method pollTimeout(task: TaskItem)
      requires Valid() && Owns(task)
      modifies this`interest, this`ready, this`timers, polls[task.address]
      ensures Valid() && View() == old(View()).(p := Expire(old(Records()), task.address))
    {
      ghost var p := Records();
      hide *;
      Parts();
      InRecords(task);
      ViewOf(task.address);
      ExpireIs(p, task.address);
      SetTimeout(task.address);
      Finish(task.address);
      DropTimer(task.address);
      Parts();
    }

    method NewMessage(m: MsgId, self: nat, isMain: bool, fds: seq<Fd>) returns (pm: poll_message)
      requires Valid()
      ensures Valid() && Views() == old(Views()) && Clock() == old(Clock())
      ensures fresh(pm) && fresh(pm.task) && pm.View() == New(fds) && pm.task.Detached() && pm.task.address == m
      ensures pm.task.self == self && pm.task.isMain == isMain
    {
      hide bEpTimer.Valid, bEpTimer.View, Addressed;
      pm := new poll_message(m, self, isMain, fds);
      TimeoutScaner.Undisturbed();
    }

    /** A new poll, with its timer node put into the wheel. */
    method Enlist(m: MsgId, pm: poll_message, ms: nat)
      requires Valid() && m !in polls && pm.task.Detached() && pm.task.address == m
      modifies this`polls, this`timers, this`due, this`callers, pm.task, TimeoutScaner.TaskItemBucket, TimeoutScaner.Items()
      ensures Valid() && polls == old(polls)[m := pm] && Views() == old(Views())[m := pm.View()]
      ensures Clock() == Insert(old(Clock()), m, ms) && callers == old(callers)[m := Caller(pm.task.self, pm.task.isMain)]
      ensures timers == old(timers) + {m} && due == old(due)[m := old(Clock()).last + Delay(old(Clock()).size, ms)]
    {
      hide *;
      Parts();
      ghost var w := Clock();
      InsertAddressed(TimeoutScaner.View(), pm.task, ms);
      timers, due, polls := timers + {m}, due[m := w.last + Delay(w.size, ms)], polls[m := pm];
      callers := callers[m := Caller(pm.task.self, pm.task.isMain)];
      TimeoutScaner.Put(pm.task, ms);
      NewPoll(m, pm);
    }

    /** `epoll_ctl` with `EPOLL_CTL_ADD` for every entry; what the kernel refuses is ignored. */
    method AddAll(m: MsgId, fds: seq<Fd>, accepts: set<Fd>)
      requires Valid() && m in polls
      modifies this`interest
      ensures interest == Add(old(interest), m, fds, |fds|, accepts)
      ensures Valid() && Views() == old(Views()) && Clock() == old(Clock())
    {
      hide bEpTimer.Valid, bEpTimer.View, bEpTimer.Items, Addressed;
      var i := 0;
      while i < |fds|
        invariant i <= |fds| && interest == Add(old(interest), m, fds, i, accepts)
      {
        if fds[i] in accepts && fds[i] !in interest {
          interest := interest[fds[i] := Interest(m, i)];
        }
        i := i + 1;
      }
      OnlyRecord(m);
    }

    /** A new poll_message, its timer node and its descriptors. */
    method Register(m: MsgId, self: nat, isMain: bool, fds: seq<Fd>, accepts: set<Fd>, timeout: int)
      requires Valid() && Joined(View()) && m !in polls
      modifies this, TimeoutScaner.TaskItemBucket, TimeoutScaner.Items()
      ensures Valid() && Joined(View()) && View() == Start(old(View()), m, fds, accepts, timeout)
      ensures polls.Keys == old(polls).Keys + {m} && (forall k :: k in old(polls) ==> polls[k] == old(polls)[k])
      ensures polls[m].task.self == self && polls[m].task.isMain == isMain && callers == old(callers)[m := Caller(self, isMain)]
    {
      hide *;
      Parts();
      NotAPoll(m);
      StartJoins(View(), m, fds, accepts, timeout);
      StartIs(View(), m, fds, accepts, timeout);
      var pm := NewMessage(m, self, isMain, fds);
      Enlist(m, pm, TimeoutMs(timeout));
      AddAll(m, fds, accepts);
      Parts();
    }

    /**
      The part of `poll` before its routine gives up the processor: the TaskItem of the poll
      dispatches the caller, and is filed under its deadline.
     */
    method poll(m: MsgId, self: nat, isMain: bool, fds: seq<Fd>, accepts: set<Fd>, timeout: int)
      requires Valid() && Joined(View()) && m !in polls
      modifies this, TimeoutScaner.TaskItemBucket, TimeoutScaner.Items()
      ensures Valid() && Joined(View()) && View() == Start(old(View()), m, fds, accepts, timeout)
      ensures m in polls && polls[m].task.self == self && polls[m].task.isMain == isMain
      ensures callers == old(callers)[m := Caller(self, isMain)] && (old(Attributed()) ==> Attributed())
      ensures m in due && due[m] == old(TimeoutScaner.LastCheckTime) + if 1 <= timeout <= 30000 then timeout else 30000
    {
      StartsAt(m, fds, accepts, timeout);
      hide *;
      Register(m, self, isMain, fds, accepts, timeout);
      NowAttributed(m);
      DueIs();
    }

    lemma StartsAt(m: MsgId, fds: seq<Fd>, accepts: set<Fd>, timeout: int)
      requires Valid()
      ensures var d := Start(View(), m, fds, accepts, timeout).due;
              m in d && d[m] == TimeoutScaner.LastCheckTime + if 1 <= timeout <= 30000 then timeout else 30000
    {
      Parts();
      StartIs(View(), m, fds, accepts, timeout);
      DelayIs(timeout);
    }

    lemma DueIs()
      requires Valid()
      ensures View().due == due
    {
    }

    /** A timeout is kept to the millisecond up to 30 s, and is 30 s beyond that and if it is negative. */
    lemma DelayIs(timeout: int)
      requires Valid()
      ensures Clock().size == 30000 && Delay(30000, TimeoutMs(timeout)) == if 1 <= timeout <= 30000 then timeout else 30000
    {
    }

    twostate lemma NowAttributed(m: MsgId)
      requires polls.Keys == old(polls).Keys + {m} && (forall k :: k in old(polls) && k != m ==> polls[k] == old(polls)[k])
      requires callers == old(callers)[m := Caller(polls[m].task.self, polls[m].task.isMain)]
      ensures old(Attributed()) ==> Attributed()
    {
    }

    /** The list that the scan returned: nodes of polls, linked in it and nowhere else. */
    ghost predicate Delivered(list: TaskItemsList)
      reads `polls, list, list.items
    {
      && list.Valid() && list.cancelled == 0 && list !in TimeoutScaner.TaskItemBucket
      && forall x :: x in list.items ==> Owns(x)
    }

    /** The heap of `popHead()` on that list: polls and wheel are not touched. */
    method TakeFirst(list: TaskItemsList) returns (task: TaskItem?)
      requires Valid() && Delivered(list) && |list.items| < 0x1_0000_0000
      modifies list, list.All()
      ensures Valid() && Clock() == old(Clock()) && Delivered(list) && list.All() <= old(list.All())
      ensures if old(list.items) == [] then task == null && list.items == []
              else task != null && old(list.items) == [task] + list.items
    {
      hide bEpTimer.View, Addressed, TaskItemsList.Linked, TaskItemsList.LinkAt;
      list.OwnsItems();
      TimeoutScaner.OtherOwners(list);
      task := list.PopHeadUnsafe();
      TimeoutScaner.Undisturbed();
      if task != null {
        assert forall k :: 0 <= k < |list.items| ==> list.items[k] == old(list.items)[k + 1];
      }
    }

    lemma FirstAddress(task: TaskItem, rest: seq<TaskItem>)
      ensures Addresses([task] + rest) == [task.address] + Addresses(rest)
    {
      AddressesAppend([task], rest);
      assert Addresses([task]) == [task.address];
    }

    lemma OwnsAll(list: TaskItemsList)
      requires Delivered(list)
      ensures forall x :: x in list.items ==> Owns(x)
    {
    }

    /** `timeoutTaskList->popHead()`. */
    method NextTimeout(list: TaskItemsList) returns (task: TaskItem?)
      requires Valid() && Delivered(list) && |list.items| < 0x1_0000_0000
      modifies list, list.All()
      ensures Valid() && Clock() == old(Clock()) && Delivered(list) && list.All() <= old(list.All()) && |list.items| <= old(|list.items|)
      ensures task == null <==> old(Addresses(list.items)) == []
      ensures task != null ==> Owns(task) && old(Addresses(list.items)) == [task.address] + Addresses(list.items)
    {
      OwnsAll(list);
      hide Valid, Clock, Delivered, Addresses, Owns;
      task := TakeFirst(list);
      if task != null {
        assert task in old(list.items);
        FirstAddress(task, list.items);
      }
    }

    /** The scan of the wheel; null stands for the loop that never ends. */
    method Sweep(now: nat) returns (list: TaskItemsList?)
      requires Valid() && TimeoutScaner.LastCheckTime <= now
      modifies this`due, TimeoutScaner, TimeoutScaner.TaskItemBucket, TimeoutScaner.Items()
      ensures var w := old(Clock());
              if list == null then Hangs(w.pos, w.size, Target(w, now))
              else
                && !Hangs(w.pos, w.size, Target(w, now))
                && Valid() && Clock() == Scan(w, now).0 && due == TimerExact.Left(old(due), Scan(w, now).1)
                && Delivered(list) && Addresses(list.items) == Scan(w, now).1
                && fresh(list) && list.All() <= old(TimeoutScaner.Items())
    {
      hide *;
      Parts();
      ScanAddressed(TimeoutScaner.View(), now);
      TargetAddressed(TimeoutScaner.View(), now);
      due := TimerExact.Left(due, Scan(Clock(), now).1);
      list := TimeoutScaner.NewMergeUpdate2Now(now);
      if list != null {
        NoNewNodes();
        NodesDelivered(list);
      }
    }

    twostate lemma NodesDelivered(new list: TaskItemsList)
      requires old(Valid()) && polls == old(polls) && list.Valid() && list.cancelled == 0 && fresh(list)
      requires list.All() <= old(TimeoutScaner.Items())
      ensures Delivered(list)
    {
      forall x | x in list.items ensures Owns(x) {
        var k :| 0 <= k < |list.items| && list.items[k] == x;
        assert x in list.All();
      }
    }

    /** One round of the timeout loop: the node in hand, and then the next one. */
    method OneTimeout(task: TaskItem, list: TaskItemsList) returns (next: TaskItem?)
      requires Valid() && Owns(task) && Delivered(list) && |list.items| < 0x1_0000_0000
      modifies this`interest, this`ready, this`timers, polls.Values, list, list.All()
      ensures Valid() && View() == old(View()).(p := Expire(old(Records()), task.address)) && Delivered(list)
      ensures list.All() <= old(list.All()) && |list.items| <= old(|list.items|)
      ensures next == null <==> old(Addresses(list.items)) == []
      ensures next != null ==> Owns(next) && old(Addresses(list.items)) == [next.address] + Addresses(list.items)
    {
      hide *;
      InRecords(task);
      pollTimeout(task);
      Parts();
      next := NextTimeout(list);
      Parts();
    }

    lemma InRecords(task: TaskItem)
      requires Owns(task)
      ensures task.address in polls && polls[task.address] in polls.Values
    {
    }

    /** The loop over the nodes that the scan delivered. */
    method CallTimeouts(list: TaskItemsList, ghost t: Timed, ghost out: seq<MsgId>, ghost nodes: set<TaskItem>)
      requires Valid() && Delivered(list) && |list.items| < 0x1_0000_0000
      requires View() == t && Addresses(list.items) == out && list.All() <= nodes
      modifies this`interest, this`ready, this`timers, polls.Values, list, nodes
      ensures Valid() && View() == t.(p := ExpireAll(t.p, out))
    {
      hide *;
      Parts();
      CallNone(t.p, out);
      var task := NextTimeout(list);
      Parts();
      ghost var q := 0;
      if task != null {
        FirstOf(out, task.address, Addresses(list.items));
      }
      while task != null
        invariant Valid() && Delivered(list) && |list.items| < 0x1_0000_0000 && list.All() <= nodes
        invariant q <= |out| && (task == null ==> out[..q] == out)
        invariant task != null ==> Owns(task) && Still(out, q, task.address, Addresses(list.items))
        invariant View() == t.(p := ExpireAll(t.p, out[..q]))
        decreases |out| - q
      {
        ghost var m, rest := task.address, Addresses(list.items);
        CallOne(t.p, out, q, m, rest);
        Parts();
        task := OneTimeout(task, list);
        if task != null {
          NextOf(out, q, m, rest, task.address, Addresses(list.items));
        }
        q := q + 1;
      }
    }

    /** The scan, and the loop over what it delivers. */
    method Timeouts(now: nat) returns (ended: bool)
      requires Valid() && TimeoutScaner.LastCheckTime <= now && |Scan(Clock(), now).1| < 0x1_0000_0000
      modifies this`interest, this`timers, this`due, this`ready, polls.Values
      modifies TimeoutScaner, TimeoutScaner.TaskItemBucket, TimeoutScaner.Items()
      ensures var w := old(Clock());
              if !ended then Hangs(w.pos, w.size, Target(w, now))
              else
                && !Hangs(w.pos, w.size, Target(w, now)) && Valid()
                && View() == Timed(ExpireAll(old(Records()), Scan(w, now).1), Scan(w, now).0, TimerExact.Left(old(due), Scan(w, now).1))
    {
      hide *;
      Parts();
      var list := Sweep(now);
      if list == null {
        return false;
      }
      Parts();
      CallTimeouts(list, View(), Addresses(list.items), list.All());
      ended := true;
    }

    /** The first loop of `Deal`. */
    method PrepareBatch(batch: seq<Event>)
      requires Valid() && Joined(View()) && Reported(interest, batch)
      modifies this`timers, this`due, polls.Values, TimeoutScaner.TaskItemBucket, TimeoutScaner.Items()
      ensures Valid() && View() == NoteAll(old(View()), batch)
      ensures TimeoutScaner.Items() <= old(TimeoutScaner.Items())
    {
      ghost var t := View();
      hide *;
      EventsHavePolls(batch);
      NotesStart(t, batch);
      for q := 0 to |batch|
        invariant Valid() && View() == NoteAll(t, batch[..q])
        invariant TimeoutScaner.Items() <= old(TimeoutScaner.Items())
      {
        NodeIsThere(t, batch, q);
        OneMoreNote(t, batch, q);
        RecordOf(batch[q].msg);
        pollPerpare(batch[q]);
      }
    }

    /** The second loop of `Deal`. */
    method CallBatch(batch: seq<Event>)
      requires Valid() && forall k :: 0 <= k < |batch| ==> batch[k].msg in polls
      modifies this`interest, this`ready, polls.Values
      ensures Valid() && View() == old(View()).(p := CallbackAll(old(Records()), batch))
    {
      ghost var t := View();
      hide *;
      Parts();
      NotesStart(t, batch);
      for q := 0 to |batch|
        invariant Valid() && View() == t.(p := CallbackAll(t.p, batch[..q]))
      {
        OneMoreCallback(t.p, batch, q);
        Parts();
        RecordOf(batch[q].msg);
        pollCallback(batch[q]);
        Parts();
      }
    }

    /** Both loops over the batch. */
    method Events(batch: seq<Event>)
      requires Valid() && Joined(View()) && Reported(interest, batch)
      modifies this`interest, this`timers, this`due, this`ready, polls.Values
      modifies TimeoutScaner.TaskItemBucket, TimeoutScaner.Items()
      ensures Valid() && TimeoutScaner.Items() <= old(TimeoutScaner.Items())
      ensures var r := NoteAll(old(View()), batch);
              Clock() == r.w && due == r.due && Records() == CallbackAll(r.p, batch)
    {
      hide *;
      EventsHavePolls(batch);
      PrepareBatch(batch);
      Parts();
      CallBatch(batch);
      Parts();
    }

    /**
      `Deal`; the answer is whether the scan of the wheel comes to an end. What is made ready
      dispatches the routines that called the polls.
     */
    method Deal(batch: seq<Event>, now: nat) returns (ended: bool)
      requires Valid() && Joined(View()) && Reported(interest, batch)
      requires TimeoutScaner.LastCheckTime <= now && |polls| < 0x1_0000_0000
      modifies this`interest, this`timers, this`due, this`ready, polls.Values
      modifies TimeoutScaner, TimeoutScaner.TaskItemBucket, TimeoutScaner.Items()
      ensures ended <==> Ends(false, NoteAll(old(View()), batch).w, now)
      ensures ended ==> Valid() && Joined(View()) && View() == Wake(false, old(View()), batch, now).0
      ensures ended && old(Attributed()) ==> Attributed() && forall x :: x in ready ==> Dispatches(x)
    {
      hide *;
      ended := DealWith(batch, now);
      if ended {
        ReadyAreAttributed();
      }
    }

    /** The events, and then the timeouts. */
    method DealWith(batch: seq<Event>, now: nat) returns (ended: bool)
      requires Valid() && Joined(View()) && Reported(interest, batch)
      requires TimeoutScaner.LastCheckTime <= now && |polls| < 0x1_0000_0000
      modifies this`interest, this`timers, this`due, this`ready, polls.Values
      modifies TimeoutScaner, TimeoutScaner.TaskItemBucket, TimeoutScaner.Items()
      ensures ended <==> Ends(false, NoteAll(old(View()), batch).w, now)
      ensures ended ==> Valid() && Joined(View()) && View() == Wake(false, old(View()), batch, now).0
    {
      ghost var t := View();
      hide *;
      EventsHavePolls(batch);
      FewTimeouts(t, batch, now, |polls|);
      Events(batch);
      ended := Timeouts(now);
      if ended {
        DealIs(t, batch, now, View());
      }
    }

    /** What is ready dispatches the routine that called its poll. */
    ghost predicate Dispatches(x: TaskItem)
      reads `callers
    {
      x.address in callers && callers[x.address] == Caller(x.self, x.isMain)
    }

    twostate lemma ReadyAreAttributed()
      requires Valid() && polls == old(polls) && callers == old(callers)
      ensures old(Attributed()) ==> Attributed() && forall x :: x in ready ==> Dispatches(x)
    {
    }

    /** The events of a batch lead to polls. */
    lemma EventsHavePolls(batch: seq<Event>)
      requires Valid() && Joined(View()) && Reported(interest, batch)
      ensures forall k :: 0 <= k < |batch| ==> batch[k].msg in polls
      ensures |View().p.polls| == |polls| && View().p.interest == interest && View().w.last == TimeoutScaner.LastCheckTime && View().w.Shaped()
    {
      assert Views().Keys == polls.Keys && |Views()| == |Views().Keys|;
    }

    lemma RecordOf(m: MsgId)
      requires Valid() && m in polls
      ensures m in View().p.polls && View().p.polls[m].IsRemoveFromTimeoutList == polls[m].IsRemoveFromTimeoutList
      ensures View().w == Clock() && polls[m] in polls.Values
    {
    }

    lemma NotAPoll(m: MsgId)
      requires Valid() && m !in polls
      ensures m !in View().p.polls
    {
    }

    /** A poll that has been made ready has no node in the wheel. */
    lemma ReadyIsOut(x: TaskItem)
      requires Valid() && Joined(View()) && x in ready
      ensures x.address in polls && View().p.polls.Keys == polls.Keys && View().p.polls[x.address].activeFdsNums == polls[x.address].activeFdsNums
      ensures forall y :: y in TimeoutScaner.Items() ==> y.address != x.address
    {
      var m := x.address;
      InReady(x);
      assert m in View().p.polls && m !in timers;
      forall y | y in TimeoutScaner.Items() ensures y.address != m {
        var b, k :| 0 <= b < |TimeoutScaner.TaskItemBucket| && 0 <= k < |TimeoutScaner.TaskItemBucket[b].items| && TimeoutScaner.TaskItemBucket[b].items[k] == y;
        assert Clock().buckets[b] == Addresses(TimeoutScaner.TaskItemBucket[b].items);
        assert InBucket(Clock(), b, y.address);
      }
    }

    lemma InReady(x: TaskItem)
      requires x in ready
      ensures x.address in Addresses(ready)
    {
      var k :| 0 <= k < |ready| && ready[k] == x;
      assert Addresses(ready)[k] == x.address;
    }

    /** And it was made ready by events or by its timeout, which removed its descriptors. */
    twostate lemma WasReleased(x: TaskItem)
      requires old(Valid() && Joined(View()) && x in ready)
      ensures x.address in old(polls) && old(polls[x.address].IsJoinActiveList) != old(polls[x.address].IsTasktimeout)
    {
      WasReady(x);
      assert x.address in old(View()).p.polls && Released(old(View()).p.polls[x.address]);
    }

    twostate lemma WasReady(x: TaskItem)
      requires x in old(ready)
      ensures x.address in Addresses(old(ready))
    {
      var k :| 0 <= k < |old(ready)| && old(ready)[k] == x;
      assert Addresses(old(ready))[k] == x.address;
    }

    /** A poll is ready once. */
    lemma ReadyOnce()
      requires Valid() && Joined(View()) && ready != []
      ensures View().p.ready == Addresses(ready) && View().p.ready[0] == ready[0].address && View().p.ready[1..] == Addresses(ready[1..])
      ensures forall x :: x in ready[1..] ==> x in ready && x.address != ready[0].address
    {
      assert NoRepeat(View().p.ready) && View().p.ready == Addresses(ready);
      hide *;
      OthersDiffer(ready);
    }

    /** The end of a poll_message that has no node in the wheel. */
    method Forget(m: MsgId)
      requires Valid() && (forall x :: x in TimeoutScaner.Items() ==> x.address != m) && forall x :: x in ready ==> x.address != m
      modifies this`polls, this`callers
      ensures Valid() && polls == old(polls) - {m} && Views() == old(Views()) - {m} && Clock() == old(Clock())
      ensures callers == old(callers) - {m}
    {
      hide bEpTimer.Valid, bEpTimer.View, Addressed;
      polls, callers := polls - {m}, callers - {m};
      TimeoutScaner.Undisturbed();
    }

    /**
      The routine r at the head of the ready queue, which is the one that called the poll, goes on:
      the rest of `poll`, up to the end of its poll_message.
     */
    method pollReturn() returns (n: nat, r: nat)
      requires Valid() && Joined(View()) && ready != []
      modifies this`interest, this`polls, this`ready, this`callers
      ensures Valid() && Joined(View()) && (old(Attributed()) ==> Attributed())
      ensures var m := old(ready)[0].address;
              && m in old(View()).p.polls && old(View()).p.ready == Addresses(old(ready))
              && (old(Attributed()) ==> m in old(callers) && r == old(callers)[m].self && callers == old(callers) - {m})
      ensures View() == old(View()).(p := Return(old(View()).p).0) && n == Return(old(View()).p).1
    {
      hide Joined, Return, bEpTimer.Valid, bEpTimer.View, Addressed, Views, Addresses;
      Parts();
      ReturnJoins(View());
      ReadyOnce();
      var x := ready[0];
      var m := x.address;
      ReadyIsOut(x);
      ready := ready[1..];
      var pm := polls[m];
      if !pm.IsJoinActiveList && !pm.IsTasktimeout {
        DeleteAll(pm.fds);
      }
      n, r := pm.activeFdsNums, x.self;
      Forget(m);
      Parts();
      WasReleased(x);
    }
  }
}
