/**
  `poll` and `Deal` on values: the parked polls, the kernel's interest list, the timers and the
  ready queue, and what one event, one callback and one timeout do to them.
 */
module PollSpec {
  type Fd = int
  type MsgId = nat

  /** A `poll_message`, by the names of its fields. */
  datatype PollMessage = PollMessage(
    fds: seq<Fd>, revents: seq<nat>,
    activeFdsNums: nat, activeFdsNums2: int,
    IsJoinActiveList: bool, IsRemoveFromTimeoutList: bool, IsTasktimeout: bool)

  /** What the kernel keeps for a registered descriptor: the poll and the entry that added it. */
  datatype Interest = Interest(msg: MsgId, entry: nat)

  /** One `epoll_event`: the descriptor, the poll its data pointer leads to, and the poll bits. */
  datatype Event = Event(fd: Fd, msg: MsgId, mask: nat)

  /**
    polls are the poll_messages on the stacks of waiting routines, timers those whose timer node
    is in the wheel, and ready the queue to which AddTask appends.
   */
  datatype Polls = Polls(
    interest: map<Fd, Interest>, polls: map<MsgId, PollMessage>, timers: set<MsgId>, ready: seq<MsgId>)

  function Zeros(n: nat): (z: seq<nat>)
    ensures |z| == n && forall k :: 0 <= k < n ==> z[k] == 0
  {
    seq(n, _ => 0)
  }

  function New(fds: seq<Fd>): PollMessage {
    PollMessage(fds, Zeros(|fds|), 0, 0, false, false, false)
  }

  /** `EPOLL_CTL_ADD` for the first k entries; it fails for a descriptor the kernel already has, or does not accept. */
  function Add(interest: map<Fd, Interest>, m: MsgId, fds: seq<Fd>, k: nat, accepts: set<Fd>): map<Fd, Interest>
    requires k <= |fds|
  {
    if k == 0 then interest
    else
      var before := Add(interest, m, fds, k - 1, accepts);
      if fds[k - 1] in accepts && fds[k - 1] !in before then before[fds[k - 1] := Interest(m, k - 1)] else before
  }

  function Poll(p: Polls, m: MsgId, fds: seq<Fd>, accepts: set<Fd>): Polls {
    Polls(Add(p.interest, m, fds, |fds|, accepts), p.polls[m := New(fds)], p.timers + {m}, p.ready)
  }

  function FdSet(fds: seq<Fd>): set<Fd> {
    set k | 0 <= k < |fds| :: fds[k]
  }

  /** The first entry for a descriptor, or the length if there is none. */
  function FirstEntry(fds: seq<Fd>, fd: Fd): (k: nat)
    ensures k <= |fds| && (k < |fds| ==> fds[k] == fd) && forall j :: 0 <= j < k ==> fds[j] != fd
  {
    if fds == [] then 0 else if fds[0] == fd then 0 else 1 + FirstEntry(fds[1..], fd)
  }

  /** What `pollPerpare` does to the fields of its poll_message. */
  function Noted(pm: PollMessage, e: Event): PollMessage {
    var k := FirstEntry(pm.fds, e.fd);
    pm.(revents := if k < |pm.revents| then pm.revents[k := e.mask] else pm.revents,
        activeFdsNums := pm.activeFdsNums + 1,
        activeFdsNums2 := pm.activeFdsNums2 + 1,
        IsRemoveFromTimeoutList := true)
  }

  /** `pollPerpare`. */
  function Prepare(p: Polls, e: Event): Polls {
    if e.msg !in p.polls then p else
    var pm := p.polls[e.msg];
    p.(polls := p.polls[e.msg := Noted(pm, e)],
       timers := if pm.IsRemoveFromTimeoutList then p.timers else p.timers - {e.msg})
  }

  /** `pollCallback`. */
  function Callback(p: Polls, e: Event): Polls {
    if e.msg !in p.polls then p else
    var pm := p.polls[e.msg].(activeFdsNums2 := p.polls[e.msg].activeFdsNums2 - 1);
    if !pm.IsJoinActiveList && pm.activeFdsNums2 == 0 then
      Polls(p.interest - FdSet(pm.fds), p.polls[e.msg := pm.(IsJoinActiveList := true)], p.timers, p.ready + [e.msg])
    else
      p.(polls := p.polls[e.msg := pm])
  }

  /** `pollTimeout` and the rest of the timeout loop, for a task that the wheel delivered. */
  function Expire(p: Polls, m: MsgId): Polls {
    if m !in p.polls then p else
    var pm := p.polls[m];
    Polls(p.interest - FdSet(pm.fds), p.polls[m := pm.(IsTasktimeout := true)], p.timers - {m}, p.ready + [m])
  }

  function PrepareAll(p: Polls, batch: seq<Event>): Polls {
    if batch == [] then p else Prepare(PrepareAll(p, batch[..|batch| - 1]), batch[|batch| - 1])
  }

  function CallbackAll(p: Polls, batch: seq<Event>): Polls {
    if batch == [] then p else Callback(CallbackAll(p, batch[..|batch| - 1]), batch[|batch| - 1])
  }

  function ExpireAll(p: Polls, expired: seq<MsgId>): Polls {
    if expired == [] then p else Expire(ExpireAll(p, expired[..|expired| - 1]), expired[|expired| - 1])
  }

  /** `Deal`: all events are prepared before any is called back, then the timeouts follow. */
  function Deal(p: Polls, batch: seq<Event>, expired: seq<MsgId>): Polls {
    ExpireAll(CallbackAll(PrepareAll(p, batch), batch), expired)
  }

  /** The routine at the head of the ready queue runs on, and its poll returns. */
  function Return(p: Polls): (Polls, nat)
    requires p.ready != [] && p.ready[0] in p.polls
  {
    (p.(polls := p.polls - {p.ready[0]}, ready := p.ready[1..]), p.polls[p.ready[0]].activeFdsNums)
  }
}
