/**
  One scheduler and its routines on values: the dispatch loop, the ready queue, the life of a
  routine, the pools, the mutex and the condition, between one context switch and the next.
 */
module RuntimeSpec {
  type Rid = nat
  type Tid = nat
  type Sid = nat

  datatype Option<T> = None | Some(value: T)

  /** A TaskItem: its address and the routine that it resumes. */
  datatype Item = Item(tid: Tid, self: Rid)

  /** The wait lists: one for each mutex and one for each condition. */
  datatype ListId = OfMutex(m: nat) | OfCond(c: nat)

  /** A routine inside bMutex::lock, with the value its next compare_exchange_strong expects. */
  datatype Retry = Retry(m: nat, expected: int)

  datatype StackLevel = MiniStack | MediumStack | LargeStack

  /** Whether lock() carries the observed value into its next attempt, or starts from 0 again. */
  datatype Variant = AsWritten | Reset

  const MAX_KEEP := 1000
  const MINI_BYTES := 128 * 1024
  const MEDIUM_BYTES := 1024 * 1024
  const LARGE_BYTES := 4096 * 1024

  /** The bScheduler, and the local variable `task` of its dispatch loop. */
  datatype Dispatch = Dispatch(
    occupy: Rid, pending: Rid, needDelete: bool, task: Option<Item>,
    main: Rid, dispatcher: Rid, progress: set<Rid>)

  /** Where routines are kept, and the addresses of the TaskItems that are allocated. */
  datatype Queues = Queues(
    ready: seq<Item>, parked: set<Item>, waits: map<ListId, seq<Rid>>, unstarted: set<Rid>,
    live: set<Rid>, items: set<Tid>)

  /** bRoutinePool_t, bUnSharedStackPool_t, the stack of each routine, and the size of each mapped stack. */
  datatype Pools = Pools(
    routines: seq<Rid>, mini: seq<Sid>, medium: seq<Sid>, large: seq<Sid>, nums: int,
    stackOf: map<Rid, Sid>, size: map<Sid, nat>)

  /** The mutexes; held is who has returned from lock() and not yet called unlock(). */
  datatype Locks = Locks(count: map<nat, int>, retry: map<Rid, Retry>, held: set<(Rid, nat)>)

  datatype State = State(d: Dispatch, q: Queues, p: Pools, k: Locks)

  // ---- queues --------------------------------------------------------------------------------

  function WaitsOn(q: Queues, l: ListId): seq<Rid> {
    if l in q.waits then q.waits[l] else []
  }

  /** `TaskItem::New` and `AddTask`. */
  function AddTask(q: Queues, i: Item): Queues {
    q.(ready := q.ready + [i], items := q.items + {i.tid})
  }

  /** `bMutexCondTaskList::add`. */
  function AddWaiter(q: Queues, l: ListId, r: Rid): Queues {
    q.(waits := q.waits[l := WaitsOn(q, l) + [r]])
  }

  /** `bMutexCondTaskList::pop` and, for what it returns, `AddTask`. */
  function WakeFirst(q: Queues, l: ListId, t: Tid): Queues {
    if WaitsOn(q, l) == [] then q
    else AddTask(q.(waits := q.waits[l := WaitsOn(q, l)[1..]]), Item(t, WaitsOn(q, l)[0]))
  }

  /** The drain loop of `signalAll`. */
  function WakeAll(q: Queues, l: ListId, ts: seq<Tid>): Queues
    requires |ts| == |WaitsOn(q, l)|
    decreases |ts|
  {
    if ts == [] then q else WakeAll(WakeFirst(q, l, ts[0]), l, ts[1..])
  }

  /** `poll` parks its routine under a TaskItem in the timer wheel. */
  function Park(q: Queues, i: Item): Queues {
    q.(parked := q.parked + {i}, items := q.items + {i.tid})
  }

  /** `Deal` hands the TaskItem of a parked poll to AddTask. */
  function Unpark(q: Queues, released: seq<Item>): Queues {
    if released == [] then q
    else AddTask(Unpark(q, released[..|released| - 1]).(parked := Unpark(q, released[..|released| - 1]).parked - {released[|released| - 1]}),
                 released[|released| - 1])
  }

  // ---- the scheduler ---------------------------------------------------------------------------

  /** The exchange in `SwapContext`. */
  function Switch(d: Dispatch): Dispatch {
    d.(occupy := d.pending, pending := d.occupy)
  }

  /** `SwapContext`: the first time that the main routine leaves, it puts itself on the ready queue. */
  function SwapContext(s: State, t: Tid): State {
    if s.d.occupy == s.d.main && s.d.occupy in s.d.progress then
      s.(d := Switch(s.d.(progress := s.d.progress - {s.d.main})), q := AddTask(s.q, Item(t, s.d.main)))
    else
      s.(d := Switch(s.d))
  }

  /** The part of a loop of `ProcessBegin` up to the switch. */
  function Dispatched(s: State): State
    requires s.q.ready != []
  {
    var i := s.q.ready[0];
    s.(d := Switch(s.d.(task := Some(i), pending := i.self)), q := s.q.(ready := s.q.ready[1..]))
  }

  // ---- pools -------------------------------------------------------------------------------------

  function Bytes(level: StackLevel): nat {
    match level case MiniStack => MINI_BYTES case MediumStack => MEDIUM_BYTES case LargeStack => LARGE_BYTES
  }

  function Kept(p: Pools, level: StackLevel): seq<Sid> {
    match level case MiniStack => p.mini case MediumStack => p.medium case LargeStack => p.large
  }

  /** `bUnSharedStackPool_t::pop` for a list that is not empty. */
  function PopStack(p: Pools, level: StackLevel): Pools
    requires Kept(p, level) != []
  {
    match level
    case MiniStack => p.(mini := p.mini[1..], nums := p.nums - 1)
    case MediumStack => p.(medium := p.medium[1..], nums := p.nums - 1)
    case LargeStack => p.(large := p.large[1..], nums := p.nums - 1)
  }

  /** The case of the switch in `bUnSharedStackPool_t::push`. */
  function LevelOf(bytes: nat): Option<StackLevel> {
    if bytes / 1024 == LARGE_BYTES / 1024 then Some(LargeStack)
    else if bytes / 1024 == MEDIUM_BYTES / 1024 then Some(MediumStack)
    else if bytes / 1024 == MINI_BYTES / 1024 then Some(MiniStack)
    else None
  }

  /** A large stack goes to the mini list. */
  function Filed(p: Pools, sid: Sid, bytes: nat): Pools {
    match LevelOf(bytes)
    case Some(LargeStack) => p.(mini := p.mini + [sid])
    case Some(MediumStack) => p.(medium := p.medium + [sid])
    case Some(MiniStack) => p.(mini := p.mini + [sid])
    case None => p
  }

  /** `bUnSharedStackPool_t::push` below the limit. */
  function PushStack(p: Pools, sid: Sid, bytes: nat): Pools {
    Filed(p, sid, bytes).(nums := p.nums + 1)
  }

  /** The routine that `bRoutine::New` takes: a pooled one if there is one. */
  function NewRid(p: Pools, r: Rid): Rid {
    if p.routines != [] then p.routines[0] else r
  }

  /** The stack that `bRoutine::New` takes: a pooled one of the level if there is one. */
  function NewSid(p: Pools, level: StackLevel, sid: Sid): Sid {
    if Kept(p, level) != [] then Kept(p, level)[0] else sid
  }

  /** `bRoutine::New`, with r and sid the addresses that calloc and mmap would give. */
  function NewRoutine(p: Pools, r: Rid, level: StackLevel, sid: Sid): Pools {
    var p1 := p.(routines := if p.routines != [] then p.routines[1..] else []);
    var p2 := if Kept(p, level) != [] then PopStack(p1, level) else p1.(size := p1.size[sid := Bytes(level)]);
    p2.(stackOf := p2.stackOf[NewRid(p, r) := NewSid(p, level, sid)])
  }

  /** `bRoutineRecycle` below the limit. */
  function Recycle(p: Pools, r: Rid): Pools {
    if r !in p.stackOf || p.stackOf[r] !in p.size then p else
    var p1 := PushStack(p, p.stackOf[r], p.size[p.stackOf[r]]);
    p1.(routines := p1.routines + [r], stackOf := p1.stackOf - {r})
  }

  /** `bRoutine::Del`. */
  function Delete(p: Pools, r: Rid): Pools {
    if r !in p.stackOf then p else
    p.(size := p.size - {p.stackOf[r]}, stackOf := p.stackOf - {r})
  }

  // ---- mutex --------------------------------------------------------------------------------------

  function Count(k: Locks, m: nat): int {
    if m in k.count then k.count[m] else 0
  }

  /** One attempt of `lock`: compare_exchange_strong, and on failure the wait list and a switch. */
  function Attempt(v: Variant, s: State, m: nat, expected: int): State {
    var r := s.d.occupy;
    if Count(s.k, m) == expected then
      s.(k := Locks(s.k.count[m := 1], s.k.retry - {r}, s.k.held + {(r, m)}))
    else
      var carried := if v == Reset then 0 else Count(s.k, m);
      s.(k := s.k.(retry := s.k.retry[r := Retry(m, carried)]), q := AddWaiter(s.q, OfMutex(m), r), d := Switch(s.d))
  }

  /** `unlock` of a mutex whose count is 1. */
  function Unlock(s: State, m: nat, t: Tid): State {
    s.(k := Locks(s.k.count[m := 0], s.k.retry, s.k.held - {(s.d.occupy, m)}), q := WakeFirst(s.q, OfMutex(m), t))
  }

  // ---- what one call does, up to its switch -----------------------------------------------------------

  function Created(s: State, r: Rid, level: StackLevel, sid: Sid): State {
    var n := NewRid(s.p, r);
    s.(p := NewRoutine(s.p, r, level, sid), q := s.q.(live := s.q.live + {n}, unstarted := s.q.unstarted + {n}))
  }

  /** `Resume`: the resumed routine, then the running one. */
  function Resumed(s: State, x: Rid, t1: Tid, t2: Tid): State {
    var q := s.q.(unstarted := s.q.unstarted - {x});
    s.(q := AddTask(AddTask(q, Item(t1, x)), Item(t2, s.d.occupy)), d := Switch(s.d))
  }

  function Yielded(s: State, t: Tid): State {
    s.(q := AddTask(s.q, Item(t, s.d.occupy)), d := Switch(s.d))
  }

  function PollParked(s: State, t: Tid): State {
    s.(q := Park(s.q, Item(t, s.d.occupy)), d := Switch(s.d))
  }

  /** `bCond::wait` as far as its switch; when the routine runs again it is in lock(). */
  function Waited(s: State, c: nat, m: nat, t: Tid): State {
    var u := Unlock(s, m, t);
    u.(k := u.k.(retry := u.k.retry[s.d.occupy := Retry(m, 0)]), q := AddWaiter(u.q, OfCond(c), s.d.occupy), d := Switch(u.d))
  }

  /** A routine ends: it is recycled, or marked for deletion when the pool is full; of main nothing is recycled. */
  function Finished(s: State): State {
    var gone := s.q.(live := s.q.live - {s.d.occupy});
    if s.d.occupy == s.d.main then
      s.(q := gone, d := Switch(s.d))
    else if s.p.nums >= MAX_KEEP then
      s.(q := gone, d := Switch(s.d.(needDelete := true)))
    else
      s.(q := gone, d := Switch(s.d), p := Recycle(s.p, s.d.occupy))
  }

  /** The loop of `ProcessBegin` after the switch back: a marked routine is deleted, and the TaskItem freed. */
  function Resettled(s: State, task: Item): State {
    s.(d := s.d.(needDelete := false, task := None),
       q := s.q.(items := s.q.items - {task.tid}),
       p := if s.d.needDelete && s.d.pending != s.d.main then Delete(s.p, s.d.pending) else s.p)
  }

  // ---- steps ----------------------------------------------------------------------------------------

  /** What the running routine calls, and the three parts of the dispatch loop. */
  datatype Step =
    | DoNew(r: Rid, level: StackLevel, sid: Sid)
    | DoResume(x: Rid, t1: Tid, t2: Tid)
    | DoYield(t: Tid)
    | DoPoll(t: Tid)
    | DoLock(m: nat)
    | DoRetry
    | DoUnlock(m: nat, t: Tid)
    | DoWait(c: nat, m: nat, t: Tid)
    | DoSignalAll(c: nat, ts: seq<Tid>)
    | DoFinish
    | DoDeal(released: seq<Item>)
    | DoDispatch
    | DoEpilogue

  predicate UserRuns(s: State) {
    s.d.occupy != s.d.dispatcher
  }

  /** A routine that is not inside lock(). */
  predicate Free(s: State) {
    UserRuns(s) && s.d.occupy !in s.k.retry
  }

  predicate AllNew(q: Queues, ts: seq<Tid>) {
    && (forall k :: 0 <= k < |ts| ==> ts[k] !in q.items)
    && (forall j, k :: 0 <= j < k < |ts| ==> ts[j] != ts[k])
  }

  /** Which steps can come next, and what the allocator may answer. */
  predicate Enabled(s: State, a: Step) {
    match a
    case DoNew(r, _, sid) => Free(s) && r !in s.q.live && r !in s.p.stackOf && r !in s.p.routines
                             && r != s.d.dispatcher && r != s.d.main && sid !in s.p.size
    case DoResume(x, t1, t2) => Free(s) && x !in s.d.progress && AllNew(s.q, [t1, t2])
    case DoYield(t) => Free(s) && AllNew(s.q, [t])
    case DoPoll(t) => Free(s) && AllNew(s.q, [t])
    case DoLock(_) => Free(s)
    case DoRetry => UserRuns(s) && s.d.occupy in s.k.retry
    case DoUnlock(m, t) => Free(s) && Count(s.k, m) == 1 && AllNew(s.q, [t])
    case DoWait(_, m, t) => Free(s) && Count(s.k, m) == 1 && AllNew(s.q, [t])
    case DoSignalAll(c, ts) => Free(s) && |ts| == |WaitsOn(s.q, OfCond(c))| && AllNew(s.q, ts)
    case DoFinish => Free(s)
    case DoDeal(released) => !UserRuns(s) && s.d.task.None? && (forall k :: 0 <= k < |released| ==> released[k] in s.q.parked)
                             && (forall j, k :: 0 <= j < k < |released| ==> released[j] != released[k])
    case DoDispatch => !UserRuns(s) && s.d.task.None? && s.q.ready != []
    case DoEpilogue => !UserRuns(s) && s.d.task.Some?
  }

  function Do(v: Variant, s: State, a: Step): State
    requires Enabled(s, a)
  {
    match a
    case DoNew(r, level, sid) => Created(s, r, level, sid)
    case DoResume(x, t1, t2) => Resumed(s, x, t1, t2)
    case DoYield(t) => Yielded(s, t)
    case DoPoll(t) => PollParked(s, t)
    case DoLock(m) => Attempt(v, s, m, 0)
    case DoRetry => Attempt(v, s, s.k.retry[s.d.occupy].m, s.k.retry[s.d.occupy].expected)
    case DoUnlock(m, t) => Unlock(s, m, t)
    case DoWait(c, m, t) => Waited(s, c, m, t)
    case DoSignalAll(c, ts) => s.(q := WakeAll(s.q, OfCond(c), ts))
    case DoFinish => Finished(s)
    case DoDeal(released) => s.(q := Unpark(s.q, released))
    case DoDispatch => Dispatched(s)
    case DoEpilogue => if s.d.task.Some? then Resettled(s, s.d.task.value) else s
  }

  /** Where `CreatMutProcessEnv` switches to the dispatcher for the first time. */
  function Boot(main: Rid, dispatcher: Rid, sid: Sid): State {
    State(
      Dispatch(main, dispatcher, false, None, main, dispatcher, {main, dispatcher}),
      Queues([], {}, map[], {}, {main}, {}),
      Pools([], [], [], [], 0, map[dispatcher := sid], map[sid := LARGE_BYTES]),
      Locks(map[], map[], {}))
  }

  /** The states of a run that starts with the first switch to the dispatcher. */
  ghost predicate IsRun(v: Variant, states: seq<State>, steps: seq<Step>) {
    && |states| == |steps| + 1
    && (exists main, dispatcher, sid, t :: main != dispatcher && states[0] == SwapContext(Boot(main, dispatcher, sid), t))
    && forall k :: 0 <= k < |steps| ==> Enabled(states[k], steps[k]) && states[k + 1] == Do(v, states[k], steps[k])
  }
}
