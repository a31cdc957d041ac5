# bRoutine, modelled and proved in Dafny

bRoutine is a coroutine runtime for C++: routines with private stacks that switch
symmetrically, a ready queue behind two locks, a timer wheel, an epoll loop that races
events against timeouts, and a mutex and condition built on the scheduler. This project models
these parts and proves what they keep over whole runs. Where the code departs from what it is
for, the code's behaviour is kept, a concrete run shows the departure, and the exact condition
under which the code is right is proved for all inputs.

`dafny verify dfyconfig.toml` checks everything.

## How it is laid out

- `QueueMachine`, `QueueInvariant`, `QueueSteps`, `QueueSafety`, `QueueHistory`, `QueueRuns`, `QueueBreaks`: the
  ready queue `TaskItemsList` as a step machine for any number of threads: one step is one lock operation, one
  access of the counter or one write of a field, together with the reads that feed it. `Order` says whether an item is counted before it is linked (`CountFirst`, the code) or
  after it has got its owner (`CountLast`, the repair). `QueueRuns.Linearizable` is the usual notion: some legal
  history of a FIFO queue has every operation that returned, with its result, of the others only the push or the
  pop that its thread is in the middle of, and keeps their real-time order.
- `TaskList`: the same list on the heap, as its operations see it with the mutexes held. `Stealing`: how an idle
  scheduler goes through the queues of the others. `Lists`: the linked lists of the pools and of the waiters. `Sequences`: sequences without repetition, and
  small sets.
- `TimerSpec`, `TimerExact`, `TimerRuns`, `TimerWheel`: the wheel on values, what a scan delivers, runs, and
  `bEpTimer` on the heap. `TimerRuns` also has the repaired scan, which visits (pos + k) % size for
  k = 1 .. min(elapsed, size).
- `PollSpec`, `PollSafety`, `PollRuns`: `poll` and `Deal` on values, their three phases, and runs. `PollTimers`
  joins the polls with the wheel that holds their timeouts; `PollSharing` is about polls that share a descriptor.
- `TimerNodes`, `PollDeal`: the source's loops over poll_message objects and over the linked wheel of `TimerWheel`.
  `poll`, `Deal` and the return from `poll` are the steps of `PollTimers`, and keep its invariant on the heap.
- `RuntimeSpec`: one scheduler with its queues, pools and mutexes on values, one step per call between two
  context switches. `RuntimePlaces` (one place per routine), `RuntimePools` (stacks and pools),
  `RuntimeFacts` (single states), `RuntimeLaws` (what each step does to each part of the state), `RuntimeOrder` and
  `RuntimeWaits` (runs: the order in which queues and pools give back, and what waiting routines may rely on), `RuntimeMutex`, `RuntimeMutexRuns`, `RuntimeMutexBreaks`, `RuntimeMutexUse` (the
  mutex; `Variant` says whether a retry carries the observed value, as the code does, or starts from 0).
- `RuntimeQueueLists`, `RuntimePoolLists`, `Runtime`: the classes. The queues and pools sit on the linked lists of
  `TaskList` and `Lists`; each method of `bScheduler` is one step of the state machine of `RuntimeSpec`, and keeps
  `Valid`: all lists are linked, and the state satisfies the invariant of the runs.
- `ContextSwitch`, `ContextRuns`: `bSwap` and `bContext::init` on registers and memory, and runs of switches in
  which contexts and stacks of finished coroutines are used again, each with whatever other, or are freed and
  become data, and running code may write to any stack.
- `WriteLoop`: the partial-write loop of `write` and `send`.

## Where the code departs from its purpose

- `src/b_task.cc:84` counts an item before it is linked. With two or more threads a popper can then empty the
  list under a pusher that holds only the tail lock. Then a later pop finds an empty list although an item was
  pushed, or the pusher writes through a null `tail`. With one thread neither happens
  (`CodeQueueIsLinearizableForOneThread`, `CodeQueueNeverCrashesForOneThread`).
- `src/b_task.hh:99-107` never decrements `ItemCount`; `TaskItemsList.Valid` counts the drift. The two guards of
  `src/b_task.hh:103-104` have no name, so they do not hold the mutexes during the removal; the model takes the
  list as used by one thread there, as it is with one scheduler.
- `src/b_epoll.cc:46` stops short on wraparound and does not end when it aims at the last bucket
  (`HangsExactly`, `ScanRightIffGuard`).
- `src/b_hook.cc:268` asks for the longest timeout when there is to be none, and `src/b_epoll.cc:36-38` clamps it to
  the size of the wheel: a `poll` with a negative timeout returns 0 after 30000 ms (`StartJoins`).
- `src/b_hook.cc:269-271` ignores a refused registration. If two parked polls share a descriptor, the one whose
  registration was refused still removes the other's when it times out (`RegisteredIffNotShared`,
  `SharingLosesARegistration`).
- `src/b_routine_env.cc:104-108` files a large stack with the mini ones, so that New never finds a pooled large stack
  and may get a large one for a mini one (`PoolsStayBounded`, `NewKeeps`).
- `src/b_mutex_cond.cc:57-71` carries the value that a failed compare-exchange observed into the next one
  (`StepKeepsLocksExactly`, `LockStrandsAWaiter`, `LockHasTwoHolders`); it is right for callers of whom only one
  routine ever locks (`CodeLockIsRightForOneRoutine`).
- `src/b_mutex_cond.h:39-42` does not initialise the mutex of a condition's list, which `src/b_mutex_cond.h:25` does
  for a mutex; the model takes it as initialised.
- `src/b_routine_env.cc:331-334` hands out a main item that it has put back (`StealConserves`), and
  `src/b_routine_env.cc:353` runs past the array of queues unless the scheduler is the last one
  (`stealTaskRoutine`).
- `src/b_routine.cc:59-70` queues any routine; it keeps one place per routine only for one that was never
  started (`ResumeIsForUnstarted`).

## Model
| member | source | states |
|---|---|---|
| QueueSafety.StepKeeps | src/b_task.cc:30-103 | any step of any thread keeps the linked chain, the locks, the count, the private items and the histories, unless it is that of a popper that goes on with only the head lock on a list of fewer than two linked items |
| QueueRuns.UnstarvedRunsAreLinearizable | src/b_task.cc:30-103 | in either order of counting, every run of any number of threads without such a popper is linearizable to a FIFO queue, real-time order included, and an operation under way is explained by nothing but the push of its own item or a pop; in every state nothing is lost, duplicated or reordered, and the linked list is that queue whenever no lock is held |
| QueueRuns.UnstarvedRunsNeverBlock | src/b_task.cc:30-78 | in such a run, in either order, the two mutexes cannot deadlock: as long as an operation is under way, some thread can take its next step |
| QueueRuns.RepairedNeverStarves | src/b_task.cc:54-65 | counted after linking, a popper that reads at least two has at least two linked items before it |
| QueueRuns.RepairedQueueIsLinearizable | src/b_task.cc:30-103 | counted after linking, every run of any number of threads is linearizable in the same sense, and right in every state |
| QueueBreaks.StarvedBy | src/b_task.cc:64-69 | in the code's order, a popper starves only beside a pusher that has counted its item and not yet linked it |
| QueueBreaks.StarvedStateStrandsAnItem | src/b_task.cc:80-103 | from such a state the two threads have a run after which both are idle and nobody holds a mutex, the count is 1 and one item has not been popped, but head is null |
| QueueBreaks.StarvedStateLosesAnItem | src/b_task.cc:80-103 | and with one pop more, which gives null, the effects of the operations are no history of a FIFO queue |
| QueueBreaks.StarvedStateCrashes | src/b_task.cc:85-91 | from such a state whose pusher has not linked its item yet, the two threads also have a run in which the popper sets tail to null and the pusher then writes through it |
| QueueBreaks.OneThreadNeverStarves | src/b_task.cc:30-78 | in the code's order a single thread never reaches such a state |
| QueueBreaks.TwoThreadsLoseAnItem | src/b_task.cc:30-103 | any two threads have a run of the code, from the empty queue, that no history of a FIFO queue explains, in whatever order its operations are taken |
| QueueBreaks.CodeQueueIsLinearizableForOneThread | src/b_task.cc:30-103 | every run of the code's queue by a set of threads is linearizable if and only if there is at most one of them |
| QueueBreaks.CodeQueueNeverCrashesForOneThread | src/b_task.cc:30-103 | no run of the code's queue by a set of threads follows a null pointer if and only if there is at most one of them |
| TaskList.TaskItemsList.PushBackUnsafe | src/b_task.cc:80-95 | appends the item, keeps both links, owner and count consistent; null changes nothing |
| TaskList.TaskItemsList.PopHeadUnsafe | src/b_task.cc:96-103 | takes the first item; gives null exactly when the list is empty or the 32-bit count has wrapped to 0 |
| TaskList.TaskItemsList.RemoveSelfFromOwnerlink | src/b_task.hh:65-98 | unlinks an item at any position and leaves it without links and owner; the count stays |
| TaskList.TaskItemsList.RemoveSelfFromOwnerlinkSave | src/b_task.hh:99-107 | as before, and the count is one more too high: count minus length is the number of cancellations, modulo 2^32 |
| TaskList.TaskItemsList.PushAll2 | src/b_task.cc:106-117 | appends one list to another in order and leaves it empty, for any lengths and any number of cancellations |
| TaskList.TaskItemsList.Try2stealTask | src/b_routine_env.cc:304-348 | what every outcome of the two trylocks leaves in the victim and hands out; what is handed out is linked nowhere, except the lone main item |
| TaskList.StealConserves | src/b_routine_env.cc:304-348 | a steal conserves the tasks and never hands out a main item, exactly outside the branch for one item that is main |
| TaskList.StealsTheFirst | src/b_routine_env.cc:304-348 | what is handed out is the first item, exactly if the mutexes that it takes are free and it is not the main item of a longer queue |
| Stealing.stealTaskRoutine | src/b_routine_env.cc:350-359 | on any number of linked queues, the loop ends if and only if the scheduler is the last one and no attempt meets a lone main item; it reads past the array if and only if the scheduler is not the last and none meets one; at the end each other queue has what its attempt left, and the own queue has what was handed out behind what it had, less the first item, which is given |
| Stealing.StealingConserves | src/b_routine_env.cc:350-359 | then the queues together with the item given have exactly the tasks they had |
| Stealing.GetsATask | src/b_routine_env.cc:350-359 | own tasks are given first, and nothing is given if and only if there are none and no attempt can hand out anything |
| Stealing.MainsStay | src/b_routine_env.cc:303-359 | then every other scheduler's main item stays in its own queue, and a main item given is the scheduler's own |
| TimerSpec.HangsExactly | src/b_epoll.cc:46-48 | the scan loop runs for ever if and only if its target is the last bucket and lies ahead of the position |
| TimerExact.ScanNeverEarly | src/b_epoll.cc:41-52 | a scan delivers only tasks that are due, none twice, and keeps every other task in its bucket, with no condition on the elapsed time |
| TimerExact.DeliveredByDeadline | src/b_epoll.cc:41-52 | while no task is overdue before it, a scan delivers the tasks in the order of their deadlines |
| TimerExact.ScanRightIffCovers | src/b_epoll.cc:41-52 | a scan ends and delivers exactly the due tasks if and only if it skips no due bucket that has a task |
| TimerExact.ScanRightIffGuard | src/b_epoll.cc:41-52 | for a position and an elapsed time, the scan is right on all contents if and only if nothing elapsed or pos + elapsed <= size - 2 |
| TimerRuns.InsertTracks | src/b_epoll.cc:34-40 | a task put in with a delay is filed under the deadline last + delay, the delay clamped to the size and 0 acting as the size |
| TimerRuns.StepRefines | src/b_epoll.cc:34-52 | an insertion, a cancellation or a scan on the wheel does what it does on a plain set of deadlines |
| TimerRuns.RunRefines | src/b_epoll.cc:34-52 | over every fit run the wheel delivers, at each scan, exactly the tasks that the plain set of deadlines does, each once |
| TimerRuns.RunRightIffFit | src/b_epoll.cc:34-52 | in a legal run of the code every scan ends and delivers exactly what is due if and only if every scan covers what is due |
| TimerRuns.RepairedRunsAreFit | src/b_epoll.cc:46-48 | with the repaired scan every legal run is fit, including wraparound and gaps longer than the wheel |
| TimerRuns.CodeRunsAreNeverEarly | src/b_epoll.cc:34-52 | in every run of the code, scans that end deliver nothing early or twice and lose nothing |
| TimerWheel.bEpTimer.New | src/b_epoll.cc:8-18 | an empty wheel of 30000 distinct buckets |
| TimerWheel.bEpTimer.Put | src/b_hook.cc:268 | puts the task into the bucket of its deadline and changes no other bucket |
| TimerWheel.bEpTimer.Drop | src/b_hook.cc:234-237 | takes the task out of its bucket and changes no other |
| TimerWheel.bEpTimer.NewMergeUpdate2Now | src/b_epoll.cc:41-52 | does not end exactly when the loop hangs, and else returns the drained buckets in order and leaves the others untouched |
| PollSafety.PreparePhase | src/b_hook.cc:221-239 | after any prefix of a batch, both counters of each waiting poll are its number of events, its revents show them, and its timer is cancelled exactly if it has one |
| PollSafety.CallbackPhase | src/b_hook.cc:240-254 | for any interleaving of the polls' events the second counter is the number of events left, so it reaches 0 exactly at a poll's last callback, which alone queues it and removes its descriptors |
| PollSafety.FinishedIs | src/b_hook.cc:240-254 | the polls queued after n callbacks are, once each, those whose last event is among the n |
| PollRuns.DealReleasesOnce | src/b_routine_env.cc:205-241 | Deal makes ready exactly the polls with an event and those that timed out, each once and never by both; no descriptor of them stays registered, and their revents hold the bits of their events |
| PollRuns.PollKeeps | src/b_hook.cc:255-273 | a new poll registers each descriptor by its first entry and keeps the invariant, also with repeated descriptors or ones the kernel refuses |
| PollRuns.ReturnKeeps | src/b_hook.cc:274-282 | poll returns the number of entries with events, and 0 exactly if the timer woke it; no registered descriptor leads to it any more |
| PollRuns.EveryPollIsReadyOnce | src/b_routine_env.cc:205-241 | in every run a poll was made ready as often as it was started, less one while it waits, and polls return in the order in which they were made ready |
| PollTimers.OneBucketUnlessCancelled | src/b_hook.cc:234-237 | the timer node of a poll is in exactly one bucket of the wheel, once, if and only if the poll waits and its timeout has not been cancelled |
| PollTimers.DealWakesOnce | src/b_routine_env.cc:205-241 | with the batch's cancellations and the scan of the wheel, Deal makes ready each poll with an event and each that the scan delivers, once and never by both, none before its deadline; a scan that is fit misses none that is due; the wheel then holds the polls that wait on |
| PollTimers.StartJoins | src/b_hook.cc:268 | poll files its timer node under its deadline, and under a whole turn of the wheel if the timeout is negative |
| PollTimers.EveryTimedPollIsReadyOnce | src/b_routine_env.cc:205-241 | in every run of polls, Deals and returns on one wheel, with the code's scan or the repaired one, the timeouts are those the wheel delivers, and a poll was made ready as often as it was started, less one while it waits |
| PollSharing.RegisteredIffNotShared | src/b_hook.cc:211-273 | in a run, every accepted descriptor of every waiting poll stays registered for it if and only if no two waiting polls ever share one |
| PollSharing.SharingLosesARegistration | src/b_hook.cc:211-273 | a run with two polls of descriptor 5 after which the first one waits with nothing registered |
| PollDeal.bRoutineEnv.constructor | src/b_epoll.cc:20-33 | the state from which the polls start: no poll, nothing registered, an empty wheel; it satisfies the invariant of PollTimers |
| PollDeal.bRoutineEnv.pollPerpare | src/b_hook.cc:221-239 | the loop over the entries finds the first one for the descriptor, and the first event of a poll unlinks its timer node from whatever bucket holds it; record and wheel change as on values |
| PollDeal.bRoutineEnv.pollCallback | src/b_hook.cc:240-254 | the counter, the flag, the removal loop and the queue change as on values, and no other poll and no bucket does |
| PollDeal.bRoutineEnv.pollTimeout | src/b_routine_env.cc:232-237 | for a node that the wheel delivered, finds its poll, removes every descriptor and queues the poll as timed out |
| PollDeal.bRoutineEnv.poll | src/b_hook.cc:255-272 | links a new timer node, which dispatches the calling routine, under the deadline that the timeout gives, 30000 ms for a negative or longer one, and registers the entries; it is the step Start of PollTimers, and keeps the invariant that the linked nodes are those of the polls that wait |
| PollDeal.bRoutineEnv.Deal | src/b_routine_env.cc:205-241 | both loops over the batch, the scan of the linked wheel and the loop over the list that it returns do what Deal with its own timeouts does on values, for fewer than 2^32 polls, and keep the invariant; every TaskItem that is then ready dispatches the routine that called its poll; it does not end exactly when the scan hangs |
| PollDeal.bRoutineEnv.pollReturn | src/b_hook.cc:274-282 | the routine that goes on is the one that called the poll, and gets the number of entries with events; the poll_message ends while no bucket links its node and no descriptor leads to it, which keeps the invariant |
| RuntimePlaces.StepKeepsPlaces | src/b_routine.cc:59-87 | every careful step keeps each live routine in one place only and every queued TaskItem allocated and distinct |
| RuntimePools.StepKeepsSafe | src/b_scheduler.cc:45-133 | every enabled step, where Resume gets a routine that was never started, keeps places, dispatch alternation, private stacks and pool limits |
| RuntimePools.RunsAreSafe | src/b_scheduler.cc:45-133 | so does every run from the first switch on |
| RuntimePools.BootIsSafe | src/b_routine_env.cc:147-161 | the first switch to the dispatcher establishes all of it |
| RuntimePools.NewKeeps | src/b_routine.cc:27-51 | New gives a stack at least as large as its level that no other routine has, from the pool or mapped, also with large stacks filed as mini ones |
| RuntimePools.RecycleKeeps | src/b_routine_env.cc:242-259 | recycling below the limit moves routine and stack to the pools; the counter stays the number of pooled stacks and covers the pooled routines |
| RuntimePools.DeleteKeeps | src/b_routine.cc:52-57 | a deleted routine takes exactly its own stack with it |
| RuntimeLaws.ReadyLaw | src/b_routine_env.cc:16-28 | what each of the 13 steps puts behind the ready queue, and that only the dispatcher takes from it, from the front |
| RuntimeLaws.WaitsLaw | src/b_mutex_cond.cc:3-136 | who joins and who leaves which wait list at each step: the running routine the mutex that it failed to lock or the condition that it waits for, the first waiter a mutex that is given up, all waiters a condition that is signalled |
| RuntimeLaws.ParkedLaw | src/b_hook.cc:266-273 | only poll puts a TaskItem into the wheel, that of its caller, and only Deal takes one out |
| RuntimeLaws.LiveLaw | src/b_routine.cc:27-87 | a routine becomes live by New, unstarted, ceases to be live by its end, and to be unstarted by Resume |
| RuntimeLaws.ItemsLaw | src/b_scheduler.cc:120 | TaskItems are allocated by being queued or parked, and freed only after the routine that they dispatched has given way |
| RuntimeLaws.DispatchLaw | src/b_scheduler.cc:45-133 | which steps give way to the dispatcher, whom it dispatches, and which ending routines are marked for deletion |
| RuntimeLaws.LocksLaw | src/b_mutex_cond.cc:55-100 | a mutex is taken and given up by the running routine only, and by which steps |
| RuntimeLaws.RetryLaw | src/b_mutex_cond.cc:55-100 | which mutex the running routine tries next and with which expected value; nobody else's changes |
| RuntimeLaws.NewLaw | src/b_routine.cc:27-51 | what New takes from which pool, level by level, and what it maps |
| RuntimeLaws.FinishLaw | src/b_routine_env.cc:242-259 | what the end of a routine adds to which pool, and when it is marked instead |
| RuntimeLaws.PoolsLaw | src/b_scheduler.cc:114-120 | the marked routine is deleted with its stack, and no other step changes the pools |
| RuntimeOrder.ReadyQueueIsFifo | src/b_scheduler.cc:98-113 | in every run, routines are dispatched in the order in which they were queued |
| RuntimeOrder.WaitListsAreFifo | src/b_mutex_cond.cc:3-53 | in every run, those who wait for a mutex or a condition are woken in the order in which they began to wait |
| RuntimeOrder.StackPoolsAreFifo | src/b_routine_env.cc:57-123 | in every run, the stacks of ended routines are given out again in the order in which they came, mini and medium ones apart |
| RuntimeOrder.RecycledStackIsReused | src/b_routine_env.cc:57-123 | a stack that goes to an empty list is the one that the next New of that level gets, however many steps later, and none is mapped |
| RuntimeOrder.RoutinePoolIsFifo | src/b_routine_env.cc:41-56 | in every run, ended routines are given out again in the order in which they ended |
| RuntimeOrder.PoolsStayBounded | src/b_routine_env.cc:95-123 | at no time are more than 1000 stacks or 1000 routines kept; the list of large stacks is always empty |
| RuntimeWaits.NextSignalWakes | src/b_mutex_cond.cc:94-136 | in every run, a routine that waits for a condition is queued by the next signalAll of it |
| RuntimeWaits.WaitReturnsSignalledAndLocked | src/b_mutex_cond.cc:94-100 | in every run, when wait returns, its caller has been queued by the first signalAll of its condition after it began, and holds the mutex that it gave up |
| RuntimeWaits.LocksTheSame | src/b_mutex_cond.cc:55-75 | in every run, a routine inside lock() tries the same mutex until it has it |
| RuntimeWaits.ParkedUntilReleased | src/b_hook.cc:255-273 | in every run, a routine that polls is neither ready nor running until a Deal releases its TaskItem |
| RuntimeFacts.OnePlaceEach | src/b_scheduler.cc:45-133 | a live routine is held by exactly one of running, unstarted, one ready item, one parked item or one wait list; a dead one by none |
| RuntimeFacts.DeletesTheFinished | src/b_scheduler.cc:114-120 | when the dispatcher regains control, pendingRoutine is what it dispatched; what it deletes has ended, is held by nothing and has no pooled stack; the TaskItem it frees is not queued |
| RuntimeFacts.DispatchesALiveRoutine | src/b_scheduler.cc:106-113 | what is dispatched is live, has pendingRoutine as the dispatcher, and runs on a stack that nobody shares and no pool holds |
| RuntimeFacts.ResumeIsForUnstarted | src/b_routine.cc:59-70 | Resume of any routine but a scheduler, be it live, finished or pooled, keeps the invariant if and only if the routine was never started |
| RuntimeFacts.ContractsAreMet | src/b_routine_env.cc:16-28 | in every safe state AddTask cannot throw, and an ending or deleted routine has its stack |
| RuntimeMutexRuns.StepKeepsLocksExactly | src/b_mutex_cond.cc:55-100 | with unlock left to holders, a step keeps one holder at most and no stranded waiter if and only if it is not a retry that expects 1 and either finds 1 held by another, or finds 0 with no other contender |
| RuntimeMutexRuns.RunIsRightIffNoBadRetry | src/b_mutex_cond.cc:55-100 | a run keeps one holder at most and strands nobody, in all its states, if and only if it has no such retry |
| RuntimeMutexRuns.RepairedLockIsRight | src/b_mutex_cond.cc:55-75 | with 0 expected at each attempt, every run has at most one holder per mutex, and a free mutex with waiters has a woken contender |
| RuntimeMutexBreaks.LockStrandsAWaiter | src/b_mutex_cond.cc:55-75 | any two routines, and no other that locks, have a run of the code, within the rules for callers, after which a mutex is free, waited for, and nobody is left to take it |
| RuntimeMutexBreaks.LockHasTwoHolders | src/b_mutex_cond.cc:55-75 | any two routines, and no other that locks, have a run of the code, within the rules for callers, after which both hold one mutex |
| RuntimeMutexUse.CodeLockIsRightForOneRoutine | src/b_mutex_cond.cc:55-100 | every run of the code, within the rules for callers, in which only the routines of a set lock, keeps one holder at most and strands nobody, if and only if the set has at most one |
| RuntimeMutex.UnlockKeepsLocks | src/b_mutex_cond.cc:76-93 | unlock by the holder frees the mutex and turns the first waiter into a contender |
| RuntimeMutex.FailureKeepsLocks | src/b_mutex_cond.cc:61-72 | a failed attempt strands nobody if and only if the mutex is held or another contender exists |
| Runtime.bScheduler.FirstSwitch | src/b_routine_env.cc:147-161 | the first switch queues main, runs the dispatcher and establishes Valid |
| Runtime.bScheduler.New | src/b_routine.cc:27-51 | one step of the state machine that keeps Valid: the routine is the first pooled one, and its stack the first of the list of its own level, 128 KiB, 1 MiB or 4 MiB; the other lists stay, and a stack of that size is mapped only if the list is empty |
| Runtime.bScheduler.Resume | src/b_routine.cc:59-70 | never throws, queues the routine before the caller, and keeps Valid if the routine was never started |
| Runtime.bScheduler.Yield | src/b_routine.cc:71-79 | never throws, queues the caller behind all others, and keeps Valid |
| Runtime.bScheduler.Lock | src/b_mutex_cond.cc:55-75 | the first attempt succeeds exactly on a free mutex; else the caller waits in the mutex's list with the observed value kept; keeps Valid |
| Runtime.bScheduler.LockAgain | src/b_mutex_cond.cc:57-71 | a later attempt succeeds exactly on the value that the last one observed, else the caller waits again; keeps Valid |
| Runtime.bScheduler.Unlock | src/b_mutex_cond.cc:76-93 | aborts exactly on a mutex that is not locked, else moves the first waiter to the ready queue; keeps Valid |
| Runtime.bScheduler.Wait | src/b_mutex_cond.cc:94-100 | aborts exactly on a mutex that is not locked; else that mutex is free, the caller is last in the list of that condition and in no other, and its next step is to lock that mutex, from 0; keeps Valid |
| Runtime.bScheduler.SignalAll | src/b_mutex_cond.cc:126-136 | every waiter of the condition becomes ready, in order, and the list is empty; keeps Valid |
| Runtime.bScheduler.End | src/b_routine_env.cc:242-259 | below 1000 pooled stacks, the running routine and its stack are appended to the pools, a 1 MiB stack to the medium list and any other to the mini list, and it is not marked; at 1000 it is marked and the pools stay; for main neither happens; needs no more than Valid, and keeps it |
| Runtime.bScheduler.Deal | src/b_routine_env.cc:228-238 | the TaskItems of the released polls go from the wheel to the ready queue, in order; keeps Valid |
| Runtime.bScheduler.DispatchNext | src/b_scheduler.cc:106-113 | is idle exactly when the 32-bit count is 0, else runs the head of the ready queue; keeps Valid |
| Runtime.bScheduler.Epilogue | src/b_scheduler.cc:114-120 | in every valid state, deleting the marked routine and freeing the TaskItem is safe and keeps Valid |
| RuntimeQueueLists.bQueues.AddTask | src/b_routine_env.cc:16-28 | throws exactly for a scheduler, else links the item behind the ready queue; the wait lists stay as they are |
| RuntimeQueueLists.bQueues.SignalAll | src/b_mutex_cond.cc:126-136 | the drain loop over linked nodes queues every waiter in order, whatever their number |
| RuntimeQueueLists.bQueues.Deal | src/b_routine_env.cc:232-237 | the loop over the released items links each behind the ready queue |
| RuntimeQueueLists.WaitLists.Pop | src/b_mutex_cond.cc:27-53 | cuts the first node off one of many linked lists, and every other list keeps its nodes and waiters |
| RuntimeQueueLists.WaitLists.Add | src/b_mutex_cond.cc:3-26 | links a waiter behind one of many lists, and every other list keeps its nodes and waiters |
| RuntimePoolLists.bPools.PopStack | src/b_routine_env.cc:57-94 | mini, medium and large each take the first node off their own linked list, or nothing exactly if that is empty; the other lists stay linked and as they are, and the counter follows |
| RuntimePoolLists.bPools.PushStack | src/b_routine_env.cc:95-123 | refuses at 1000, else links a stack of 1024 KiB behind the medium list and one of 128 or 4096 KiB behind the mini list |
| RuntimePoolLists.bPools.Recycle | src/b_routine_env.cc:242-259 | routine and stack go to the linked pools together or not at all |
| Lists.List.push | src/b_routine_env.h:42-56 | appends one value, and keeps nodes, both links and the size consistent |
| Lists.List.pop | src/b_routine_env.h:22-41 | takes the first value and unlinks its node, and gives none exactly for an empty list |
| Lists.bMutexCondTaskList.add | src/b_mutex_cond.cc:3-26 | appends a waiter, linked both ways |
| Lists.bMutexCondTaskList.pop | src/b_mutex_cond.cc:27-53 | cuts the first waiter off, without links, and gives null exactly for an empty list |
| ContextSwitch.Machine.bSwap | src/b_swap.S:7-43 | the machine goes on with the registers of the second context, the first context holds its registers in the order of the struct, and memory changes in that context and one stack word only |
| ContextSwitch.Machine.init | src/b_context.cc:10-21 | a switch to the context will enter the given function with the routine in rdi, at an aligned stack pointer with 16 bytes of the stack above it; size and start of the stack are behind the registers; all other saved registers and all memory outside the context stay |
| ContextRuns.EveryCoroutineGoesOn | src/b_swap.S:7-43 | in every run of switches, computing, new and deleted coroutines, also on contexts and stacks that finished ones had, with those of deleted ones written to as data, and with the stacks of those that wait written to, as Deal does to the poll_message of a parked poll, each coroutine resumes at its own return address with every register that bSwap names as it was but for rax, so with those that section 3.2.1 of the System V AMD64 psABI asks of a call; the return address is in its place, and every other word of its stack has what running code wrote to it last while it waited, or what it had if none did, until its own context or stack is freed or given away |
| ContextRuns.StepKeepsIntact | src/b_swap.S:7-43 | every step keeps the context of every coroutine that is switched out, with a stack pointer in its own stack |
| ContextRuns.StackStep | src/b_swap.S:7-43 | of the stack of a coroutine that is switched out and left alone, no switch and no init changes a word; only running code that writes to it does |
| ContextRuns.FirstSwitchEntersAligned | src/b_context.cc:10-21 | for every page size that is a power of two and at least 16 and every stack size, the first switch after init, however many steps later, enters the function with the routine in rdi and rsp + 8 a multiple of 16; one word of the stack, inside the unguarded part, has been written by the switch, and every other one only by running code |
| ContextSwitch.InitialStackPointerIs | src/b_stack.cc:8-40 | the initial stack pointer is aligned and leaves 16 bytes of the stack above it |
| WriteLoop.Write | src/b_hook.cc:322-350 | for every pattern of acceptance the kernel receives exactly a prefix of the buffer, and its length or the error is returned; the calls stop as soon as everything is taken, the first call has returned 0, or a later call has taken nothing, and no sooner, so an error of the first call leads to poll and to a second call; there is one poll before each further call, and at most one call more than there are bytes; a buffer that is not empty is received whole if and only if the last call took something, so always by a kernel that never refuses, and by one that refuses only its first call with an error; `send` has the same loop |

## Left out
- RepairedQueueIsLinearizable: the step machine has an unbounded ItemCount, because a queue of 2^32 items does not fit in memory; the heap list wraps at 32 bits.
- StepKeeps: steps interleave in one global order at lock operations, counter accesses and field writes; the tests of src/b_task.cc:85, src/b_task.cc:98 and src/b_task.hh:67-70 read two or three fields in one step; weaker memory orders between threads are not modelled, and an item that is pushed is not queued elsewhere, which is what callers of pushBack must see to.
- Try2stealTask: needs a ready queue without cancellations, because the code cancels only items of the timer wheel.
- RunsAreSafe: one scheduler, which is what the code reaches (the thread loop of src/b_routine_env.cc:162 sees size 1), so an idle scheduler has nobody to steal from, and Stealing is about the queues alone; AddTask's round-robin index over schedulers is not modelled.
- RunsAreSafe: New is called with one of the three stack levels, others throw; a wait list's own lock is always free, because with one scheduler no routine is switched away from while it holds one.
- RepairedLockIsRight: assumes that lockCount starts at 0, which the constructor of bMutex leaves to the compiler.
- stealTaskRoutine: nobody else uses the queues meanwhile, other than by holding their mutexes against a trylock; what is linked twice, or lies past the array, is not modelled.
- DealReleasesOnce: the batch is any list of registered descriptors, each once, with some bit set; epoll_wait, epoll_ctl and their errors beyond a refused registration are not part of this model, nor is the mapping between poll and epoll bits.
- RegisteredIffNotShared: is about runs in which the kernel accepts or refuses a descriptor throughout.
- RunRefines: the clock is an input that does not go back.
- EveryTimedPollIsReadyOnce: of the code's scan, runs in which each scan comes to an end, which HangsExactly says when it does.
- EveryCoroutineGoesOn: memory is read and written in aligned 8-byte words, and code between switches is any code that stays out of the saved registers of others, which only bSwap and bContext::init write.
- FirstSwitchEntersAligned: mmap and mprotect appear only as a page-aligned base with a guard page on each side.
- Deal: on the heap, needs fewer than 2^32 polls, because the list that the scan returns is counted in 32 bits; PollDeal keeps the polls that were made ready as a sequence; RuntimeQueueLists.bQueues.Deal links their items behind the ready queue.
- The classes of Runtime keep the lockCounts, the routines inside lock(), and which routines are live, unstarted or parked, in maps and sets; a wait list exists from the first wait on. Locks that are always free are left out.
- bCond::timeWait, whose timeout leaves its list entry behind and does not lock again, and signalOnce on an empty list, which dereferences null, are outside the interface.
- accept, connect, read, recv, recvfrom, sendto, setsockopt and fcntl are thin calls into the kernel.
- Memory that is never freed (the items per descriptor, stack headers), debugging output, the idle wait and time stamps are not part of this model.
