# A verified model of the worker pool

The repository implements a pool of reusable worker threads. A caller of `try_submit` takes an idle
worker or starts a new one below a capacity, hands its task over through a one-slot channel, and
otherwise is turned away or blocked. Idle workers wait in a lock-protected queue (a stack, or a ring
when the pool is pre-allocated); a purge thread retires the ones that have been idle too long;
`tune` changes the capacity; `release`, `release_context` and `reboot` close and reopen the pool. A
multi-pool puts several pools behind one front.

This project models three parts of it and proves what they promise.

**The pool as an interleaved machine** (`PoolModel.dfy`). Callers, workers, the purge and ticktock
threads, callers of `tune` and the thread that calls `release` and `reboot` each have a program
counter. One event is one action on shared memory: an atomic operation, one hold of a short mutex, or
the part of a spin-lock section up to its next action that does not need that lock. Everything
that the source does without the lock (the decrement of `running`, `tune`, the state
compare-and-swap, the late signal, broadcasts, the latch) interleaves freely. `PoolInvariant.dfy`
states one inductive invariant; `PoolCallers.dfy`, `PoolWorkers.dfy` and `PoolServices.dfy` prove
that every event keeps it (`PoolFrames.dfy` and `PoolFootprints.dfy` say what an event leaves alone),
`PoolRuns.dfy` extends it to whole runs. The promises follow: `PoolOwnership.dfy` (workers),
`PoolRetire.dfy` (how a worker ends), `PoolDelivery.dfy` (tasks), `PoolWaiting.dfy`, `PoolSpare.dfy` and `PoolHope.dfy` (blocked callers),
`PoolCapacity.dfy`, `PoolClosing.dfy` and `PoolRest.dfy` (a closed pool comes to rest: nothing is left
but calls that have not gone for the lock and callers asleep in the wait), `PoolAsleep.dfy` and
`PoolLate.dfy` (who may be left asleep then; `PoolReach.dfy` has the runs for it), `PoolDrain.dfy`,
`PoolShutdown.dfy`, `PoolLatch.dfy`, `PoolHeld.dfy` and `PoolReboot.dfy` (what `release` and `reboot` may rely on).
`PoolExamples.dfy` holds concrete runs that show that some conditions cannot be dropped.

**The objects beneath it.** `LoopQueue.dfy`, `WorkerStack.dfy`, `IdleQueue.dfy` and `Cond.dfy` are
imperative classes, proved against the functions of `WorkerQueue.dfy` and `Cond.dfy` that the machine
uses. `PoolCore.dfy` is the pool object itself, with its fields, a real queue, condition variable,
channels and latches. An object is valid when its real state is that of a state of the machine that
some run reaches. Its atomic methods are one event of the machine each, so that steps of other threads
may come between any two of them; `Elsewhere` is any step that leaves the real fields alone. Its
other methods have the control flow of `try_submit`, `retrieve_worker`, `revert_worker`, the epilogue,
the purge round, `tune`, `release` and `reboot`, undisturbed: each is proved to follow a run of the
machine (`PoolPaths.dfy`) and to come to what its specification says of the state it started in. A
blocked caller returns from `RetrieveWorker` at the wait and goes on with `ContinueRetrieval`.

**The multi-pool** (`MultiPool.dfy`): rotation on a wrapping 32-bit cursor, the scan for the least
loaded pool, and the retry after an overload.

## Seven places where the code promises less than one may think

* A call of `try_submit` can block on an open pool without a single worker, until somebody else calls.
  It finds the pool full; the last worker retires and sends its late signal (src/worker.rs:156-170)
  before the caller has registered in the wait (src/pool_common.rs:521-522):
  `PoolExamples.CallerMayBeStranded`, and nobody gets out of that wait without a further call,
  `release`, or a wake-up by `tune`: `PoolHope.LostForGood`. Before `release`, whatever `tune` does,
  whoever waits without a token has a live worker or a wake-up under way in every state of a run if and
  only if every caller that registered found one: `PoolHope.HopeIsLostExactly`. (Where it is not
  disabled, the purge thread broadcasts once it finds the pool dormant.) A second result bounds the
  room that goes unused meanwhile: `PoolSpare.NothingIsStrandedExactly`.
* `release` wakes the callers in the wait "to prevent those callers blocking infinitely"
  (src/pool_common.rs:355-356). A call that passed the closed check before may enter the wait after
  that broadcast and the last late signal, and then sleeps on a released pool, even after
  `release_context` has answered `Ok`: `PoolExamples.CallerMaySleepAfterRelease`. Once a closed pool is
  at rest, a caller in the wait gets out, short of `reboot` and `tune`, exactly if some call that passed
  the closed check has not gone for the lock yet: `PoolAsleep.LetGoExactly`. And the broadcast, if no
  call holds the lock at that time, can leave a caller asleep exactly if the pool blocks and has a
  capacity, and more such calls are late than there is room for: `PoolLate.BroadcastStrandsExactly`.
* `release_context` waits "for all workers to exit" (src/pool_common.rs:380-381). A caller that
  passed the closed check of `try_submit` before `release` (src/pool.rs:86) can still start a worker
  after the call has returned `Ok`: `PoolExamples.OkIsNotAlwaysFinal`. The promise holds exactly when
  no such caller is left: `PoolShutdown.EmptyPoolStaysEmpty`.
* `reboot` takes a closed latch for the end of all workers (src/pool_common.rs:449-451). A worker that
  took `running` to zero on the open pool may close it after further workers have started, so `reboot`
  can go on while a task runs, although no call was in flight: `PoolExamples.RebootMayMissAWorker`.
  In any closed state that can still happen exactly if the latch is ahead of the workers already, some
  call has yet to go for the lock, or a call that holds it will spawn and all live workers can end
  before: `PoolHeld.LatchMisleadsIff`; and under the same condition, and no other, `reboot` can come past
  all its waits with a worker still running: `PoolReboot.RebootMissesExactly`.
* A worker tests `closed` and loads the latch in two actions (src/worker.rs:156-157), so it can close
  the latch that a later `reboot` has installed: `PoolExamples.LatchMayBeClosedEarly`. That happens
  exactly if such a worker is still about to load it: `PoolLatch.FreshLatchStaysOpen`.
* `refresh` promises the workers idle for too long. It bisects, and a worker stamps itself before it
  takes the lock (src/pool_common.rs:540-542), so the queue can be out of order:
  `PoolExamples.StampsMayBeOutOfOrder`. What is removed is exactly what has expired if and only if no
  expired worker stands behind an unexpired one: `WorkerQueue.ExpiredIsExact`.
* The search of the ring computes `r + head + n` in `i32` (src/worker_loop_queue.rs:107). No ring of at
  most 715,827,883 slots can overflow it, and every larger one can be brought to overflow it by
  insertions and detachments: `LoopQueueRing.SearchSumFits`, `LoopQueueRing.OverflowingRing`.

## Events and their source

| event | source |
|---|---|
| Submits, CallerMoves (closed check) | src/pool.rs:85-88 |
| CallerTakesLock, Detaches, CallerMoves | src/pool_common.rs:490-502 |
| Fetches, Spawns | src/pool_common.rs:180-185, 503-506; src/worker.rs:110-119 |
| Bails, Queues | src/pool_common.rs:511-521 |
| Parks, Sleeps, Leaves, WakesSpuriously | src/deps/cond.rs:44-69 |
| Uncounts, Resumes | src/pool_common.rs:523-528 |
| Delivers | src/pool.rs:89-93; src/worker.rs:90-92 |
| Receives, Completes | src/worker.rs:124-151 |
| WorkerMoves, GivesUp, WorkerTakesLock, IsRefused, Inserts, Announces | src/pool_common.rs:533-557 |
| Retires, WorkerMoves, ClosesLatch, Recycles, SignalsLate | src/worker.rs:156-170 |
| PurgeMoves, PurgeTakesLock, Refreshes, Counts, Finishes, PurgeBroadcasts, PurgeLeaves | src/pool_common.rs:197-228 |
| TickMoves, TickLeaves | src/pool_common.rs:239-251 |
| Closes, CancelsPurge, CancelsTick, ResetTakesLock, ResetsOne, ResetEnds, ReleaseBroadcasts, ReleaseClosesLatch | src/pool_common.rs:334-366 |
| AdminMoves (waiting of release_context and reboot) | src/pool_common.rs:405-435, 445-463 |
| Reopens, ClearsPurgeFlag, StartsPurge, ClearsTickFlag, StartsTick, RenewsLatch | src/pool_common.rs:465-477 |
| ReadsCapacity, StoresCapacity, TuneSignals, TuneBroadcasts | src/pool_common.rs:313-326 |

## Model

| member | source | states |
|---|---|---|
| `PoolModel.New` | src/pool_common.rs:104-148 | which options are refused with which of the two errors; an accepted pool starts in the initial state of those options with the size normalised to -1 if it is not positive |
| `PoolRuns.InitialInv` | src/pool_common.rs:132-153 | a fresh pool satisfies the invariant |
| `PoolRuns.StepKeeps` | src/pool_common.rs:489-557 | every event of every thread keeps the invariant that ties counters, queue, channels, tasks, wake-ups, latch and service threads together |
| `PoolRuns.RunKeeps` | src/pool_common.rs:489-557 | so does every run |
| `PoolRuns.ReachableInv` | src/pool_common.rs:489-557 | and every state that some run reaches has it |
| `PoolCallers.CallerEventKeeps` | src/pool_common.rs:489-530 | the events of `try_submit` and `retrieve_worker` keep the invariant |
| `PoolWorkers.WorkerEventKeeps` | src/worker.rs:121-171 | the events of the worker loop, `revert_worker` and the epilogue keep it |
| `PoolServices.ServiceEventKeeps` | src/pool_common.rs:189-252 | the events of the purge and ticktock threads keep it |
| `PoolServices.AdminEventKeeps` | src/pool_common.rs:334-478 | the events of `release`, `release_context` and `reboot` keep it |
| `PoolServices.TuneEventKeeps` | src/pool_common.rs:313-326 | the events of `tune` keep it |
| `PoolOwnership.EveryWorkerHasOnePlace` | src/pool_common.rs:489-557 | a worker waiting for a message is in exactly one of: idle queue, a caller's hands, its own channel, the purge list; any other worker is in none |
| `PoolOwnership.NothingIsShared` | src/pool_common.rs:489-557 | no worker is idle or purged twice, held by two callers, or sent two messages |
| `PoolOwnership.RunningCounts` | src/worker.rs:110-156 | `running` is the number of workers between their start and their decrement |
| `PoolOwnership.WaitingCounts` | src/pool_common.rs:521-523 | `waiting` is the number of callers between the two updates |
| `PoolOwnership.ParkedCounts` | src/deps/cond.rs:44-89 | `parked` is the number of callers in the wait, and at least `tokens` of them are awake and will look |
| `PoolOwnership.CachedWorkersAreClean` | src/pool_common.rs:176-185 | a cached worker has no thread and no message, is cached once, and nobody is in charge of it |
| `PoolOwnership.FetchedWorkersAreClean` | src/pool_common.rs:503-504 | a worker about to be started again has an empty channel |
| `PoolOwnership.SendsNeverBlock` | src/worker.rs:90-98 | every sender finds the one slot of the channel free |
| `PoolOwnership.RingNeverFull` | src/pool_common.rs:548-550 | in a pre-allocated pool the insertion of `revert_worker` is never refused for lack of room |
| `PoolRetire.LoopEndsExactly` | src/worker.rs:124-151 | at every step of a run a worker comes to the end of its loop if and only if its task panics or is the stop sentinel, it takes an order to finish, or `revert_worker` refuses it, and it stays there until its decrement |
| `PoolRetire.EndedWorkerIsOutOfService` | src/worker.rs:146-156 | over every run, after a panic or another end of its loop a worker is listed in no queue, held by nobody and sent nothing, until it has left `running` |
| `PoolRetire.EndedWorkerRetiresFirst` | src/worker.rs:146-156 | hence between a panic, or another end, and the next time it can serve there is its decrement of `running` |
| `PoolDelivery.TaskIsInOnePlace` | src/pool.rs:85-96 | an accepted task is in one channel, being run once, or over once; any other task is nowhere in the pool |
| `PoolDelivery.AcceptedTasksAreConserved` | src/worker.rs:124-151 | accepted tasks are as many as tasks in channels, being run and over |
| `PoolDelivery.StepFollows` | src/pool_common.rs:489-530 | where a call can go from each point, whoever takes the step |
| `PoolDelivery.OutcomeIsFinal` | src/pool.rs:85-96 | what a call has returned stays: a refused task is never taken, an accepted one stays with its worker |
| `PoolWaiting.NoIdleWorkerIsStranded` | src/pool_common.rs:553-554 | open pool, free lock, a sleeper of the current generation without token: idle workers are at most the tokens plus the callers already woken |
| `PoolWaiting.SleepersSeeAnEmptyQueue` | src/pool_common.rs:519-522 | callers asleep with no wake-up pending imply an empty queue |
| `PoolWaiting.SpuriousWakeUpChangesNothing` | src/deps/cond.rs:51-65 | a sleeper that wakes for no reason, which it may, is asleep again after one look, with nothing changed |
| `PoolWaiting.WaitingRespectsTheLimit` | src/pool_common.rs:511-523 | `waiting` never exceeds a positive limit, is zero in nonblocking mode, and is parked plus woken callers when the lock is free |
| `PoolWaiting.TurnedAwayExactly` | src/pool_common.rs:511-521 | a call that found the pool full is refused exactly in nonblocking mode, with a negative limit, or when as many callers are counted as waiting as a positive limit allows; else, and only then, it waits |
| `PoolWaiting.AdmittedIsNeverOverloaded` | src/pool_common.rs:511-529 | over every run, a caller once admitted to wait never returns `PoolOverload` |
| `PoolWaiting.ReleaseLetsEveryWaiterGo` | src/pool_common.rs:355-357 | over every run that stays closed, a caller parked at the broadcast of `release` is on its way out, makes at most four moves, and has returned `PoolClosed` when it has made four |
| `PoolWaiting.ReleasedWaiterCanLeave` | src/deps/cond.rs:57-60 | a caller registered before a broadcast can leave without another signal |
| `PoolWaiting.TokensAreTaken` | src/deps/cond.rs:52-56 | whenever there is a token, some parked caller that is awake can take it |
| `PoolSpare.NothingIsStrandedExactly` | src/pool_common.rs:501-522 | over every run of a limited pool without an effective `tune` and without `release`: in every state in which somebody waits untokened, idle workers and room are outnumbered by wake-ups under way, if and only if every registration found no more room than wake-ups |
| `PoolSpare.RegistrationStrandsExactly` | src/deps/cond.rs:44-49 | from any reachable open state, a registration leaves the pool within that bound exactly if capacity less running is at most tokens, woken callers, late signals and retired workers together |
| `PoolSpare.RoomIsOutnumbered` | src/worker.rs:156-170 | the bound in numbers, whenever the lock is free |
| `PoolSpare.SleepersFindThePoolFull` | src/pool_common.rs:519-522 | within the bound, a caller asleep with no wake-up of any kind under way means an empty queue and no room |
| `PoolSpare.UnlimitedNeverBlocks` | src/pool_common.rs:501-507 | over every run, a pool without a capacity never blocks a caller and never returns `PoolOverload` |
| `PoolHope.HopeIsLostExactly` | src/pool_common.rs:501-522 | over every run before `release`, `tune` included: whoever waits without a token has a live worker or a wake-up under way in every state if and only if every registration found one |
| `PoolHope.HopeInNumbers` | src/worker.rs:156-170 | what that says whenever the lock is free: a worker runs, or tokens, woken callers, late signals and retired workers are not all zero |
| `PoolHope.LostForGood` | src/pool_common.rs:519-529 | on an open pool without workers, wake-ups, purge thread and calls under way, nobody gets out of the wait until somebody calls `try_submit` or `release`, or `tune` wakes |
| `PoolCapacity.PeakWasInForce` | src/pool_common.rs:313-318 | the recorded peak was the capacity at some earlier state of the run |
| `PoolCapacity.RunningWithinSomeCapacity` | src/pool_common.rs:501-507 | in a pool with a capacity, `running` never exceeds a capacity that was in force |
| `PoolCapacity.RunningWithinSize` | src/pool_common.rs:501-507 | without an effective `tune`, `running` never exceeds the size of the pool |
| `PoolCapacity.RunningStaysWithinCapacity` | src/pool_common.rs:313-326 | after the last effective `tune`, once `running` is within the capacity and no spawn holds an older one, it stays within it |
| `PoolClosing.ClosedStep` | src/pool_common.rs:334-366 | from the compare-and-swap of `release` on, no step of any thread but the reopening raises the measure, and every step of a worker, a service thread, `release` or a call under way lowers it |
| `PoolClosing.ClosedPoolTakesBoundedSteps` | src/pool_common.rs:334-366 | over every run of a closed pool those steps are bounded by the measure |
| `PoolRest.ClosedPoolIsNotStuck` | src/pool_common.rs:334-366 | until a closed pool is at rest (every thread gone, `release` returned, every call that went for the lock returned or asleep in the wait without a wake-up) one of them is possible, whoever holds the lock |
| `PoolRest.ClosedPoolComesToRest` | src/pool_common.rs:334-366 | from every reachable closed state there is a run to rest, within the measure, that leaves callers alone that have not gone for the lock; callers asleep at rest are the subject of the next rows |
| `PoolRest.WaiterReturnsClosed` | src/pool_common.rs:525-528 | from every reachable closed state, a caller on its way out of the wait returns `PoolClosed` at the end of some such run |
| `PoolAsleep.LetGoExactly` | src/pool_common.rs:355-357 | in every reachable closed state at rest, a caller in the wait gets out of it on some run without reopening and without a wake-up by `tune` if and only if some call past the closed check has not gone for the lock |
| `PoolAsleep.ForsakenRun` | src/pool_common.rs:519-529 | at rest without such a call, no run without those events ever lets a parked caller go |
| `PoolLate.StrandsExactly` | src/pool_common.rs:355-357 | from a reachable closed state with nobody current in the wait and no call holding the lock, some run without reopening and without effect of `tune` leaves a caller asleep with nobody to wake it if and only if the pool blocks, has a capacity, and more calls are past the closed check and not at the lock than capacity less running |
| `PoolLate.BroadcastStrandsExactly` | src/pool_common.rs:357-357 | the same of the broadcast of `release`, if no call holds the lock when it is made |
| `PoolLate.CalmStrandsNobody` | src/pool_common.rs:355-357 | whoever holds the lock: with room for every call under way to a worker and none on the way into the wait, nobody is left asleep |
| `PoolDrain.QuietStep` | src/pool_common.rs:333-366 | a quiet closed pool (no call in flight) stays quiet, spawns nothing, parks nobody, and every worker or service step lowers the measure |
| `PoolDrain.QuietPoolTakesBoundedWork` | src/worker.rs:121-171 | over every run from a quiet state, worker and service steps together are bounded by the measure |
| `PoolDrain.QuietPoolIsNotStuck` | src/worker.rs:121-171 | until everything has ended, some worker or service thread can step |
| `PoolDrain.QuietPoolCanDrain` | src/pool_common.rs:333-366 | the workers and service threads alone bring it to its end |
| `PoolDrain.DrainedPoolIsReadyForReboot` | src/pool_common.rs:444-463 | then nothing runs, the latch is closed and both done flags are set |
| `PoolShutdown.EmptyPoolHasRunEverything` | src/worker.rs:121-171 | with `running` zero every accepted task is over and no message or idle worker is left |
| `PoolShutdown.ReleaseLosesNoTask` | src/pool_common.rs:333-366 | from a quiet state the drain ends with every accepted task run |
| `PoolShutdown.ClosedPoolLosesNoTask` | src/pool_common.rs:333-366 | from any closed state, whatever is in flight, the pool can come to its end with every task accepted until then run |
| `PoolShutdown.EmptyPoolStaysEmpty` | src/pool_common.rs:380-381 | a closed, reset pool without workers stays without workers until reopened if and only if no caller past its closed check may still spawn one |
| `PoolShutdown.ReleaseContextIsConclusive` | src/pool_common.rs:405-435 | if `release_context` found no worker while no such caller was left, there is none until the reopening, all accepted tasks are over, and at `Ok` both service threads are gone |
| `PoolShutdown.OkFoundNobody` | src/pool_common.rs:405-435 | over every run, an `Ok` of `release_context` comes only after a test since the last reopening that found no worker, and if no call could spawn one then, there is no worker, no unfinished task and no service thread when it is given |
| `PoolLatch.LatchIsClosed` | src/pool_common.rs:359-365 | once `release` has returned, no worker runs and none is between decrement and close, the latch is closed and the wait of `reboot` is over |
| `PoolLatch.ClosedLatchMeansNoWorkers` | src/pool_common.rs:449-451 | over every run that stays closed, from a state with no call that may spawn and no latch ahead of the workers, a closed latch means that no worker runs |
| `PoolLatch.LatchMisleadsExactly` | src/pool_common.rs:449-451 | with no call that may spawn, some continuation closes the latch while a worker runs if and only if the latch is ahead of the workers now: workers run and it is closed, or a worker or `release` is on the way to close it |
| `PoolHeld.LatchMisleadsIff` | src/worker.rs:156-158 | in every reachable closed state: some continuation closes the latch while a worker runs if and only if the latch is ahead now, or a call past the closed check has not gone for the lock, or a call that holds it will spawn and the workers can end first (none of them is on its way to the lock; with none running, somebody can close the latch without the lock) |
| `PoolLatch.FreshLatchStaysOpen` | src/pool_common.rs:477-477 | the latch installed by `reboot` can be closed before the next `release` if and only if a worker that saw the pool closed has not loaded it yet |
| `PoolReboot.RebootWaitsForTheLatch` | src/pool_common.rs:451-451 | in every reachable state in which `reboot` has gone on from its first wait, or `release_context` to its tests, the latch is closed |
| `PoolReboot.RebootFindsNoWorkers` | src/pool_common.rs:449-463 | over every run, from a closed state in which no call may still spawn and the latch is not ahead: whenever `reboot` has gone on, no worker runs and every accepted task is over, and before the reopening both service threads are gone |
| `PoolReboot.RebootMissesExactly` | src/pool_common.rs:449-463 | from any reachable closed state, `reboot` can come past all its waits with a worker running if and only if the latch is ahead, a call has yet to go for the lock, or a call that holds it will spawn and all live workers can end before |
| `PoolShutdown.OneServiceThreadEach` | src/pool_common.rs:189-280 | at every start of a service thread the one before it is gone, and the done flag says exactly whether the thread has finished |
| `PoolExamples.OkIsNotAlwaysFinal` | src/pool_common.rs:380-435 | a reachable state after an `Ok` of `release_context` from which a worker still appears |
| `PoolExamples.LatchMayBeClosedEarly` | src/worker.rs:156-158 | a reachable state of a rebooted pool whose latch can be closed with no call of `release` |
| `PoolExamples.RebootMayMissAWorker` | src/pool_common.rs:449-463 | a reachable state past all waits of `reboot`, with a worker running a task and no call in flight |
| `PoolExamples.CallerMayBeStranded` | src/pool_common.rs:511-522 | a reachable state of an open pool below its capacity, without workers and without any wake-up, in which a caller is asleep |
| `PoolExamples.CallerMaySleepAfterRelease` | src/pool_common.rs:355-357 | a reachable state after an `Ok` of `release_context`, at rest, with a caller asleep that nothing but a reopening or `tune` can let go |
| `PoolExamples.StampsMayBeOutOfOrder` | src/pool_common.rs:540-548 | a reachable idle queue whose stamps are out of order, from which `refresh` leaves an expired worker |
| `PoolObject.PoolCore.constructor` | src/pool_common.rs:121-150 | the new object is the initial state of the machine |
| `IdleWorkers.IdleQueue.constructor` | src/worker_queue.rs:85-92 | an empty ring for a pre-allocated pool, else an empty stack |
| `PoolObject.RunOneTask` | src/pool_common.rs:489-557 | a new pool object takes a task, starts a worker for it, and has it idle again, stamped, when the task is over |
| `PoolObject.ReleaseAndReboot` | src/pool_common.rs:334-478 | a new pool object is released, its service threads end, and it is rebooted with the first latch closed and a second one open |
| `PoolObject.PoolCore.Elsewhere` | src/pool_common.rs:489-557 | any step of any thread that leaves the real fields alone keeps the object valid |
| `PoolObject.PoolCore.TrySubmit` | src/pool.rs:85-96 | `PoolClosed` exactly on a closed pool; else what `retrieve_worker` comes to, with the task in the channel of the worker it got |
| `PoolObject.PoolCore.RetrieveWorker` | src/pool_common.rs:489-530 | an idle worker if there is one; else, with room, a cached worker before a new one; else `PoolOverload` in nonblocking mode or at the limit; else registered in the wait; nothing else changes |
| `PoolObject.PoolCore.ContinueRetrieval` | src/pool_common.rs:522-528 | a blocked caller that looks goes to sleep again without a token or later generation; else it returns `PoolClosed` exactly on a closed pool and goes round the loop on an open one |
| `PoolObject.PoolCore.RevertWorker` | src/pool_common.rs:533-557 | kept exactly on an open pool with no surplus of workers and room in the queue: then last in the queue with its stamp, and signalled; refused with a broadcast unless only a full ring refuses |
| `PoolObject.PoolCore.Epilogue` | src/worker.rs:156-170 | one fewer running, the worker cached, the latch closed exactly by the last worker of a closed pool, one signal |
| `PoolObject.PoolCore.PurgeRound` | src/pool_common.rs:206-225 | the expired prefix leaves the queue and each of its workers is told to finish; a broadcast exactly if the pool was dormant and somebody waits |
| `PoolObject.PoolCore.Release` | src/pool_common.rs:334-366 | exactly on an open pool: every idle worker told to finish, oldest first, everybody parked let go, the latch closed exactly if no worker runs |
| `PoolObject.PoolCore.Reboot` | src/pool_common.rs:465-477 | open again, flags cleared, service threads started, a fresh latch, nothing else changed |
| `PoolObject.PoolCore.Tune` | src/pool_common.rs:313-326 | no effect without a capacity, on a pre-allocated pool, for a size not positive or unchanged; one signal for one more worker, one broadcast for more, none for fewer |
| `PoolObject.PoolCore.TryDetach` | src/pool_common.rs:493-497 | takes a worker from the real queue, or finds it empty: the machine's event either way |
| `PoolObject.PoolCore.BeginWait` | src/deps/cond.rs:44-49 | registers with the current generation, then unlocks |
| `PoolObject.PoolCore.Look` | src/deps/cond.rs:51-64 | leaves on a token or a later generation, else goes to sleep |
| `PoolObject.PoolCore.TryInsert` | src/pool_common.rs:548-550 | inserts into the real queue, or is refused by a full ring |
| `PoolObject.PoolCore.Announce` | src/pool_common.rs:553-554 | the signal under the lock |
| `PoolObject.PoolCore.GiveUp` | src/pool_common.rs:535-538 | the broadcast of a refused worker |
| `PoolObject.PoolCore.CloseLatch` | src/worker.rs:157-157 | closes the latch that the worker loaded, and no other |
| `PoolObject.PoolCore.SignalLate` | src/worker.rs:170-170 | the signal at the end of the epilogue |
| `PoolObject.PoolCore.Refresh` | src/pool_common.rs:206-208 | removes the expired prefix from the real queue, in the order the queue hands it over |
| `PoolObject.PoolCore.Reset` | src/pool_common.rs:350-353 | empties the real queue and tells its workers, oldest first, to finish |
| `PoolPaths.ResetIsARun` | src/pool_common.rs:350-353 | that is a run of single events in which no send blocks |
| `PoolObject.PoolCore.BroadcastRelease` | src/pool_common.rs:357-357 | the broadcast of `release` |
| `PoolObject.PoolCore.CloseCurrentLatch` | src/pool_common.rs:363-365 | closes the current latch |
| `PoolObject.PoolCore.RenewLatch` | src/pool_common.rs:477-477 | installs a fresh open latch and leaves the old ones alone |
| `PoolObject.Latch.Close` | src/deps/event.rs:22-31 | closes, also a second time |
| `CondVar.Cond.Register` | src/deps/cond.rs:46-48 | counts the waiter and returns the generation modulo two to the 64th |
| `CondVar.Cond.TryLeave` | src/deps/cond.rs:51-60 | leaves exactly on a token, taken first, or on another generation; without a token, for 1 to 0xFFFF_FFFF_FFFF_FFFF counted broadcasts since registration, and stays exactly for none or a multiple of 0x1_0000_0000_0000_0000 |
| `CondVar.Cond.Signal` | src/deps/cond.rs:73-79 | one token if some waiter has none |
| `CondVar.Cond.Broadcast` | src/deps/cond.rs:82-89 | a new generation and no tokens if anybody is parked, correct across the wrap |
| `WorkerQueue.Bisect` | src/worker_stack.rs:59-71 | the answer is a boundary between an expired and an unexpired worker, sorted or not |
| `WorkerQueue.Expired` | src/worker_loop_queue.rs:74-108 | the same for the number of workers removed |
| `WorkerQueue.ExpiredIsExact` | src/worker_stack.rs:92-104 | the removed prefix is exactly the workers last used at or before the expiry time if and only if none of them stands behind one used later |
| `WorkerQueue.ExpiredAgree` | src/worker_loop_queue.rs:157-186 | ring and stack then remove the same prefix |
| `WorkerQueue.HandedRotates` | src/worker_loop_queue.rs:171-178 | where each worker of a wrapped prefix stands: those from slot zero first, then those at the end of the storage |
| `WorkerQueue.HandedIsTheSame` | src/worker_loop_queue.rs:171-178 | the ring's order of a wrapped prefix changes nothing in the multiset |
| `WorkerQueue.RingIsFifo` | src/worker_loop_queue.rs:135-155 | over every run, what comes out and then what is left is what was there and then what was accepted, in order |
| `WorkerQueue.StackServesFromTheTop` | src/worker_stack.rs:83-90 | balanced insertions and detachments above some workers take what is above and leave those, whatever they are |
| `WorkerQueue.StackIsLifo` | src/worker_stack.rs:83-90 | over every run: a worker inserted, then any balanced insertions and detachments, then a detachment: it hands out that worker and leaves what was there before |
| `WorkerQueue.RunConserves` | src/worker_queue.rs:49-61 | neither queue loses or duplicates a worker over any run, sorted or not |
| `WorkerQueue.RunBounded` | src/worker_loop_queue.rs:135-145 | a ring never holds more workers than its size |
| `WorkerQueue.RunStaysSorted` | src/worker_queue.rs:49-61 | with non-decreasing stamps on arrival both queues stay sorted over every run |
| `WorkerQueue.RefreshAfterRun` | src/worker_queue.rs:58-58 | after such a run `refresh` removes exactly the expired workers and keeps exactly the others |
| `WorkerStackQueue.WorkerStack.BinarySearch` | src/worker_stack.rs:59-71 | the loop computes the bisection, `l - 1` when nothing has expired, and looks at no more workers than the size of the range has binary digits |
| `WorkerQueue.HalvingsAreLogarithmic` | src/worker_stack.rs:59-71 | that bound is logarithmic: at most `k` exactly for fewer than two to the `k`-th workers |
| `WorkerStackQueue.WorkerStack.Insert` | src/worker_stack.rs:83-86 | pushes at the end |
| `WorkerStackQueue.WorkerStack.Detach` | src/worker_stack.rs:88-90 | pops the newest, `None` on empty |
| `WorkerStackQueue.WorkerStack.Refresh` | src/worker_stack.rs:92-104 | returns the expired prefix and keeps the rest in order |
| `WorkerStackQueue.WorkerStack.Reset` | src/worker_stack.rs:106-112 | finishes all, oldest first, and is empty |
| `LoopQueueRing.SearchSumFits` | src/worker_loop_queue.rs:103-108 | over all positions and heads below the size, the final `i32` sum stays in range if and only if the size is at most 715,827,883 |
| `LoopQueueRing.OverflowingRing` | src/worker_loop_queue.rs:103-108 | every ring beyond that size can be filled, by its own insertions and detachments, so that the search overflows |
| `LoopQueueRing.LoopQueue.New` | src/worker_loop_queue.rs:48-60 | refused exactly for a non-positive size |
| `LoopQueueRing.LoopQueue.IsEmpty` | src/worker_loop_queue.rs:131-133 | agrees with the contents for every head, tail and full flag |
| `LoopQueueRing.LoopQueue.Len` | src/worker_loop_queue.rs:118-129 | the number of contents for every head, tail and full flag |
| `LoopQueueRing.LoopQueue.BinarySearch` | src/worker_loop_queue.rs:74-108 | the slot of the last expired worker of the rotated ring, or -1; flags exactly the overflows of the final sum |
| `LoopQueueRing.LoopQueue.SearchMapped` | src/worker_loop_queue.rs:87-105 | the loop over mapped positions computes the bisection of the unrotated contents, and looks at no more workers than their number has binary digits |
| `LoopQueueRing.LoopQueue.Insert` | src/worker_loop_queue.rs:135-145 | appends unless full; occupied slots stay exactly the window from the head |
| `LoopQueueRing.LoopQueue.Detach` | src/worker_loop_queue.rs:147-155 | removes the oldest, `None` on empty |
| `LoopQueueRing.LoopQueue.TakeOldest` | src/worker_loop_queue.rs:168-178 | empties exactly the slots of the expired prefix, straight or wrapped, and says in which order |
| `LoopQueueRing.LoopQueue.Refresh` | src/worker_loop_queue.rs:157-186 | removes the expired prefix, keeps the others in order, and restores the structure in both shapes |
| `LoopQueueRing.LoopQueue.Reset` | src/worker_loop_queue.rs:188-198 | finishes all workers in order and is empty |
| `MultiPools.EvenHits` | src/multipool.rs:183-186 | of `k` consecutive tickets each of `n` pools gets `k / n`, and one more if it is among the next `k % n` in turn |
| `MultiPools.RotationIsFair` | src/multipool.rs:183-186 | shares of any two pools differ by at most one without a wrap of the cursor, two across one wrap, and one again if the number of pools divides its range |
| `MultiPools.DealtFairly` | src/multipool.rs:182-186 | of the choices a multi-pool has really made in rotation since its cursor was set, any row gives two pools shares that differ by at most two, and by at most one without a wrap or if the number of pools divides its range |
| `MultiPools.WrapMayFavourAPool` | src/multipool.rs:183-186 | three pools: both tickets around the wrap go to the same pool |
| `MultiPools.MultiPoolCore.constructor` | src/multipool.rs:174-179 | the cursor starts at its maximum, so the first ticket is 0 |
| `MultiPools.MultiPoolCore.Next` | src/multipool.rs:182-200 | the next unsigned 32-bit ticket, back to 0 after 0xFFFF_FFFF, modulo the number of pools, which joins the choices dealt; or the first pool that gave the smallest number when the scan came to it; or -1 |
| `MultiPools.MultiPoolCore.Dispatch` | src/multipool.rs:203-219 | a second pool, then least loaded, is asked exactly after an overload in rotation; the result is the answer of the pool asked last, also if it is the first again; an accepted argument is in exactly that pool, a refused one in none; each pool asked has used up one answer, the others none |
| `MultiPools.MultiPoolCore.ReleaseAll` | src/multipool.rs:105-134 | every pool is released, and only on an open multi-pool; what went wrong is reported once for each pool, in index order |
| `MultiPools.MultiPoolCore.Reboot` | src/multipool.rs:296-307 | on a closed multi-pool the cursor restarts at 0, so the first ticket is then 1 |
| `MultiPools.New` | src/multipool.rs:146-180 | size and strategy errors; if making a pool fails, the ones made before are released and its error returned |

## Left out

- A channel without a slot, which the source uses on a single processor (src/lib.rs:189-197): the model has the one-slot channel of all other machines.
- Real threads, memory orderings, poisoned locks and failure to start a thread: steps are sequentially consistent, and the spin lock is an owner field.
- Concurrent calls of `release` and `reboot` from several threads: they are serialised, as src/pool_common.rs:440-443 advises.
- Freedom from starvation: whether a runnable thread is ever scheduled is not stated; the bounds count steps.
- PoolSpare.NothingIsStrandedExactly: is about runs without an effective `tune`, which opens room before its wake-up is sent, and without `release`; PoolHope and PoolLate have what holds with them.
- PoolLate.StrandsExactly: leaves out states in which a call holds the lock, for which PoolLate.CalmStrandsNobody has the safe direction only (a caller on its way out by an older broadcast may take the token meant for one that registers later, so the other direction depends on how many of them linger), and runs in which `tune` takes effect.
- Sorted stamps in the interleaved pool: not an invariant of the code (see above); sortedness is proved for runs of a queue whose insertions arrive in order.
- The clock: the cached time, expiry times and ticks are inputs, without the 64-bit range of `now - duration`.
- The 32-bit range of `running`, `waiting` and the capacity in the machine, and of the ring search anywhere but in its final sum.
- LoopQueueRing.LoopQueue.Refresh: says nothing about the result when the search overflows `i32`, since that is a crash or a wrap depending on how the program is built.
- PoolObject.PoolCore.Look: requires, like ContinueRetrieval, that fewer than two to the 64th broadcasts have passed since the caller registered; the machine counts broadcasts without bound.
- PoolObject: the spin lock, the program counters and the threads exist only in the machine's half of the object; running a task, `release_context` and the ticktock loop are steps of the machine.
- The context of `release_context` is an arbitrary choice to go on or to give up; its error values, and `release_timeout`, are not told apart.
- MultiPools.MultiPoolCore.ReleaseAll: releases pool by pool and lists the errors; the source does it concurrently and joins the error texts.
- MultiPools.MultiPoolCore.Dispatch: what the pools answer to a delivery and to the scan is given from outside, not computed by pool objects.
- The sums, index checks and getters of the multi-pool, `PoolWithFunc` and its variants, options, logging, panic reports, error texts and the default global pool.
