/** The worker pool as an interleaved machine (src/pool_common.rs, src/worker.rs, src/pool.rs).

    Callers of `try_submit`, worker threads, the purge and ticktock threads, callers of `tune` and
    the one thread that calls `release` and `reboot` each have a program counter.  Every event below
    is one action on shared memory: one atomic operation, one hold of a short mutex, or the part of a
    spin-lock section up to the next action that does not need that lock. */
module PoolModel {
  import opened Wrappers
  import opened WorkerQueue
  import opened CondVar

  type CallerId = nat

  type WorkerId = nat

  /** Holders of the spin lock. */
  datatype Actor = ByCaller(c: CallerId) | ByWorker(w: WorkerId) | ByPurge | ByAdmin

  /** What travels through a worker's channel; each caller submits one task and is named by it. */
  datatype Message = Payload(task: CallerId) | Finish

  datatype Config = Config(
    size: int,
    preAlloc: bool,
    nonblocking: bool,
    maxBlocking: int,
    disablePurge: bool)

  /** A call of `try_submit`. `admitted` remembers that the caller has waited before. */
  datatype Caller =
    | Start                              // about to test whether the pool is closed
    | Ready                              // wants the lock
    | Loop(admitted: bool)               // locked: top of the loop in retrieve_worker
    | Empty(admitted: bool)              // locked: the queue was empty
    | Sized(admitted: bool, cap: int)    // locked: capacity read
    | Spawning(admitted: bool, cap: int) // locked: found room below that capacity
    | Fetched(cap: int, w: WorkerId)     // locked: has a GoWorker without a thread
    | Full(admitted: bool)               // locked: no room
    | Queuing                            // locked: counted in `waiting`
    | Parked(since: nat, awake: bool)    // in Cond.wait, about to look or asleep
    | Woken                              // left Cond.wait, wants the lock back
    | Relocked                           // locked again, still counted in `waiting`
    | Uncounted                          // locked: about to test whether the pool is closed
    | Holding(w: WorkerId)               // owns a worker it has not sent to
    | Accepted(w: WorkerId)              // returned Ok
    | Rejected(error: Error)             // returned the task

  /** A worker thread. */
  datatype Thread =
    | Recv                       // waits for a message
    | Run(task: CallerId)        // runs a payload
    | RevCap                     // revert_worker: about to read the capacity
    | RevRun(cap: int)           // about to compare it with running
    | RevClosed                  // about to test whether the pool is closed
    | RevBcast                   // about to broadcast and give up
    | RevStamp                   // about to stamp itself
    | RevLock(stamp: int)        // wants the lock
    | RevCheck(stamp: int)       // locked: about to test again
    | RevInsert(stamp: int)      // locked: about to insert itself
    | RevSignal                  // locked: inserted, about to signal
    | Exit                       // epilogue: about to leave `running`
    | ExitZero                   // left `running` at zero, about to test closed
    | ExitLoad                   // saw the pool closed, about to load the latch
    | ExitClose(latch: nat)      // about to close that latch
    | Recycle                    // about to return its GoWorker to the cache

  datatype Purge =
    | PWait | PChecking | PLocking | PRefreshing
    | PCounting(stale: seq<Worker>)
    | PFinishing(stale: seq<Worker>, dormant: bool)
    | PBroadcasting | PLeaving | PGone

  datatype Ticktock = TWait | TLeaving | TGone

  /** The thread that calls `release` and `reboot`, one call at a time. */
  datatype Admin =
    | AIdle                                   // the pool is in service
    | AStopPurge | AStopTick | AResetLock | AResetting | AWaking | AZero | AClosing
    | AReleased                               // release has returned
    | APolling | APollRunning | APollPurge | APollTick   // release_context waits for the workers
    | AQuiet                                  // release_context has returned Ok
    | AWaitLatch | AWaitPurge | AWaitTick | AReopen
    | APurgeFlag | AGoPurge | ATickFlag | AGoTick | ANewLatch

  datatype Tuner =
    | Tuning(size: int) | Storing(size: int, was: int) | TuneSignal | TuneBcast | Tuned

  datatype State = State(
    cfg: Config,
    // atomics
    capacity: int, running: int, open: bool, waiting: int,
    purgeDone: bool, tickDone: bool,
    // the spin lock and what it protects
    lock: Option<Actor>, queue: seq<Worker>,
    cond: Waiters,
    // all_done: the current latch, and the latches closed so far
    latch: nat, closed: set<nat>,
    purgeCancelled: bool, tickCancelled: bool,
    // GoWorkers: how many were ever made, the cached ones, their channels
    made: nat, cache: seq<WorkerId>, chan: map<WorkerId, seq<Message>>,
    // threads
    callers: map<CallerId, Caller>, threads: map<WorkerId, Thread>,
    purge: Purge, tick: Ticktock, admin: Admin, tuners: map<nat, Tuner>,
    // worker threads whose only remaining action is the signal at the end of the epilogue
    signallers: nat,
    // history: stop sentinels among the tasks, tasks whose run is over, largest capacity in force
    stops: set<CallerId>, finished: multiset<CallerId>, peak: int)

  function KindOf(cfg: Config): Kind {
    if cfg.preAlloc && cfg.size > 0 then Ring(cfg.size) else Stack
  }

  predicate ValidConfig(cfg: Config) {
    (cfg.size == -1 || cfg.size > 0) && (cfg.preAlloc ==> cfg.size > 0)
  }

  /** `PoolCore::new`, up to the start of its two service threads. */
  function New(size: int, expiry: int, options: Config): (r: Result<State>)
    ensures r == Err(InvalidPoolExpiry) <==> !options.disablePurge && expiry < 0
    ensures r == Err(InvalidPreAllocSize) <==> (options.disablePurge || expiry >= 0) && options.preAlloc && size <= 0
    ensures r.Ok? <==> (options.disablePurge || expiry >= 0) && (options.preAlloc ==> size > 0)
    ensures r.Ok? ==>
      && ValidConfig(r.value.cfg) && r.value == Initial(r.value.cfg)
      && r.value.cfg == options.(size := r.value.capacity)
      && (r.value.capacity == -1 <==> size <= 0) && (size > 0 ==> r.value.capacity == size)
  {
    var size := if size <= 0 then -1 else size;
    if !options.disablePurge && expiry < 0 then Err(InvalidPoolExpiry)
    else if options.preAlloc && size == -1 then Err(InvalidPreAllocSize)
    else Ok(Initial(options.(size := size)))
  }

  function Initial(cfg: Config): State {
    State(
      cfg, cfg.size, 0, true, 0,
      false, false,
      None, [],
      NO_WAITERS,
      0, {},
      false, false,
      0, [], map[],
      map[], map[],
      if cfg.disablePurge then PGone else PWait, TWait, AIdle, map[],
      0,
      {}, multiset{}, cfg.size)
  }

  // ----- Pieces shared by several events -------------------------------------------------------

  predicate CallerLocks(p: Caller) {
    p.Loop? || p.Empty? || p.Sized? || p.Spawning? || p.Fetched? || p.Full? || p.Queuing? || p.Relocked? || p.Uncounted?
  }

  predicate ThreadLocks(t: Thread) {
    t.RevCheck? || t.RevInsert? || t.RevSignal?
  }

  predicate PurgeLocks(p: Purge) {
    p.PRefreshing? || p.PCounting?
  }

  /** A parked caller sleeps until it is notified; a broadcast notifies everybody registered
      before it, and those are the parked callers of another generation. */
  predicate Asleep(p: Caller, generation: nat) {
    p.Parked? && !p.awake && p.since == generation
  }

  /** `signal` notifies one sleeping thread if it counts and somebody sleeps, and nobody else. */
  predicate MayNotify(cond: Waiters, callers: map<CallerId, Caller>, wake: Option<CallerId>) {
    if SignalCounts(cond) then
      match wake
      case Some(c) => c in callers && Asleep(callers[c], cond.generation)
      case None => forall c :: c in callers ==> !Asleep(callers[c], cond.generation)
    else wake == None
  }

  function Notified(cond: Waiters, callers: map<CallerId, Caller>, wake: Option<CallerId>): map<CallerId, Caller> {
    if wake == None then callers else callers[wake.value := Parked(cond.generation, true)]
  }

  function Sent(chan: map<WorkerId, seq<Message>>, w: WorkerId, m: Message): map<WorkerId, seq<Message>> {
    chan[w := (if w in chan then chan[w] else []) + [m]]
  }

  /** A send that does not block: the one slot of the channel is free. */
  predicate CanSend(chan: map<WorkerId, seq<Message>>, w: WorkerId) {
    w in chan ==> |chan[w]| < 1
  }

  // ----- try_submit ----------------------------------------------------------------------------

  ghost predicate Submits(s: State, s': State, c: CallerId, stop: bool) {
    && c !in s.callers
    && s' == s.(callers := s.callers[c := Start], stops := if stop then s.stops + {c} else s.stops)
  }

  /** The steps of a caller that only read shared memory, and where they lead. */
  predicate CallerReads(p: Caller, s: State) {
    || p.Start? || p.Empty? || p.Sized?
    || (p.Loop? && s.queue == [])
  }

  function CallerGoes(p: Caller, s: State): Caller
    requires CallerReads(p, s)
  {
    match p
    case Start => if s.open then Ready else Rejected(PoolClosed)
    case Loop(admitted) => Empty(admitted)
    case Empty(admitted) => Sized(admitted, s.capacity)
    case Sized(admitted, cap) => if cap == -1 || cap > s.running then Spawning(admitted, cap) else Full(admitted)
  }

  ghost predicate CallerMoves(s: State, s': State, c: CallerId) {
    && c in s.callers && CallerReads(s.callers[c], s)
    && s' == s.(callers := s.callers[c := CallerGoes(s.callers[c], s)])
  }

  ghost predicate CallerTakesLock(s: State, s': State, c: CallerId) {
    && c in s.callers && (s.callers[c].Ready? || s.callers[c].Woken?) && s.lock == None
    && s' == s.(callers := s.callers[c := if s.callers[c].Ready? then Loop(false) else Relocked],
                lock := Some(ByCaller(c)))
  }

  ghost predicate Detaches(s: State, s': State, c: CallerId) {
    && c in s.callers && s.callers[c].Loop? && s.queue != []
    && s' == s.(callers := s.callers[c := Holding(Next(KindOf(s.cfg), s.queue).id)],
                queue := Detached(KindOf(s.cfg), s.queue), lock := None)
  }

  /** `fetch_cached_worker`. */
  ghost predicate Fetches(s: State, s': State, c: CallerId) {
    && c in s.callers && s.callers[c].Spawning?
    && var w := if s.cache != [] then s.cache[|s.cache| - 1] else s.made;
       s' == s.(callers := s.callers[c := Fetched(s.callers[c].cap, w)],
                cache := if s.cache != [] then s.cache[..|s.cache| - 1] else [],
                made := if s.cache != [] then s.made else s.made + 1)
  }

  /** `worker::run`, and the end of the critical section. */
  ghost predicate Spawns(s: State, s': State, c: CallerId) {
    && c in s.callers && s.callers[c].Fetched?
    && var w := s.callers[c].w;
       s' == s.(callers := s.callers[c := Holding(w)], threads := s.threads[w := Recv],
                running := s.running + 1, lock := None)
  }

  predicate Overloaded(s: State) {
    s.cfg.nonblocking || (s.cfg.maxBlocking != 0 && s.waiting >= s.cfg.maxBlocking)
  }

  ghost predicate Bails(s: State, s': State, c: CallerId) {
    && c in s.callers && s.callers[c].Full? && Overloaded(s)
    && s' == s.(callers := s.callers[c := Rejected(PoolOverload)], lock := None)
  }

  ghost predicate Queues(s: State, s': State, c: CallerId) {
    && c in s.callers && s.callers[c].Full? && !Overloaded(s)
    && s' == s.(callers := s.callers[c := Queuing], waiting := s.waiting + 1)
  }

  /** The head of `Cond::wait`: registration, then release of the spin lock. */
  ghost predicate Parks(s: State, s': State, c: CallerId) {
    && c in s.callers && s.callers[c].Queuing?
    && s' == s.(callers := s.callers[c := Parked(s.cond.generation, true)],
                cond := Registered(s.cond), lock := None)
  }

  /** A parked caller that was notified, or has not slept yet, looks and leaves. */
  ghost predicate Leaves(s: State, s': State, c: CallerId) {
    && c in s.callers && s.callers[c].Parked? && !Asleep(s.callers[c], s.cond.generation)
    && MayLeave(s.cond, s.callers[c].since) && s.cond.parked > 0
    && s' == s.(callers := s.callers[c := Woken], cond := Left(s.cond, s.callers[c].since))
  }

  /** A parked caller looks, finds no reason to leave and goes to sleep. */
  ghost predicate Sleeps(s: State, s': State, c: CallerId) {
    && c in s.callers && s.callers[c].Parked? && s.callers[c].awake && !MayLeave(s.cond, s.callers[c].since)
    && s' == s.(callers := s.callers[c := Parked(s.callers[c].since, false)])
  }

  /** After `Cond::wait`. */
  ghost predicate Uncounts(s: State, s': State, c: CallerId) {
    && c in s.callers && s.callers[c].Relocked?
    && s' == s.(callers := s.callers[c := Uncounted], waiting := s.waiting - 1)
  }

  /** Give up on a closed pool or go round the loop again. */
  ghost predicate Resumes(s: State, s': State, c: CallerId) {
    && c in s.callers && s.callers[c].Uncounted?
    && s' == s.(callers := s.callers[c := if s.open then Loop(true) else Rejected(PoolClosed)],
                lock := if s.open then s.lock else None)
  }

  ghost predicate Delivers(s: State, s': State, c: CallerId) {
    && c in s.callers && s.callers[c].Holding? && CanSend(s.chan, s.callers[c].w)
    && s' == s.(callers := s.callers[c := Accepted(s.callers[c].w)],
                chan := Sent(s.chan, s.callers[c].w, Payload(c)))
  }

  /** A condition variable may wake a thread for no reason. */
  ghost predicate WakesSpuriously(s: State, s': State, c: CallerId) {
    && c in s.callers && s.callers[c].Parked?
    && s' == s.(callers := s.callers[c := Parked(s.callers[c].since, true)])
  }

  // ----- Worker threads ------------------------------------------------------------------------

  /** The steps of a worker that only read shared memory, and where they lead; `now` is the pool's
      cached clock. */
  predicate WorkerReads(t: Thread, s: State) {
    || t.RevCap? || t.RevRun? || t.RevClosed? || t.RevStamp? || t.ExitZero? || t.ExitLoad?
    || (t.RevCheck? && s.open)
  }

  function WorkerGoes(t: Thread, s: State, now: int): Thread
    requires WorkerReads(t, s)
  {
    match t
    case RevCap => RevRun(s.capacity)
    case RevRun(cap) => if cap > 0 && s.running > cap then RevBcast else RevClosed
    case RevClosed => if s.open then RevStamp else RevBcast
    case RevStamp => RevLock(now)
    case RevCheck(stamp) => RevInsert(stamp)
    case ExitZero => if s.open then Recycle else ExitLoad
    case ExitLoad => ExitClose(s.latch)
  }

  ghost predicate WorkerMoves(s: State, s': State, w: WorkerId, now: int) {
    && w in s.threads && WorkerReads(s.threads[w], s)
    && s' == s.(threads := s.threads[w := WorkerGoes(s.threads[w], s, now)])
  }

  /** What a worker does with a message. */
  function Heeds(m: Message): Thread {
    if m.Payload? then Run(m.task) else Exit
  }

  ghost predicate Receives(s: State, s': State, w: WorkerId) {
    && w in s.threads && s.threads[w].Recv? && w in s.chan && s.chan[w] != []
    && var m := s.chan[w][0];
       s' == s.(threads := s.threads[w := Heeds(m)],
                chan := s.chan[w := s.chan[w][1..]])
  }

  /** A payload returns, panics, or is the stop sentinel. */
  ghost predicate Completes(s: State, s': State, w: WorkerId, panics: bool) {
    && w in s.threads && s.threads[w].Run?
    && var c := s.threads[w].task;
       s' == s.(threads := s.threads[w := if c in s.stops || panics then Exit else RevCap],
                finished := s.finished + multiset{c})
  }

  ghost predicate GivesUp(s: State, s': State, w: WorkerId) {
    && w in s.threads && s.threads[w].RevBcast?
    && s' == s.(threads := s.threads[w := Exit], cond := Broadcasted(s.cond))
  }

  ghost predicate WorkerTakesLock(s: State, s': State, w: WorkerId) {
    && w in s.threads && s.threads[w].RevLock? && s.lock == None
    && s' == s.(threads := s.threads[w := RevCheck(s.threads[w].stamp)], lock := Some(ByWorker(w)))
  }

  /** The pool is closed after all, or the ring is full. */
  ghost predicate IsRefused(s: State, s': State, w: WorkerId) {
    && w in s.threads
    && (|| (s.threads[w].RevCheck? && !s.open)
        || (s.threads[w].RevInsert? && WorkerQueue.Full(KindOf(s.cfg), s.queue)))
    && s' == s.(threads := s.threads[w := Exit], lock := None)
  }

  ghost predicate Inserts(s: State, s': State, w: WorkerId) {
    && w in s.threads && s.threads[w].RevInsert? && !WorkerQueue.Full(KindOf(s.cfg), s.queue)
    && s' == s.(threads := s.threads[w := RevSignal],
                queue := Inserted(KindOf(s.cfg), s.queue, Worker(w, s.threads[w].stamp)))
  }

  ghost predicate Announces(s: State, s': State, w: WorkerId, wake: Option<CallerId>) {
    && w in s.threads && s.threads[w].RevSignal? && MayNotify(s.cond, s.callers, wake)
    && s' == s.(threads := s.threads[w := Recv], lock := None,
                cond := Signalled(s.cond), callers := Notified(s.cond, s.callers, wake))
  }

  /** Only the worker that takes `running` to zero looks at the latch. */
  function EpilogueFrom(running: int): Thread {
    if running == 0 then ExitZero else Recycle
  }

  /** `add_running(-1)` at the head of the epilogue. */
  ghost predicate Retires(s: State, s': State, w: WorkerId) {
    && w in s.threads && s.threads[w].Exit?
    && s' == s.(threads := s.threads[w := EpilogueFrom(s.running - 1)],
                running := s.running - 1)
  }

  ghost predicate ClosesLatch(s: State, s': State, w: WorkerId) {
    && w in s.threads && s.threads[w].ExitClose?
    && s' == s.(threads := s.threads[w := Recycle], closed := s.closed + {s.threads[w].latch})
  }

  ghost predicate Recycles(s: State, s': State, w: WorkerId) {
    && w in s.threads && s.threads[w].Recycle?
    && s' == s.(threads := s.threads - {w}, cache := s.cache + [w], signallers := s.signallers + 1)
  }

  /** The signal that ends the epilogue. */
  ghost predicate SignalsLate(s: State, s': State, wake: Option<CallerId>) {
    && s.signallers > 0 && MayNotify(s.cond, s.callers, wake)
    && s' == s.(signallers := s.signallers - 1,
                cond := Signalled(s.cond), callers := Notified(s.cond, s.callers, wake))
  }

  // ----- The purge and ticktock threads --------------------------------------------------------

  predicate PurgeReads(p: Purge) {
    p.PWait? || p.PChecking? || (p.PFinishing? && p.stale == [])
  }

  function PurgeGoes(p: Purge, s: State): Purge
    requires PurgeReads(p)
  {
    match p
    case PWait => if s.purgeCancelled then PLeaving else PChecking
    case PChecking => if s.open then PLocking else PLeaving
    case PFinishing(_, dormant) => if dormant && s.waiting > 0 then PBroadcasting else PWait
  }

  ghost predicate PurgeMoves(s: State, s': State) {
    && PurgeReads(s.purge)
    && s' == s.(purge := PurgeGoes(s.purge, s))
  }

  ghost predicate PurgeTakesLock(s: State, s': State) {
    && s.purge.PLocking? && s.lock == None
    && s' == s.(purge := PRefreshing, lock := Some(ByPurge))
  }

  /** `refresh`; a ring hands over a prefix that wraps in two pieces. */
  ghost predicate Refreshes(s: State, s': State, split: nat, expiry: int) {
    && s.purge.PRefreshing?
    && var k := Expired(KindOf(s.cfg), s.queue, expiry);
       && split <= k && (KindOf(s.cfg).Stack? ==> split == 0)
       && s' == s.(purge := PCounting(Handed(s.queue, k, split)), queue := s.queue[k..])
  }

  ghost predicate Counts(s: State, s': State) {
    && s.purge.PCounting?
    && var stale := s.purge.stale;
       s' == s.(purge := PFinishing(stale, s.running == 0 || s.running == |stale|), lock := None)
  }

  ghost predicate Finishes(s: State, s': State) {
    && s.purge.PFinishing? && s.purge.stale != [] && CanSend(s.chan, s.purge.stale[0].id)
    && s' == s.(purge := PFinishing(s.purge.stale[1..], s.purge.dormant),
                chan := Sent(s.chan, s.purge.stale[0].id, Finish))
  }

  ghost predicate PurgeBroadcasts(s: State, s': State) {
    && s.purge.PBroadcasting?
    && s' == s.(purge := PWait, cond := Broadcasted(s.cond))
  }

  ghost predicate PurgeLeaves(s: State, s': State) {
    && s.purge.PLeaving?
    && s' == s.(purge := PGone, purgeDone := true)
  }

  ghost predicate TickMoves(s: State, s': State) {
    && s.tick.TWait?
    && s' == s.(tick := if s.tickCancelled || !s.open then TLeaving else TWait)
  }

  ghost predicate TickLeaves(s: State, s': State) {
    && s.tick.TLeaving?
    && s' == s.(tick := TGone, tickDone := true)
  }

  // ----- release, release_context and reboot ---------------------------------------------------

  /** A call of `release` on an open pool. */
  ghost predicate Closes(s: State, s': State) {
    && s.admin.AIdle? && s.open
    && s' == s.(admin := AStopPurge, open := false)
  }

  ghost predicate CancelsPurge(s: State, s': State) {
    && s.admin.AStopPurge?
    && s' == s.(admin := AStopTick, purgeCancelled := true)
  }

  ghost predicate CancelsTick(s: State, s': State) {
    && s.admin.AStopTick?
    && s' == s.(admin := AResetLock, tickCancelled := true)
  }

  ghost predicate ResetTakesLock(s: State, s': State) {
    && s.admin.AResetLock? && s.lock == None
    && s' == s.(admin := AResetting, lock := Some(ByAdmin))
  }

  /** `reset` finishes the parked workers one by one; both queues go oldest first. */
  ghost predicate ResetsOne(s: State, s': State) {
    && s.admin.AResetting? && s.queue != [] && CanSend(s.chan, s.queue[0].id)
    && s' == s.(queue := s.queue[1..], chan := Sent(s.chan, s.queue[0].id, Finish))
  }

  ghost predicate ResetEnds(s: State, s': State) {
    && s.admin.AResetting? && s.queue == []
    && s' == s.(admin := AWaking, lock := None)
  }

  ghost predicate ReleaseBroadcasts(s: State, s': State) {
    && s.admin.AWaking?
    && s' == s.(admin := AZero, cond := Broadcasted(s.cond))
  }

  ghost predicate ReleaseClosesLatch(s: State, s': State) {
    && s.admin.AClosing?
    && s' == s.(admin := AReleased, closed := s.closed + {s.latch})
  }

  /** The steps that only read.  `onward` chooses what to call once `release` has returned, and
      whether the context of `release_context` is still live. */
  predicate AdminReads(s: State, onward: bool) {
    match s.admin
    case AZero => true
    case AReleased => true
    case APolling => onward ==> s.latch in s.closed
    case APollRunning => true
    case APollPurge => true
    case APollTick => true
    case AQuiet => true
    case AWaitLatch => s.latch in s.closed
    case AWaitPurge => s.cfg.disablePurge || s.purgeDone
    case AWaitTick => s.tickDone
    case _ => false
  }

  function AdminGoes(s: State, onward: bool): Admin
    requires AdminReads(s, onward)
  {
    match s.admin
    case AZero => if s.running == 0 then AClosing else AReleased
    case AReleased => if onward then AWaitLatch else APolling
    case APolling => if onward then APollRunning else AReleased
    case APollRunning => if s.running == 0 then APollPurge else if onward then APolling else AReleased
    case APollPurge =>
      if s.cfg.disablePurge || s.purgeDone then APollTick else if onward then APolling else AReleased
    case APollTick => if s.tickDone then AQuiet else if onward then APolling else AReleased
    case AQuiet => AWaitLatch
    case AWaitLatch => AWaitPurge
    case AWaitPurge => AWaitTick
    case AWaitTick => AReopen
  }

  ghost predicate AdminMoves(s: State, s': State, onward: bool) {
    && AdminReads(s, onward)
    && s' == s.(admin := AdminGoes(s, onward))
  }

  ghost predicate Reopens(s: State, s': State) {
    && s.admin.AReopen?
    && s' == s.(admin := APurgeFlag, open := true)
  }

  ghost predicate ClearsPurgeFlag(s: State, s': State) {
    && s.admin.APurgeFlag?
    && s' == s.(admin := AGoPurge, purgeDone := false)
  }

  ghost predicate StartsPurge(s: State, s': State) {
    && s.admin.AGoPurge?
    && s' == s.(admin := ATickFlag,
                purgeCancelled := if s.cfg.disablePurge then s.purgeCancelled else false,
                purge := if s.cfg.disablePurge then s.purge else PWait)
  }

  ghost predicate ClearsTickFlag(s: State, s': State) {
    && s.admin.ATickFlag?
    && s' == s.(admin := AGoTick, tickDone := false)
  }

  ghost predicate StartsTick(s: State, s': State) {
    && s.admin.AGoTick?
    && s' == s.(admin := ANewLatch, tickCancelled := false, tick := TWait)
  }

  ghost predicate RenewsLatch(s: State, s': State) {
    && s.admin.ANewLatch?
    && s' == s.(admin := AIdle, latch := s.latch + 1)
  }

  // ----- tune ----------------------------------------------------------------------------------

  ghost predicate CallsTune(s: State, s': State, t: nat, size: int) {
    && t !in s.tuners
    && s' == s.(tuners := s.tuners[t := Tuning(size)])
  }

  ghost predicate ReadsCapacity(s: State, s': State, t: nat) {
    && t in s.tuners && s.tuners[t].Tuning?
    && var size := s.tuners[t].size;
       s' == s.(tuners := s.tuners[t :=
         if s.capacity == -1 || size <= 0 || size == s.capacity || s.cfg.preAlloc then Tuned
         else Storing(size, s.capacity)])
  }

  /** More room for one caller is worth a signal, for several a broadcast. */
  function WakesFor(size: int, was: int): Tuner {
    if size <= was then Tuned else if size - was == 1 then TuneSignal else TuneBcast
  }

  function Larger(a: int, b: int): int {
    if a > b then a else b
  }

  ghost predicate StoresCapacity(s: State, s': State, t: nat) {
    && t in s.tuners && s.tuners[t].Storing?
    && var Storing(size, was) := s.tuners[t];
       s' == s.(tuners := s.tuners[t := WakesFor(size, was)],
                capacity := size, peak := Larger(size, s.peak))
  }

  ghost predicate TuneSignals(s: State, s': State, t: nat, wake: Option<CallerId>) {
    && t in s.tuners && s.tuners[t].TuneSignal? && MayNotify(s.cond, s.callers, wake)
    && s' == s.(tuners := s.tuners[t := Tuned],
                cond := Signalled(s.cond), callers := Notified(s.cond, s.callers, wake))
  }

  ghost predicate TuneBroadcasts(s: State, s': State, t: nat) {
    && t in s.tuners && s.tuners[t].TuneBcast?
    && s' == s.(tuners := s.tuners[t := Tuned], cond := Broadcasted(s.cond))
  }

  // ----- Events and runs -----------------------------------------------------------------------

  datatype Event =
    | Submit(c: CallerId, stop: bool) | CallerMove(c: CallerId) | CallerLock(c: CallerId)
    | DetachWorker(c: CallerId) | Fetch(c: CallerId) | Spawn(c: CallerId) | Bail(c: CallerId)
    | Queue(c: CallerId) | Park(c: CallerId) | Sleep(c: CallerId) | Leave(c: CallerId)
    | Uncount(c: CallerId) | Resume(c: CallerId)
    | Deliver(c: CallerId) | Spurious(c: CallerId)
    | WorkerMove(w: WorkerId, now: int) | Receive(w: WorkerId) | Complete(w: WorkerId, panics: bool)
    | GiveUp(w: WorkerId) | WorkerLock(w: WorkerId) | Refuse(w: WorkerId) | InsertWorker(w: WorkerId)
    | Announce(w: WorkerId, wake: Option<CallerId>) | Retire(w: WorkerId) | CloseLatch(w: WorkerId)
    | RecycleWorker(w: WorkerId) | LateSignal(wake: Option<CallerId>)
    | PurgeMove | PurgeLock | RefreshQueue(split: nat, expiry: int) | PurgeCount | PurgeFinish
    | PurgeBroadcast | PurgeLeave | TickMove | TickLeave
    | Close | CancelPurge | CancelTick | ResetLock | ResetOne | ResetEnd | ReleaseBroadcast
    | ReleaseLatch | AdminMove(onward: bool) | Reopen | ClearPurgeFlag | StartPurge | ClearTickFlag
    | StartTick | RenewLatch
    | CallTune(t: nat, size: int) | ReadCapacity(t: nat) | StoreCapacity(t: nat)
    | TuneSignalEvent(t: nat, wake: Option<CallerId>) | TuneBroadcast(t: nat)

  ghost predicate CallerEvent(s: State, e: Event, s': State) {
    match e
    case Submit(c, stop) => Submits(s, s', c, stop)
    case CallerMove(c) => CallerMoves(s, s', c)
    case CallerLock(c) => CallerTakesLock(s, s', c)
    case DetachWorker(c) => Detaches(s, s', c)
    case Fetch(c) => Fetches(s, s', c)
    case Spawn(c) => Spawns(s, s', c)
    case Bail(c) => Bails(s, s', c)
    case Queue(c) => Queues(s, s', c)
    case Park(c) => Parks(s, s', c)
    case Sleep(c) => Sleeps(s, s', c)
    case Leave(c) => Leaves(s, s', c)
    case Uncount(c) => Uncounts(s, s', c)
    case Resume(c) => Resumes(s, s', c)
    case Deliver(c) => Delivers(s, s', c)
    case Spurious(c) => WakesSpuriously(s, s', c)
    case _ => false
  }

  ghost predicate WorkerEvent(s: State, e: Event, s': State) {
    match e
    case WorkerMove(w, now) => WorkerMoves(s, s', w, now)
    case Receive(w) => Receives(s, s', w)
    case Complete(w, panics) => Completes(s, s', w, panics)
    case GiveUp(w) => GivesUp(s, s', w)
    case WorkerLock(w) => WorkerTakesLock(s, s', w)
    case Refuse(w) => IsRefused(s, s', w)
    case InsertWorker(w) => Inserts(s, s', w)
    case Announce(w, wake) => Announces(s, s', w, wake)
    case Retire(w) => Retires(s, s', w)
    case CloseLatch(w) => ClosesLatch(s, s', w)
    case RecycleWorker(w) => Recycles(s, s', w)
    case LateSignal(wake) => SignalsLate(s, s', wake)
    case _ => false
  }

  ghost predicate ServiceEvent(s: State, e: Event, s': State) {
    match e
    case PurgeMove => PurgeMoves(s, s')
    case PurgeLock => PurgeTakesLock(s, s')
    case RefreshQueue(split, expiry) => Refreshes(s, s', split, expiry)
    case PurgeCount => Counts(s, s')
    case PurgeFinish => Finishes(s, s')
    case PurgeBroadcast => PurgeBroadcasts(s, s')
    case PurgeLeave => PurgeLeaves(s, s')
    case TickMove => TickMoves(s, s')
    case TickLeave => TickLeaves(s, s')
    case _ => false
  }

  ghost predicate AdminEvent(s: State, e: Event, s': State) {
    match e
    case Close => Closes(s, s')
    case CancelPurge => CancelsPurge(s, s')
    case CancelTick => CancelsTick(s, s')
    case ResetLock => ResetTakesLock(s, s')
    case ResetOne => ResetsOne(s, s')
    case ResetEnd => ResetEnds(s, s')
    case ReleaseBroadcast => ReleaseBroadcasts(s, s')
    case ReleaseLatch => ReleaseClosesLatch(s, s')
    case AdminMove(onward) => AdminMoves(s, s', onward)
    case Reopen => Reopens(s, s')
    case ClearPurgeFlag => ClearsPurgeFlag(s, s')
    case StartPurge => StartsPurge(s, s')
    case ClearTickFlag => ClearsTickFlag(s, s')
    case StartTick => StartsTick(s, s')
    case RenewLatch => RenewsLatch(s, s')
    case _ => false
  }

  ghost predicate TuneEvent(s: State, e: Event, s': State) {
    match e
    case CallTune(t, size) => CallsTune(s, s', t, size)
    case ReadCapacity(t) => ReadsCapacity(s, s', t)
    case StoreCapacity(t) => StoresCapacity(s, s', t)
    case TuneSignalEvent(t, wake) => TuneSignals(s, s', t, wake)
    case TuneBroadcast(t) => TuneBroadcasts(s, s', t)
    case _ => false
  }

  ghost predicate Step(s: State, e: Event, s': State) {
    || CallerEvent(s, e, s')
    || WorkerEvent(s, e, s')
    || ServiceEvent(s, e, s')
    || AdminEvent(s, e, s')
    || TuneEvent(s, e, s')
  }

  /** Each state of a run is reached from the one before it by its event. */
  ghost predicate IsRun(states: seq<State>, events: seq<Event>) {
    && |states| == |events| + 1
    && forall i :: 0 <= i < |events| ==> Step(states[i], events[i], states[i + 1])
  }

  /** A run of a pool from its creation. */
  ghost predicate IsPoolRun(cfg: Config, states: seq<State>, events: seq<Event>) {
    ValidConfig(cfg) && IsRun(states, events) && states[0] == Initial(cfg)
  }
}
