/** What holds in every reachable state of the pool.  Each conjunct speaks about the few fields it
    needs, so that an event that leaves those alone keeps it at once. */
module PoolInvariant {
  import opened Wrappers
  import opened WorkerQueue
  import opened CondVar
  import opened Sums
  import opened PoolModel

  // ----- Weights -------------------------------------------------------------------------------

  /** Counted in `running`: from the spawn up to the decrement in the epilogue. */
  predicate Live(t: Thread) {
    !(t.ExitZero? || t.ExitLoad? || t.ExitClose? || t.Recycle?)
  }

  function LiveWeight(t: Thread): nat {
    if Live(t) then 1 else 0
  }

  function ParkedWeight(p: Caller): nat {
    if p.Parked? then 1 else 0
  }

  /** Counted in `waiting`. */
  function WaitingWeight(p: Caller): nat {
    if p.Queuing? || p.Parked? || p.Woken? || p.Relocked? then 1 else 0
  }

  function WokenWeight(p: Caller): nat {
    if p.Woken? then 1 else 0
  }

  /** Parked and going to look at the condition variable without further help. */
  function AwakeWeight(generation: nat): Caller -> nat {
    (p: Caller) => if p.Parked? && !Asleep(p, generation) then 1 else 0
  }

  /** Parked and not released by a broadcast. */
  function CurrentWeight(generation: nat): Caller -> nat {
    (p: Caller) => if p.Parked? && p.since == generation then 1 else 0
  }

  function HoldsWeight(w: WorkerId): Caller -> nat {
    (p: Caller) => if p == Holding(w) then 1 else 0
  }

  function FetchedWeight(w: WorkerId): Caller -> nat {
    (p: Caller) => if p.Fetched? && p.w == w then 1 else 0
  }

  // ----- The spin lock -------------------------------------------------------------------------

  /** Exactly the thread whose program counter says so holds the lock. */
  ghost predicate LockInv(lock: Option<Actor>, callers: map<CallerId, Caller>, threads: map<WorkerId, Thread>,
                          purge: Purge, admin: Admin)
  {
    && (forall c :: c in callers ==> (CallerLocks(callers[c]) <==> lock == Some(ByCaller(c))))
    && (forall w :: w in threads ==> (ThreadLocks(threads[w]) <==> lock == Some(ByWorker(w))))
    && (PurgeLocks(purge) <==> lock == Some(ByPurge))
    && (admin.AResetting? <==> lock == Some(ByAdmin))
    && (lock.Some? && lock.value.ByCaller? ==> lock.value.c in callers)
    && (lock.Some? && lock.value.ByWorker? ==> lock.value.w in threads)
  }

  // ----- Counters ------------------------------------------------------------------------------

  /** `running` counts the live workers. */
  ghost predicate LiveInv(running: int, threads: map<WorkerId, Thread>) {
    running == Sum(threads, LiveWeight)
  }

  /** `parked` counts the parked callers, and every token is covered by a parked caller that will
      look without further help. */
  ghost predicate CondInv(cond: Waiters, callers: map<CallerId, Caller>) {
    && cond.parked == Sum(callers, ParkedWeight)
    && cond.tokens <= Sum(callers, AwakeWeight(cond.generation))
    && (forall c :: c in callers && callers[c].Parked? ==> callers[c].since <= cond.generation)
  }

  ghost predicate WaitInv(waiting: int, callers: map<CallerId, Caller>) {
    waiting == Sum(callers, WaitingWeight)
  }

  /** Has waited before and is back in the loop. */
  predicate Again(p: Caller) {
    p.Uncounted? || ((p.Loop? || p.Empty? || p.Sized? || p.Spawning? || p.Full?) && p.admitted)
  }

  /** With a limit on blocked callers, `waiting` respects it, and an admitted caller back in the
      loop finds room below it. */
  ghost predicate LimitInv(cfg: Config, waiting: int, callers: map<CallerId, Caller>) {
    && (cfg.nonblocking || cfg.maxBlocking < 0 ==> waiting == 0)
    && (cfg.maxBlocking > 0 ==> waiting <= cfg.maxBlocking)
    && (forall c :: c in callers && Again(callers[c]) ==>
          !cfg.nonblocking && cfg.maxBlocking >= 0 && (cfg.maxBlocking > 0 ==> waiting < cfg.maxBlocking))
    && (forall c :: c in callers && (callers[c].Queuing? || callers[c].Parked? || callers[c].Woken? || callers[c].Relocked?) ==>
          !cfg.nonblocking && cfg.maxBlocking >= 0)
  }

  // ----- Who has which worker ------------------------------------------------------------------

  /** The workers that `purge` has taken out of the queue and not finished yet. */
  function Stale(purge: Purge): seq<Worker> {
    match purge
    case PCounting(stale) => stale
    case PFinishing(stale, _) => stale
    case _ => []
  }

  function Mail(chan: map<WorkerId, seq<Message>>, w: WorkerId): nat {
    if w in chan then |chan[w]| else 0
  }

  /** The places where something is in charge of waking worker `w`: the queue, a caller about to
      send to it, its channel, the purge thread. */
  ghost function Custody(queue: seq<Worker>, callers: map<CallerId, Caller>, chan: map<WorkerId, seq<Message>>,
                         purge: Purge, w: WorkerId): nat
  {
    Occurs(queue, w) + Sum(callers, HoldsWeight(w)) + Mail(chan, w) + Occurs(Stale(purge), w)
  }

  /** The worker waits for a message, or will as soon as it has left the lock. */
  predicate AtReceive(threads: map<WorkerId, Thread>, w: WorkerId) {
    w in threads && (threads[w].Recv? || threads[w].RevSignal?)
  }

  /** A worker that waits for a message is in exactly one of those places, once; any other worker
      is in none. */
  ghost predicate CustodyInv(queue: seq<Worker>, callers: map<CallerId, Caller>, chan: map<WorkerId, seq<Message>>,
                             purge: Purge, threads: map<WorkerId, Thread>)
  {
    && (forall w: nat :: Custody(queue, callers, chan, purge, w) == if AtReceive(threads, w) then 1 else 0)
    && (forall w :: w in threads && threads[w].RevSignal? ==> Occurs(queue, w) == 1)
  }

  function Cached(cache: seq<WorkerId>, w: WorkerId): nat {
    multiset(cache)[w]
  }

  /** Every GoWorker ever made is cached, fetched by the caller about to start it, or has a thread,
      exactly one of these, once. */
  ghost predicate RegistryInv(made: nat, cache: seq<WorkerId>, callers: map<CallerId, Caller>, threads: map<WorkerId, Thread>) {
    forall w: nat ::
      Cached(cache, w) + Sum(callers, FetchedWeight(w)) + (if w in threads then 1 else 0) == if w < made then 1 else 0
  }

  // ----- Capacity ------------------------------------------------------------------------------

  ghost predicate CapacityInv(cfg: Config, capacity: int, running: int, peak: int,
                              callers: map<CallerId, Caller>, tuners: map<nat, Tuner>)
  {
    && ValidConfig(cfg)
    && (cfg.size == -1 <==> capacity == -1)
    && (capacity != -1 ==> 0 < capacity <= peak && running <= peak)
    && (cfg.preAlloc ==> capacity == cfg.size == peak)
    && (forall c :: c in callers && (callers[c].Sized? || callers[c].Spawning? || callers[c].Fetched?) ==>
          && (callers[c].cap == -1 <==> cfg.size == -1)
          && (callers[c].cap != -1 ==> 0 < callers[c].cap <= peak)
          && (callers[c].cap != -1 && !callers[c].Sized? ==> running < callers[c].cap))
    && (forall t :: t in tuners && tuners[t].Storing? ==> tuners[t].size > 0 && cfg.size != -1 && !cfg.preAlloc)
  }

  // ----- Tasks ---------------------------------------------------------------------------------

  predicate InMail(chan: map<WorkerId, seq<Message>>, w: WorkerId, c: CallerId) {
    w in chan && Payload(c) in chan[w]
  }

  predicate Runs(threads: map<WorkerId, Thread>, w: WorkerId, c: CallerId) {
    w in threads && threads[w] == Run(c)
  }

  /** A task is where its caller left it and nowhere else: before delivery and after rejection it is
      with the caller; once accepted by a worker it is in that worker's channel, being run by that
      worker, or over, exactly one of these. */
  ghost predicate TaskInv(callers: map<CallerId, Caller>, chan: map<WorkerId, seq<Message>>,
                          threads: map<WorkerId, Thread>, finished: multiset<CallerId>)
  {
    && (forall w, c :: InMail(chan, w, c) ==> c in callers && callers[c] == Accepted(w))
    && (forall w, c :: Runs(threads, w, c) ==> c in callers && callers[c] == Accepted(w))
    && (forall c :: c in finished ==> c in callers && callers[c].Accepted?)
    && (forall c :: c in callers && callers[c].Accepted? ==>
          var w := callers[c].w;
          (if InMail(chan, w, c) then 1 else 0) + (if Runs(threads, w, c) then 1 else 0) + finished[c] == 1)
  }

  // ----- Wake-ups ------------------------------------------------------------------------------

  /** The lock holder will look into the queue (or leave on a closed pool), or will signal the
      insertion it has just made. */
  predicate Hunting(lock: Option<Actor>, callers: map<CallerId, Caller>, threads: map<WorkerId, Thread>) {
    match lock
    case Some(ByCaller(c)) => c in callers && (callers[c].Loop? || callers[c].Relocked? || callers[c].Uncounted?)
    case Some(ByWorker(w)) => w in threads && threads[w].RevSignal?
    case _ => false
  }

  predicate SawEmpty(p: Caller) {
    p.Empty? || p.Sized? || p.Spawning? || p.Fetched? || p.Full? || p.Queuing?
  }

  /** While the pool is open, idle workers are outnumbered by wake-ups under way as long as some
      caller of the current generation sleeps without a token to wake it. */
  ghost predicate WakeInv(open: bool, cond: Waiters, queue: seq<Worker>, lock: Option<Actor>,
                          callers: map<CallerId, Caller>, threads: map<WorkerId, Thread>)
  {
    && (forall c :: c in callers && SawEmpty(callers[c]) ==> queue == [])
    && (open && Sum(callers, CurrentWeight(cond.generation)) > 0 && cond.parked > cond.tokens ==>
          |queue| <= cond.tokens + Sum(callers, WokenWeight) + if Hunting(lock, callers, threads) then 1 else 0)
  }

  // ----- Shutdown ------------------------------------------------------------------------------

  predicate Closed(a: Admin) {
    !(a.AIdle? || a.APurgeFlag? || a.AGoPurge? || a.ATickFlag? || a.AGoTick? || a.ANewLatch?)
  }

  /** `release` has emptied the queue. */
  predicate WasReset(a: Admin) {
    Closed(a) && !(a.AStopPurge? || a.AStopTick? || a.AResetLock? || a.AResetting?)
  }

  /** `release` has made its own test for zero workers. */
  predicate WasReleased(a: Admin) {
    WasReset(a) && !(a.AWaking? || a.AZero?)
  }

  /** A closed pool that was reset keeps an empty queue. */
  ghost predicate ResetInv(open: bool, admin: Admin, queue: seq<Worker>, threads: map<WorkerId, Thread>) {
    && (open <==> !Closed(admin))
    && (WasReset(admin) ==> queue == [] && forall w :: w in threads ==> !threads[w].RevInsert?)
  }

  /** There is one purge thread unless purging is disabled; it stops only when told to, and the flag
      says that it has stopped except while `reboot` replaces it. */
  ghost predicate PurgeInv(cfg: Config, admin: Admin, purge: Purge, purgeDone: bool, purgeCancelled: bool, open: bool) {
    if cfg.disablePurge then purge.PGone? && !purgeDone
    else
      && (purgeDone ==> purge.PGone?)
      && (purge.PGone? && !purgeDone ==> admin.AGoPurge?)
      && (admin.AWaitTick? || admin.AReopen? || admin.APurgeFlag? || admin.APollTick? || admin.AQuiet? ==> purgeDone)
      && (admin.AGoPurge? ==> purge.PGone? && !purgeDone)
      && (admin.AIdle? || admin.ATickFlag? || admin.AGoTick? || admin.ANewLatch? ==>
            !purgeCancelled && !purge.PLeaving? && !purge.PGone?)
      && (Closed(admin) && !admin.AStopPurge? ==> purgeCancelled)
  }

  ghost predicate TickInv(admin: Admin, tick: Ticktock, tickDone: bool, tickCancelled: bool) {
    && (tickDone ==> tick.TGone?)
    && (tick.TGone? && !tickDone ==> admin.AGoTick?)
    && (admin.AReopen? || admin.APurgeFlag? || admin.AGoPurge? || admin.ATickFlag? || admin.AQuiet? ==> tickDone)
    && (admin.AGoTick? ==> tick.TGone? && !tickDone)
    && (admin.AIdle? || admin.ANewLatch? ==> !tickCancelled && tick.TWait?)
  }

  /** Between its decrement to zero and the close of this latch. */
  predicate AboutToClose(t: Thread, latch: nat) {
    t.ExitZero? || t.ExitLoad? || t == ExitClose(latch)
  }

  /** `reboot`, or `release_context`, has found the latch closed and not gone back to waiting. */
  predicate PastLatch(a: Admin) {
    a.APollRunning? || a.APollPurge? || a.APollTick? || a.AQuiet? || a.AWaitPurge? || a.AWaitTick? || a.AReopen?
  }

  /** Once `release` has made its zero test, the latch is closed, or workers are running, or the
      worker that took `running` to zero is on its way to close it; once somebody has waited for it, it
      is closed.  Latches are numbered. */
  ghost predicate LatchInv(admin: Admin, latch: nat, closed: set<nat>, running: int, threads: map<WorkerId, Thread>) {
    && (WasReleased(admin) && !admin.AClosing? && latch !in closed ==>
          running > 0 || exists w :: w in threads && AboutToClose(threads[w], latch))
    && (PastLatch(admin) ==> latch in closed)
    && (forall l :: l in closed ==> l <= latch)
    && (forall w :: w in threads && threads[w].ExitClose? ==> threads[w].latch <= latch)
  }

  // ----- All together --------------------------------------------------------------------------

  ghost predicate Inv(s: State) {
    && LockInv(s.lock, s.callers, s.threads, s.purge, s.admin)
    && LiveInv(s.running, s.threads)
    && CondInv(s.cond, s.callers)
    && WaitInv(s.waiting, s.callers)
    && LimitInv(s.cfg, s.waiting, s.callers)
    && CustodyInv(s.queue, s.callers, s.chan, s.purge, s.threads)
    && RegistryInv(s.made, s.cache, s.callers, s.threads)
    && CapacityInv(s.cfg, s.capacity, s.running, s.peak, s.callers, s.tuners)
    && TaskInv(s.callers, s.chan, s.threads, s.finished)
    && WakeInv(s.open, s.cond, s.queue, s.lock, s.callers, s.threads)
    && ResetInv(s.open, s.admin, s.queue, s.threads)
    && PurgeInv(s.cfg, s.admin, s.purge, s.purgeDone, s.purgeCancelled, s.open)
    && TickInv(s.admin, s.tick, s.tickDone, s.tickCancelled)
    && LatchInv(s.admin, s.latch, s.closed, s.running, s.threads)
  }
}
