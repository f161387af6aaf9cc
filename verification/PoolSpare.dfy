/** Blocked callers and spare capacity.  The decrement of `running`, and the signal that follows it,
    come without the lock, so a caller that has found the pool full may go to sleep after both.  When
    exactly that strands it is settled here. */
module PoolSpare {
  import opened Wrappers
  import opened WorkerQueue
  import opened CondVar
  import opened Sums
  import opened PoolModel
  import opened PoolInvariant
  import opened PoolFrames
  import opened PoolFootprints
  import opened PoolRuns
  import opened PoolOwnership
  import opened PoolDelivery
  import opened PoolWaiting
  import opened PoolCapacity

  /** Has left `running` and will signal before it ends. */
  predicate Retired(t: Thread) {
    !Live(t)
  }

  function RetiredWeight(t: Thread): nat {
    if Retired(t) then 1 else 0
  }

  /** On the way to an idle worker or, past an empty queue, to a new one. */
  predicate Seeks(p: Caller) {
    p.Loop? || p.Relocked? || p.Uncounted? || p.Empty? || p.Sized? || p.Spawning? || p.Fetched?
  }

  /** The lock holder will use up an idle worker or room for one, or will signal its insertion. */
  predicate Seeking(lock: Option<Actor>, callers: map<CallerId, Caller>, threads: map<WorkerId, Thread>) {
    match lock
    case Some(ByCaller(c)) => c in callers && Seeks(callers[c])
    case Some(ByWorker(w)) => w in threads && threads[w].RevSignal?
    case _ => false
  }

  /** Wake-ups under way when nobody holds the lock: tokens, callers that have left the wait, late
      signals, and workers that will still send one. */
  ghost function UnderWay(cond: Waiters, callers: map<CallerId, Caller>, threads: map<WorkerId, Thread>, signallers: nat): nat {
    cond.tokens + Sum(callers, WokenWeight) + signallers + Sum(threads, RetiredWeight)
  }

  /** A caller waits in the current generation, and not everybody who waits has a token. */
  ghost predicate Waiting(open: bool, cond: Waiters, callers: map<CallerId, Caller>) {
    open && Sum(callers, CurrentWeight(cond.generation)) > 0 && cond.parked > cond.tokens
  }

  /** While somebody waits, idle workers and room for new ones are outnumbered by wake-ups. */
  ghost predicate SpareInv(open: bool, cond: Waiters, queue: seq<Worker>, room: int, lock: Option<Actor>,
                           callers: map<CallerId, Caller>, threads: map<WorkerId, Thread>, signallers: nat)
  {
    Waiting(open, cond, callers) ==>
      |queue| + room <= UnderWay(cond, callers, threads, signallers) + if Seeking(lock, callers, threads) then 1 else 0
  }

  function Room(s: State): int {
    s.capacity - s.running
  }

  ghost predicate NothingStranded(s: State) {
    SpareInv(s.open, s.cond, s.queue, Room(s), s.lock, s.callers, s.threads, s.signallers)
  }

  /** Every capacity read by a caller that may still spawn is the current one. */
  ghost predicate Current(s: State) {
    forall c :: c in s.callers && (s.callers[c].Sized? || s.callers[c].Spawning? || s.callers[c].Fetched?) ==>
      s.callers[c].cap == s.capacity
  }

  /** What a caller that registers must find: no more room than wake-ups under way. */
  ghost predicate ParkFits(s: State) {
    Room(s) <= UnderWay(s.cond, s.callers, s.threads, s.signallers)
  }

  // ----- A caller moves ------------------------------------------------------------------------

  lemma CallerSpare(s: State, c: CallerId, q: Caller)
    requires LockInv(s.lock, s.callers, s.threads, s.purge, s.admin) && NothingStranded(s)
    requires !q.Parked? && !q.Woken? && (c in s.callers ==> !s.callers[c].Parked? && !s.callers[c].Woken?)
    requires c in s.callers && Seeks(s.callers[c]) && !Seeks(q) ==> |s.queue| + Room(s) <= 0
    ensures SpareInv(s.open, s.cond, s.queue, Room(s), s.lock, s.callers[c := q], s.threads, s.signallers)
  {
    CallerSums(s.callers, c, q, s.cond.generation);
    if |s.queue| + Room(s) > 0 {
      assert Seeking(s.lock, s.callers, s.threads) ==> Seeking(s.lock, s.callers[c := q], s.threads);
    }
  }

  lemma MoveSpare(s: State, s': State, c: CallerId)
    requires LockInv(s.lock, s.callers, s.threads, s.purge, s.admin) && NothingStranded(s)
    requires WakeInv(s.open, s.cond, s.queue, s.lock, s.callers, s.threads)
    requires CapacityInv(s.cfg, s.capacity, s.running, s.peak, s.callers, s.tuners) && s.capacity != -1 && Current(s)
    requires CallerMoves(s, s', c)
    ensures NothingStranded(s')
  {
    CallerSpare(s, c, s'.callers[c]);
  }

  lemma TakesLockSpare(s: State, s': State, c: CallerId)
    requires LockInv(s.lock, s.callers, s.threads, s.purge, s.admin) && NothingStranded(s)
    requires CallerTakesLock(s, s', c)
    ensures NothingStranded(s')
  {
    CallerSums(s.callers, c, s'.callers[c], s.cond.generation);
  }

  lemma DetachSpare(s: State, s': State, c: CallerId)
    requires LockInv(s.lock, s.callers, s.threads, s.purge, s.admin) && NothingStranded(s)
    requires Detaches(s, s', c)
    ensures NothingStranded(s')
  {
    CallerSums(s.callers, c, s'.callers[c], s.cond.generation);
  }

  lemma FetchSpare(s: State, s': State, c: CallerId)
    requires LockInv(s.lock, s.callers, s.threads, s.purge, s.admin) && NothingStranded(s)
    requires Fetches(s, s', c)
    ensures NothingStranded(s')
  {
    CallerSpare(s, c, s'.callers[c]);
  }

  lemma SpawnSpare(s: State, s': State, c: CallerId)
    requires LockInv(s.lock, s.callers, s.threads, s.purge, s.admin) && NothingStranded(s)
    requires RegistryInv(s.made, s.cache, s.callers, s.threads)
    requires Spawns(s, s', c)
    ensures NothingStranded(s')
  {
    var w := s.callers[c].w;
    SpawnIsNew(s, c);
    CallerSums(s.callers, c, s'.callers[c], s.cond.generation);
    SumPut(s.threads, w, Recv, RetiredWeight);
  }

  lemma GivesWaySpare(s: State, s': State, c: CallerId)
    requires LockInv(s.lock, s.callers, s.threads, s.purge, s.admin) && NothingStranded(s)
    requires Bails(s, s', c) || Queues(s, s', c)
    ensures NothingStranded(s')
  {
    CallerSums(s.callers, c, s'.callers[c], s.cond.generation);
  }

  lemma QueuedSawEmpty(s: State, c: CallerId)
    requires WakeInv(s.open, s.cond, s.queue, s.lock, s.callers, s.threads)
    requires c in s.callers && s.callers[c].Queuing?
    ensures s.queue == []
  {
  }

  /** Registration keeps the bound exactly if it finds no more room than wake-ups. */
  lemma ParkSpare(s: State, s': State, c: CallerId)
    requires WakeInv(s.open, s.cond, s.queue, s.lock, s.callers, s.threads) && CondInv(s.cond, s.callers) && s.open
    requires Parks(s, s', c)
    ensures NothingStranded(s') <==> ParkFits(s)
  {
    QueuedSawEmpty(s, c);
    CallerSums(s.callers, c, s'.callers[c], s.cond.generation);
    ParkedSums(s.callers, s.cond.generation);
  }

  lemma SleepSpare(s: State, s': State, c: CallerId)
    requires LockInv(s.lock, s.callers, s.threads, s.purge, s.admin) && NothingStranded(s)
    requires Sleeps(s, s', c) || WakesSpuriously(s, s', c)
    ensures NothingStranded(s')
  {
    CallerSums(s.callers, c, s'.callers[c], s.cond.generation);
  }

  lemma LeaveSpare(s: State, s': State, c: CallerId)
    requires LockInv(s.lock, s.callers, s.threads, s.purge, s.admin) && NothingStranded(s)
    requires Leaves(s, s', c)
    ensures NothingStranded(s')
  {
    CallerSums(s.callers, c, s'.callers[c], s.cond.generation);
  }

  lemma AfterWaitSpare(s: State, s': State, c: CallerId)
    requires LockInv(s.lock, s.callers, s.threads, s.purge, s.admin) && NothingStranded(s) && s.open
    requires Uncounts(s, s', c) || Resumes(s, s', c)
    ensures NothingStranded(s')
  {
    CallerSpare(s, c, s'.callers[c]);
  }

  lemma DeliverSpare(s: State, s': State, c: CallerId)
    requires LockInv(s.lock, s.callers, s.threads, s.purge, s.admin) && NothingStranded(s)
    requires Delivers(s, s', c)
    ensures NothingStranded(s')
  {
    CallerSpare(s, c, s'.callers[c]);
  }

  lemma SubmitSpare(s: State, s': State, c: CallerId, stop: bool)
    requires LockInv(s.lock, s.callers, s.threads, s.purge, s.admin) && NothingStranded(s)
    requires Submits(s, s', c, stop)
    ensures NothingStranded(s')
  {
    CallerSpare(s, c, Start);
  }

  lemma CallersSpare(s: State, e: Event, s': State)
    requires Inv(s) && s.open && s.capacity != -1 && Current(s) && NothingStranded(s)
    requires CallerEvent(s, e, s') && (e.Park? ==> ParkFits(s))
    ensures NothingStranded(s')
  {
    hide LockInv, LiveInv, CondInv, WaitInv, LimitInv, CustodyInv, RegistryInv, CapacityInv, TaskInv, WakeInv, ResetInv, PurgeInv, TickInv, LatchInv, NothingStranded, Current, ParkFits;
    hide Submits, CallerMoves, CallerTakesLock, Detaches, Fetches, Spawns, Bails, Queues, Parks, Sleeps, Leaves, Uncounts, Resumes, Delivers, WakesSpuriously;
    if e.Submit? {
      SubmitSpare(s, s', e.c, e.stop);
    } else if e.CallerMove? {
      MoveSpare(s, s', e.c);
    } else if e.CallerLock? {
      TakesLockSpare(s, s', e.c);
    } else if e.DetachWorker? {
      DetachSpare(s, s', e.c);
    } else if e.Fetch? {
      FetchSpare(s, s', e.c);
    } else if e.Spawn? {
      SpawnSpare(s, s', e.c);
    } else if e.Bail? || e.Queue? {
      GivesWaySpare(s, s', e.c);
    } else if e.Park? {
      ParkSpare(s, s', e.c);
    } else if e.Leave? {
      LeaveSpare(s, s', e.c);
    } else if e.Uncount? || e.Resume? {
      AfterWaitSpare(s, s', e.c);
    } else if e.Deliver? {
      DeliverSpare(s, s', e.c);
    } else {
      SleepSpare(s, s', e.c);
    }
  }

  // ----- A worker moves ------------------------------------------------------------------------

  lemma ThreadSpare(s: State, w: WorkerId, u: Thread, lock: Option<Actor>)
    requires LockInv(s.lock, s.callers, s.threads, s.purge, s.admin) && NothingStranded(s)
    requires w in s.threads && Retired(u) == Retired(s.threads[w]) && !s.threads[w].RevSignal?
    requires lock == s.lock || s.lock == None || s.lock == Some(ByWorker(w))
    ensures SpareInv(s.open, s.cond, s.queue, Room(s), lock, s.callers, s.threads[w := u], s.signallers)
  {
    SumPut(s.threads, w, u, RetiredWeight);
    assert Seeking(s.lock, s.callers, s.threads) ==> Seeking(lock, s.callers, s.threads[w := u]);
  }

  lemma WorkerMoveSpare(s: State, s': State, w: WorkerId, now: int)
    requires LockInv(s.lock, s.callers, s.threads, s.purge, s.admin) && NothingStranded(s)
    requires WorkerMoves(s, s', w, now)
    ensures NothingStranded(s')
  {
    ThreadSpare(s, w, s'.threads[w], s'.lock);
  }

  lemma ReceiveSpare(s: State, s': State, w: WorkerId)
    requires LockInv(s.lock, s.callers, s.threads, s.purge, s.admin) && NothingStranded(s)
    requires Receives(s, s', w)
    ensures NothingStranded(s')
  {
    ThreadSpare(s, w, s'.threads[w], s'.lock);
  }

  lemma WorkerLockSpare(s: State, s': State, w: WorkerId)
    requires LockInv(s.lock, s.callers, s.threads, s.purge, s.admin) && NothingStranded(s)
    requires WorkerTakesLock(s, s', w)
    ensures NothingStranded(s')
  {
    ThreadSpare(s, w, s'.threads[w], s'.lock);
  }

  lemma RefuseSpare(s: State, s': State, w: WorkerId)
    requires LockInv(s.lock, s.callers, s.threads, s.purge, s.admin) && NothingStranded(s)
    requires IsRefused(s, s', w)
    ensures NothingStranded(s')
  {
    ThreadSpare(s, w, s'.threads[w], s'.lock);
  }

  lemma CloseLatchSpare(s: State, s': State, w: WorkerId)
    requires LockInv(s.lock, s.callers, s.threads, s.purge, s.admin) && NothingStranded(s)
    requires ClosesLatch(s, s', w)
    ensures NothingStranded(s')
  {
    ThreadSpare(s, w, s'.threads[w], s'.lock);
  }

  lemma CompleteSpare(s: State, s': State, w: WorkerId, panics: bool)
    requires LockInv(s.lock, s.callers, s.threads, s.purge, s.admin) && NothingStranded(s)
    requires Completes(s, s', w, panics)
    ensures NothingStranded(s')
  {
    ThreadSpare(s, w, s'.threads[w], s'.lock);
  }

  lemma InsertSpare(s: State, s': State, w: WorkerId)
    requires LockInv(s.lock, s.callers, s.threads, s.purge, s.admin) && NothingStranded(s)
    requires Inserts(s, s', w)
    ensures NothingStranded(s')
  {
    SumPut(s.threads, w, s'.threads[w], RetiredWeight);
  }

  /** The decrement opens up room, and the worker that made it will signal. */
  lemma RetireSpare(s: State, s': State, w: WorkerId)
    requires LockInv(s.lock, s.callers, s.threads, s.purge, s.admin) && NothingStranded(s)
    requires Retires(s, s', w)
    ensures NothingStranded(s')
  {
    SumPut(s.threads, w, s'.threads[w], RetiredWeight);
    assert Seeking(s.lock, s.callers, s.threads) ==> Seeking(s.lock, s.callers, s'.threads);
  }

  lemma RecycleSpare(s: State, s': State, w: WorkerId)
    requires LockInv(s.lock, s.callers, s.threads, s.purge, s.admin) && NothingStranded(s)
    requires Recycles(s, s', w)
    ensures NothingStranded(s')
  {
    SumRemove(s.threads, w, RetiredWeight);
    assert Seeking(s.lock, s.callers, s.threads) ==> Seeking(s.lock, s.callers, s'.threads);
  }

  lemma SignalSums(s: State, wake: Option<CallerId>)
    requires MayNotify(s.cond, s.callers, wake)
    ensures Sum(Notified(s.cond, s.callers, wake), WokenWeight) == Sum(s.callers, WokenWeight)
    ensures Sum(Notified(s.cond, s.callers, wake), CurrentWeight(s.cond.generation)) == Sum(s.callers, CurrentWeight(s.cond.generation))
    ensures wake.Some? ==> wake.value in s.callers && s.callers[wake.value].Parked?
  {
    if wake.Some? {
      CallerSums(s.callers, wake.value, Parked(s.cond.generation, true), s.cond.generation);
    }
  }

  /** A signal turns one wake-up under way into a token; it is lost only on waiters that all have one. */
  lemma SignalSpare(s: State, s': State, wake: Option<CallerId>, gone: nat)
    requires LockInv(s.lock, s.callers, s.threads, s.purge, s.admin) && NothingStranded(s)
    requires MayNotify(s.cond, s.callers, wake) && gone <= 1 && gone <= s.signallers
    requires s'.cond == Signalled(s.cond) && s'.callers == Notified(s.cond, s.callers, wake)
    requires s'.signallers == s.signallers - gone && s'.threads == s.threads
    requires s'.open == s.open && s'.queue == s.queue && Room(s') == Room(s) && s'.lock == s.lock
    ensures NothingStranded(s')
  {
    SignalSums(s, wake);
    assert Seeking(s.lock, s.callers, s.threads) ==> Seeking(s.lock, s'.callers, s.threads);
  }

  lemma LateSignalSpare(s: State, s': State, wake: Option<CallerId>)
    requires LockInv(s.lock, s.callers, s.threads, s.purge, s.admin) && NothingStranded(s)
    requires SignalsLate(s, s', wake)
    ensures NothingStranded(s')
  {
    SignalSpare(s, s', wake, 1);
  }

  lemma AnnounceSpare(s: State, s': State, w: WorkerId, wake: Option<CallerId>)
    requires LockInv(s.lock, s.callers, s.threads, s.purge, s.admin) && NothingStranded(s)
    requires Announces(s, s', w, wake)
    ensures NothingStranded(s')
  {
    SignalSums(s, wake);
    SumPut(s.threads, w, Recv, RetiredWeight);
  }

  /** A broadcast leaves nobody waiting in the new generation. */
  lemma BroadcastSpare(s: State, s': State)
    requires CondInv(s.cond, s.callers) && NothingStranded(s)
    requires s'.cond == Broadcasted(s.cond) && s'.callers == s.callers && s'.open == s.open
    requires s.cond.parked == 0 ==> s'.queue == s.queue && Room(s') == Room(s)
    ensures NothingStranded(s')
  {
    hide CondInv;
    BroadcastLeavesNobody(s);
  }

  lemma BroadcastLeavesNobody(s: State)
    requires CondInv(s.cond, s.callers)
    ensures !Waiting(s.open, Broadcasted(s.cond), s.callers)
  {
    if s.cond.parked > 0 {
      SumZero(s.callers, CurrentWeight(s.cond.generation + 1));
    }
  }

  lemma WorkersSpare(s: State, e: Event, s': State)
    requires Inv(s) && NothingStranded(s) && WorkerEvent(s, e, s')
    ensures NothingStranded(s')
  {
    hide LockInv, LiveInv, CondInv, WaitInv, LimitInv, CustodyInv, RegistryInv, CapacityInv, TaskInv, WakeInv, ResetInv, PurgeInv, TickInv, LatchInv, NothingStranded;
    hide WorkerMoves, Receives, Completes, WorkerTakesLock, IsRefused, Inserts, Announces, Retires, ClosesLatch, Recycles, SignalsLate;
    if e.WorkerMove? {
      WorkerMoveSpare(s, s', e.w, e.now);
    } else if e.Complete? {
      CompleteSpare(s, s', e.w, e.panics);
    } else if e.GiveUp? {
      BroadcastSpare(s, s');
    } else if e.InsertWorker? {
      InsertSpare(s, s', e.w);
    } else if e.Announce? {
      AnnounceSpare(s, s', e.w, e.wake);
    } else if e.Retire? {
      RetireSpare(s, s', e.w);
    } else if e.RecycleWorker? {
      RecycleSpare(s, s', e.w);
    } else if e.LateSignal? {
      LateSignalSpare(s, s', e.wake);
    } else if e.Receive? {
      ReceiveSpare(s, s', e.w);
    } else if e.WorkerLock? {
      WorkerLockSpare(s, s', e.w);
    } else if e.Refuse? {
      RefuseSpare(s, s', e.w);
    } else {
      CloseLatchSpare(s, s', e.w);
    }
  }

  // ----- The purge thread and tune -------------------------------------------------------------

  lemma ServicesSpare(s: State, e: Event, s': State)
    requires Inv(s) && NothingStranded(s) && ServiceEvent(s, e, s')
    ensures NothingStranded(s')
  {
    hide LiveInv, WaitInv, LimitInv, CustodyInv, RegistryInv, CapacityInv, TaskInv, WakeInv, ResetInv, PurgeInv, TickInv, LatchInv;
    if e.PurgeBroadcast? {
      hide NothingStranded, LockInv;
      BroadcastSpare(s, s');
    } else {
      hide CondInv, OnlyShrinks;
      ServicesOnlyShrink(s, e, s');
      FewerIdleSpare(s, s');
    }
  }

  /** All other steps of the service threads at most take idle workers away. */
  ghost predicate OnlyShrinks(s: State, s': State) {
    && s'.cond == s.cond && s'.callers == s.callers && s'.threads == s.threads && s'.signallers == s.signallers
    && s'.open == s.open && |s'.queue| <= |s.queue| && Room(s') == Room(s)
    && (s'.lock == s.lock || s.lock == None || s.lock == Some(ByPurge))
  }

  lemma ServicesOnlyShrink(s: State, e: Event, s': State)
    requires LockInv(s.lock, s.callers, s.threads, s.purge, s.admin)
    requires ServiceEvent(s, e, s') && !e.PurgeBroadcast?
    ensures OnlyShrinks(s, s')
  {
    hide Refreshes, Expired, Handed, Sent;
    if e.RefreshQueue? {
      RefreshOnlyShrinks(s, s', e.split, e.expiry);
    }
  }

  lemma RefreshOnlyShrinks(s: State, s': State, split: nat, expiry: int)
    requires Refreshes(s, s', split, expiry)
    ensures OnlyShrinks(s, s')
  {
    hide Expired, Handed;
  }

  lemma FewerIdleSpare(s: State, s': State)
    requires NothingStranded(s) && OnlyShrinks(s, s')
    ensures NothingStranded(s')
  {
  }

  lemma TunersSpare(s: State, e: Event, s': State)
    requires Inv(s) && NothingStranded(s) && TuneEvent(s, e, s') && !e.StoreCapacity?
    ensures NothingStranded(s')
  {
    hide LockInv, LiveInv, CondInv, WaitInv, LimitInv, CustodyInv, RegistryInv, CapacityInv, TaskInv, WakeInv, ResetInv, PurgeInv, TickInv, LatchInv;
    if e.TuneBroadcast? {
      hide NothingStranded;
      BroadcastSpare(s, s');
    } else if e.TuneSignalEvent? {
      hide NothingStranded, MayNotify, Notified;
      SignalSpare(s, s', e.wake, 0);
    }
  }

  // ----- Whole runs ----------------------------------------------------------------------------

  lemma SpareStep(s: State, e: Event, s': State)
    requires Inv(s) && s.admin.AIdle? && s.capacity != -1 && Current(s) && NothingStranded(s)
    requires Step(s, e, s') && !e.StoreCapacity? && !e.Close? && (e.Park? ==> ParkFits(s))
    ensures NothingStranded(s')
  {
    hide NothingStranded, Current, ParkFits, CallerEvent, WorkerEvent, ServiceEvent, AdminEvent, TuneEvent;
    hide LockInv, LiveInv, CondInv, WaitInv, LimitInv, CustodyInv, RegistryInv, CapacityInv, TaskInv, WakeInv, PurgeInv, TickInv, LatchInv;
    if CallerEvent(s, e, s') {
      CallersSpare(s, e, s');
    } else if WorkerEvent(s, e, s') {
      WorkersSpare(s, e, s');
    } else if ServiceEvent(s, e, s') {
      ServicesSpare(s, e, s');
    } else if AdminEvent(s, e, s') {
      AdminsTouch(s, e, s');
    } else {
      TunersSpare(s, e, s');
    }
  }

  /** In service since its creation, with the capacity it was created with. */
  ghost predicate Serving(cfg: Config, s: State) {
    s.cfg == cfg && s.admin.AIdle? && s.capacity == cfg.size && Current(s)
  }

  lemma StaysInService(s: State, e: Event, s': State)
    requires Step(s, e, s') && s.admin.AIdle? && !e.Close?
    ensures s'.admin.AIdle?
  {
    hide CallerEvent, WorkerEvent, ServiceEvent, AdminEvent, TuneEvent;
    if CallerEvent(s, e, s') {
      CallersTouch(s, e, s');
    } else if WorkerEvent(s, e, s') {
      WorkersTouch(s, e, s');
    } else if ServiceEvent(s, e, s') {
      ServicesTouch(s, e, s');
    } else if AdminEvent(s, e, s') {
      AdminsTouch(s, e, s');
    } else {
      TunersTouch(s, e, s');
    }
  }

  lemma ServingStep(cfg: Config, s: State, e: Event, s': State)
    requires Step(s, e, s') && Serving(cfg, s) && !e.StoreCapacity? && !e.Close?
    ensures Serving(cfg, s')
  {
    hide Step;
    StaysInService(s, e, s');
    StepSized(s, e, s');
    StepStart(s, e, s');
    forall c | c in s'.callers && (s'.callers[c].Sized? || s'.callers[c].Spawning? || s'.callers[c].Fetched?)
      ensures s'.callers[c].cap == s.capacity
    {
      StepFollows(s, e, s', c);
    }
  }

  /** No caller registers to find more room than wake-ups under way. */
  ghost predicate ParksFit(states: seq<State>, events: seq<Event>, j: nat)
    requires |states| == |events| + 1 && j <= |events|
  {
    forall i :: 0 <= i < j && events[i].Park? ==> ParkFits(states[i])
  }

  lemma {:induction false} SpareRun(cfg: Config, states: seq<State>, events: seq<Event>, j: nat)
    requires IsPoolRun(cfg, states, events) && j < |states| && cfg.size != -1
    requires forall i :: 0 <= i < j ==> !events[i].StoreCapacity? && !events[i].Close?
    ensures Inv(states[j]) && Serving(cfg, states[j])
    ensures ParksFit(states, events, j) ==> NothingStranded(states[j])
    decreases j
  {
    hide Step, Inv, NothingStranded, ParkFits, Current;
    if j == 0 {
      InitialInv(cfg);
      InitiallyServing(cfg);
    } else {
      SpareRun(cfg, states, events, j - 1);
      ServingStep(cfg, states[j - 1], events[j - 1], states[j]);
      StepKeeps(states[j - 1], events[j - 1], states[j]);
      if ParksFit(states, events, j) {
        SpareStep(states[j - 1], events[j - 1], states[j]);
      }
    }
  }

  lemma InitiallyServing(cfg: Config)
    ensures Serving(cfg, Initial(cfg)) && NothingStranded(Initial(cfg))
  {
  }

  lemma ParkIsStep(s: State, e: Event, s': State)
    requires Step(s, e, s') && e.Park?
    ensures Parks(s, s', e.c)
  {
    hide Parks;
  }

  /** Over every run of a limited pool in which `tune` takes no effect and `release` is not called:
      idle workers and room stay outnumbered by the wake-ups under way, in every state, if and only
      if every caller that registered to wait found no more room than wake-ups. */
  lemma NothingIsStrandedExactly(cfg: Config, states: seq<State>, events: seq<Event>, j: nat)
    requires IsPoolRun(cfg, states, events) && j < |states| && cfg.size != -1
    requires forall i :: 0 <= i < j ==> !events[i].StoreCapacity? && !events[i].Close?
    ensures ParksFit(states, events, j) <==> forall i :: 0 <= i <= j ==> NothingStranded(states[i])
  {
    hide Step, NothingStranded, ParkFits, Serving, LockInv, LiveInv, WaitInv, LimitInv, CustodyInv, RegistryInv, CapacityInv, TaskInv, PurgeInv, TickInv, LatchInv, CondInv, WakeInv;
    if ParksFit(states, events, j) {
      forall i | 0 <= i <= j ensures NothingStranded(states[i]) {
        SpareRun(cfg, states, events, i);
      }
    }
    if forall i :: 0 <= i <= j ==> NothingStranded(states[i]) {
      forall i | 0 <= i < j && events[i].Park? ensures ParkFits(states[i]) {
        SpareRun(cfg, states, events, i);
        ServingIsOpen(cfg, states[i]);
        ParkIsStep(states[i], events[i], states[i + 1]);
        ParkSpare(states[i], states[i + 1], events[i].c);
      }
    }
  }

  lemma ServingIsOpen(cfg: Config, s: State)
    requires Inv(s) && Serving(cfg, s)
    ensures s.open
  {
    hide LockInv, LiveInv, WaitInv, LimitInv, CustodyInv, RegistryInv, CapacityInv, TaskInv, PurgeInv, TickInv, LatchInv, CondInv, WakeInv;
  }

  lemma UnderWayCounts(s: State)
    ensures UnderWay(s.cond, s.callers, s.threads, s.signallers)
         == s.cond.tokens + |Where(s.callers, IsWoken)| + s.signallers + |Where(s.threads, Retired)|
  {
    SumCounts(s.callers, WokenWeight, IsWoken);
    SumCounts(s.threads, RetiredWeight, Retired);
  }

  /** The bound in numbers: with the lock free, idle workers and room together are at most the tokens,
      the callers already woken, the late signals and the workers that will still send one. */
  lemma RoomIsOutnumbered(s: State, c: CallerId)
    requires NothingStranded(s) && s.open && s.lock == None && s.cond.parked > s.cond.tokens
    requires c in s.callers && s.callers[c].Parked? && s.callers[c].since == s.cond.generation
    ensures |s.queue| + (s.capacity - s.running)
         <= s.cond.tokens + |Where(s.callers, IsWoken)| + s.signallers + |Where(s.threads, Retired)|
  {
    SumAtLeast(s.callers, c, CurrentWeight(s.cond.generation));
    UnderWayCounts(s);
  }

  /** Whatever came before, a registration leaves an open pool within that bound exactly if it finds
      no more room than wake-ups under way. */
  lemma RegistrationStrandsExactly(s: State, s': State, c: CallerId)
    requires Reachable(s) && s.open && Parks(s, s', c)
    ensures NothingStranded(s') <==>
      s.capacity - s.running <= s.cond.tokens + |Where(s.callers, IsWoken)| + s.signallers + |Where(s.threads, Retired)|
  {
    hide Reachable, Parks, NothingStranded, LockInv, LiveInv, WaitInv, LimitInv, CustodyInv, RegistryInv, CapacityInv, TaskInv, PurgeInv, TickInv, LatchInv, CondInv, WakeInv;
    ReachableInv(s);
    ParkSpare(s, s', c);
    UnderWayCounts(s);
  }

  /** Has never been refused for lack of room and never will be. */
  predicate Unblocked(p: Caller) {
    !(p.Full? || p.Queuing? || p.Parked? || p.Woken? || p.Relocked? || p.Uncounted? || p == Rejected(PoolOverload))
  }

  /** A pool without a capacity never blocks a caller and never turns one away with `PoolOverload`. */
  lemma {:induction false} UnlimitedNeverBlocks(cfg: Config, states: seq<State>, events: seq<Event>, j: nat, c: CallerId)
    requires IsPoolRun(cfg, states, events) && j < |states| && cfg.size == -1
    requires c in states[j].callers
    ensures Unblocked(states[j].callers[c])
    decreases j
  {
    hide Step, LockInv, LiveInv, WaitInv, LimitInv, CustodyInv, RegistryInv, CapacityInv, TaskInv, PurgeInv, TickInv, LatchInv, CondInv, WakeInv;
    if j > 0 {
      StepStart(states[j - 1], events[j - 1], states[j]);
      if c in states[j - 1].callers {
        UnlimitedNeverBlocks(cfg, states, events, j - 1, c);
        InitialInv(cfg);
        RunKeeps(states, events, 0, j - 1);
        SameConfig(cfg, states, events, j - 1);
        UnlimitedStep(states[j - 1], events[j - 1], states[j], c);
      }
    }
  }

  lemma {:induction false} SameConfig(cfg: Config, states: seq<State>, events: seq<Event>, j: nat)
    requires IsPoolRun(cfg, states, events) && j < |states|
    ensures states[j].cfg == cfg
    decreases j
  {
    hide Step;
    if j > 0 {
      SameConfig(cfg, states, events, j - 1);
      StepSized(states[j - 1], events[j - 1], states[j]);
    }
  }

  lemma UnlimitedStep(s: State, e: Event, s': State, c: CallerId)
    requires CapacityInv(s.cfg, s.capacity, s.running, s.peak, s.callers, s.tuners) && s.cfg.size == -1
    requires Step(s, e, s') && c in s.callers && Unblocked(s.callers[c])
    ensures c in s'.callers && Unblocked(s'.callers[c])
  {
    hide Step;
    StepFollows(s, e, s', c);
  }

  /** What the bound says to a caller asleep: with the lock free and no wake-up of any kind under way,
      there is neither an idle worker nor room for a new one. */
  lemma SleepersFindThePoolFull(s: State, c: CallerId)
    requires Reachable(s) && NothingStranded(s) && s.open && s.lock == None
    requires c in s.callers && s.callers[c].Parked? && s.callers[c].since == s.cond.generation
    requires s.cond.tokens == 0 && s.signallers == 0
    requires forall d :: d in s.callers ==> !s.callers[d].Woken?
    requires forall w :: w in s.threads ==> !Retired(s.threads[w])
    ensures s.queue == [] && s.running >= s.capacity
  {
    hide Reachable, LockInv, LiveInv, WaitInv, LimitInv, CustodyInv, RegistryInv, CapacityInv, TaskInv, PurgeInv, TickInv, LatchInv, WakeInv;
    SleepersSeeAnEmptyQueue(s, c);
    ReachableInv(s);
    SumAtLeast(s.callers, c, CurrentWeight(s.cond.generation));
    SumAtLeast(s.callers, c, ParkedWeight);
    SumZero(s.callers, WokenWeight);
    SumZero(s.threads, RetiredWeight);
  }
}
