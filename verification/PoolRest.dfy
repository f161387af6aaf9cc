/** A closed pool comes to rest: every thread and every call that can still move does, and what is left
    are calls that have not gone for the lock and callers asleep in the wait. */
module PoolRest {
  import opened Wrappers
  import opened WorkerQueue
  import opened CondVar
  import opened Sums
  import opened PoolModel
  import opened PoolInvariant
  import opened PoolRuns
  import opened PoolOwnership
  import opened PoolDelivery
  import opened PoolWaiting
  import opened PoolClosing

  /** Progress that does not need a caller to go for the lock for the first time. */
  ghost predicate Advances(s: State, e: Event, s': State) {
    Progress(s, e, s') && !(e.CallerLock? && e.c in s.callers && s.callers[e.c].Ready?)
  }

  ghost predicate CanAdvance(s: State) {
    exists e, s' :: Advances(s, e, s')
  }

  /** Some progress is possible without a worker leaving `running`. */
  ghost predicate CanGather(s: State) {
    exists e, s' :: Advances(s, e, s') && !e.Retire?
  }

  /** Between its closed check and its return, unless it has not gone for the lock yet or is blocked. */
  predicate Busy(p: Caller, cond: Waiters) {
    if p.Parked? then MayLeave(cond, p.since)
    else !(p.Start? || p.Ready? || p.Accepted? || p.Rejected?)
  }

  /** Every worker thread is gone, its last signal included, and so are the service threads. */
  predicate Drained(s: State) {
    s.threads == map[] && s.signallers == 0 && s.purge.PGone? && s.tick.TGone?
  }

  /** `release` has come to its end too, and every call that went for the lock has returned or sleeps in
      the wait without a wake-up on its way. */
  ghost predicate AtRest(s: State) {
    Drained(s) && AdminRank(s.admin) == 0 && forall c :: c in s.callers ==> !Busy(s.callers[c], s.cond)
  }

  /** Every worker is about to leave `running`, and all else has come as far as at rest. */
  ghost predicate Gathered(s: State) {
    && (forall w :: w in s.threads ==> s.threads[w].Exit?) && s.signallers == 0 && s.purge.PGone? && s.tick.TGone?
    && AdminRank(s.admin) == 0 && forall c :: c in s.callers ==> !Busy(s.callers[c], s.cond)
  }

  ghost predicate CanWork(s: State) {
    exists e, s' :: Works(s, e, s')
  }

  ghost predicate CanToil(s: State) {
    exists e, s' :: Works(s, e, s') && !e.Retire?
  }

  lemma ToilIsGather(s: State)
    requires CanToil(s)
    ensures CanGather(s) && CanWork(s)
  {
    var e, s' :| Works(s, e, s') && !e.Retire?;
    NoCallerWorks(s, e, s');
    assert Advances(s, e, s');
  }

  lemma GatherIsAdvance(s: State)
    requires CanGather(s)
    ensures CanAdvance(s)
  {
    hide Advances;
  }

  lemma NoCallerWorks(s: State, e: Event, s': State)
    requires Works(s, e, s')
    ensures !e.CallerLock?
  {
  }

  lemma WorkerWorks(s: State, e: Event, s': State)
    requires WorkerEvent(s, e, s') && !e.Retire?
    ensures CanToil(s)
  {
    assert Works(s, e, s');
  }

  lemma ServiceWorks(s: State, e: Event, s': State)
    requires ServiceEvent(s, e, s')
    ensures CanToil(s)
  {
    NoServiceRetires(s, e, s');
    assert Works(s, e, s');
  }

  lemma NoServiceRetires(s: State, e: Event, s': State)
    requires ServiceEvent(s, e, s')
    ensures !e.Retire?
  {
  }

  lemma NoReleaseRetires(s: State, e: Event, s': State)
    requires AdminEvent(s, e, s')
    ensures !e.Retire?
  {
  }

  lemma NoCallerRetires(s: State, e: Event, s': State)
    requires CallerEvent(s, e, s')
    ensures !e.Retire?
  {
  }

  /** A worker at its decrement can always take it. */
  lemma RetirerCanWork(s: State, w: WorkerId)
    requires w in s.threads && s.threads[w].Exit?
    ensures CanWork(s) && CanAdvance(s)
  {
    var s' := s.(threads := s.threads[w := EpilogueFrom(s.running - 1)], running := s.running - 1);
    assert WorkerEvent(s, Retire(w), s');
    hide WorkerEvent, CallerEvent, ServiceEvent, AdminEvent;
    assert Works(s, Retire(w), s');
    assert Advances(s, Retire(w), s');
  }

  lemma ReleaseAdvances(s: State, e: Event, s': State)
    requires AdminEvent(s, e, s') && AdminRank(s.admin) > 0
    ensures CanGather(s)
  {
    NoReleaseRetires(s, e, s');
    assert Advances(s, e, s');
  }

  lemma CallerAdvances(s: State, e: Event, s': State)
    requires CallerEvent(s, e, s') && Counted(s, e) && !(e.CallerLock? && e.c in s.callers && s.callers[e.c].Ready?)
    ensures CanGather(s)
  {
    NoCallerRetires(s, e, s');
    assert Advances(s, e, s');
  }

  // ----- Workers -------------------------------------------------------------------------------

  lemma SomebodyToNotify(s: State) returns (wake: Option<CallerId>)
    ensures MayNotify(s.cond, s.callers, wake)
  {
    if SignalCounts(s.cond) && exists c :: c in s.callers && Asleep(s.callers[c], s.cond.generation) {
      var c :| c in s.callers && Asleep(s.callers[c], s.cond.generation);
      wake := Some(c);
    } else {
      wake := None;
    }
  }

  lemma ReaderCanToil(s: State, w: WorkerId)
    requires w in s.threads && WorkerReads(s.threads[w], s)
    ensures CanToil(s)
  {
    WorkerWorks(s, WorkerMove(w, 0), s.(threads := s.threads[w := WorkerGoes(s.threads[w], s, 0)]));
  }

  /** A worker that waits neither for a message nor for the lock can go on. */
  lemma BusyWorkerCanToil(s: State, w: WorkerId)
    requires !s.open && w in s.threads && !s.threads[w].Recv? && !s.threads[w].RevLock? && !s.threads[w].Exit?
    ensures CanToil(s)
  {
    hide CanToil;
    match s.threads[w]
    case Run(c) =>
      WorkerWorks(s, Complete(w, false), s.(threads := s.threads[w := if c in s.stops then Exit else RevCap],
                                               finished := s.finished + multiset{c}));
    case RevBcast => WorkerWorks(s, GiveUp(w), s.(threads := s.threads[w := Exit], cond := Broadcasted(s.cond)));
    case RevCheck(_) => WorkerWorks(s, Refuse(w), s.(threads := s.threads[w := Exit], lock := None));
    case RevInsert(stamp) => InserterCanToil(s, w);
    case RevSignal => AnnouncerCanToil(s, w);
    case ExitClose(latch) =>
      WorkerWorks(s, CloseLatch(w), s.(threads := s.threads[w := Recycle], closed := s.closed + {latch}));
    case Recycle =>
      WorkerWorks(s, RecycleWorker(w), s.(threads := s.threads - {w}, cache := s.cache + [w],
                                             signallers := s.signallers + 1));
    case RevCap => ReaderCanToil(s, w);
    case RevRun(_) => ReaderCanToil(s, w);
    case RevClosed => ReaderCanToil(s, w);
    case RevStamp => ReaderCanToil(s, w);
    case ExitZero => ReaderCanToil(s, w);
    case ExitLoad => ReaderCanToil(s, w);
  }

  lemma InserterCanToil(s: State, w: WorkerId)
    requires w in s.threads && s.threads[w].RevInsert?
    ensures CanToil(s)
  {
    hide CanToil;
    if WorkerQueue.Full(KindOf(s.cfg), s.queue) {
      WorkerWorks(s, Refuse(w), s.(threads := s.threads[w := Exit], lock := None));
    } else {
      WorkerWorks(s, InsertWorker(w),
        s.(threads := s.threads[w := RevSignal],
           queue := Inserted(KindOf(s.cfg), s.queue, Worker(w, s.threads[w].stamp))));
    }
  }

  lemma AnnouncerCanToil(s: State, w: WorkerId)
    requires w in s.threads && s.threads[w].RevSignal?
    ensures CanToil(s)
  {
    hide CanToil, MayNotify;
    var wake := SomebodyToNotify(s);
    WorkerWorks(s, Announce(w, wake),
      s.(threads := s.threads[w := Recv], lock := None,
         cond := Signalled(s.cond), callers := Notified(s.cond, s.callers, wake)));
  }

  lemma SignallerCanToil(s: State)
    requires s.signallers > 0
    ensures CanToil(s)
  {
    hide CanToil, MayNotify;
    var wake := SomebodyToNotify(s);
    WorkerWorks(s, LateSignal(wake), s.(signallers := s.signallers - 1, cond := Signalled(s.cond),
                                           callers := Notified(s.cond, s.callers, wake)));
  }

  lemma MailCanToil(s: State, w: WorkerId)
    requires w in s.threads && s.threads[w].Recv? && w in s.chan && s.chan[w] != []
    ensures CanToil(s)
  {
    var m := s.chan[w][0];
    WorkerWorks(s, Receive(w), s.(threads := s.threads[w := Heeds(m)],
                                     chan := s.chan[w := s.chan[w][1..]]));
  }

  lemma LockingWorkerCanToil(s: State, w: WorkerId)
    requires w in s.threads && s.threads[w].RevLock? && s.lock == None
    ensures CanToil(s)
  {
    WorkerWorks(s, WorkerLock(w), s.(threads := s.threads[w := RevCheck(s.threads[w].stamp)], lock := Some(ByWorker(w))));
  }

  // ----- Service threads -----------------------------------------------------------------------

  lemma TickCanToil(s: State)
    requires !s.tick.TGone?
    ensures CanToil(s)
  {
    if s.tick.TWait? {
      ServiceWorks(s, TickMove, s.(tick := if s.tickCancelled || !s.open then TLeaving else TWait));
    } else {
      ServiceWorks(s, TickLeave, s.(tick := TGone, tickDone := true));
    }
  }

  lemma PurgeReaderCanToil(s: State)
    requires PurgeReads(s.purge)
    ensures CanToil(s)
  {
    ServiceWorks(s, PurgeMove, s.(purge := PurgeGoes(s.purge, s)));
  }

  lemma RefresherCanToil(s: State)
    requires s.purge.PRefreshing?
    ensures CanToil(s)
  {
    var k := Expired(KindOf(s.cfg), s.queue, 0);
    ServiceWorks(s, RefreshQueue(0, 0), s.(purge := PCounting(Handed(s.queue, k, 0)), queue := s.queue[k..]));
  }

  lemma PurgeCanToil(s: State)
    requires !s.purge.PGone? && (s.purge.PLocking? ==> s.lock == None)
    requires s.purge.PFinishing? && s.purge.stale != [] ==> CanSend(s.chan, s.purge.stale[0].id)
    ensures CanToil(s)
  {
    hide CanToil;
    match s.purge
    case PWait => PurgeReaderCanToil(s);
    case PChecking => PurgeReaderCanToil(s);
    case PLocking => ServiceWorks(s, PurgeLock, s.(purge := PRefreshing, lock := Some(ByPurge)));
    case PRefreshing => RefresherCanToil(s);
    case PCounting(stale) =>
      ServiceWorks(s, PurgeCount,
        s.(purge := PFinishing(stale, s.running == 0 || s.running == |stale|), lock := None));
    case PFinishing(stale, dormant) =>
      if stale == [] {
        PurgeReaderCanToil(s);
      } else {
        ServiceWorks(s, PurgeFinish, s.(purge := PFinishing(stale[1..], dormant), chan := Sent(s.chan, stale[0].id, Finish)));
      }
    case PBroadcasting => ServiceWorks(s, PurgeBroadcast, s.(purge := PWait, cond := Broadcasted(s.cond)));
    case PLeaving => ServiceWorks(s, PurgeLeave, s.(purge := PGone, purgeDone := true));
  }

  // ----- release -------------------------------------------------------------------------------

  lemma ResetCanGather(s: State)
    requires s.admin.AResetting? && (s.queue != [] ==> CanSend(s.chan, s.queue[0].id))
    ensures CanGather(s)
  {
    hide CanGather;
    if s.queue == [] {
      ReleaseAdvances(s, ResetEnd, s.(admin := AWaking, lock := None));
    } else {
      ReleaseAdvances(s, ResetOne, s.(queue := s.queue[1..], chan := Sent(s.chan, s.queue[0].id, Finish)));
    }
  }

  lemma ReleaseCanGather(s: State)
    requires AdminRank(s.admin) > 0 && (s.admin.AResetLock? ==> s.lock == None)
    requires s.admin.AResetting? && s.queue != [] ==> CanSend(s.chan, s.queue[0].id)
    ensures CanGather(s)
  {
    hide CanGather;
    match s.admin
    case AStopPurge => ReleaseAdvances(s, CancelPurge, s.(admin := AStopTick, purgeCancelled := true));
    case AStopTick => ReleaseAdvances(s, CancelTick, s.(admin := AResetLock, tickCancelled := true));
    case AResetLock => ReleaseAdvances(s, ResetLock, s.(admin := AResetting, lock := Some(ByAdmin)));
    case AResetting => ResetCanGather(s);
    case AWaking => ReleaseAdvances(s, ReleaseBroadcast, s.(admin := AZero, cond := Broadcasted(s.cond)));
    case AZero => ReleaseAdvances(s, AdminMove(true), s.(admin := if s.running == 0 then AClosing else AReleased));
    case AClosing => ReleaseAdvances(s, ReleaseLatch, s.(admin := AReleased, closed := s.closed + {s.latch}));
  }

  // ----- Callers -------------------------------------------------------------------------------

  lemma LoopCanGather(s: State, c: CallerId)
    requires c in s.callers && (s.callers[c].Loop? || s.callers[c].Empty? || s.callers[c].Sized?)
    ensures CanGather(s)
  {
    hide CanGather;
    if s.callers[c].Loop? && s.queue != [] {
      CallerAdvances(s, DetachWorker(c),
        s.(callers := s.callers[c := Holding(Next(KindOf(s.cfg), s.queue).id)],
           queue := Detached(KindOf(s.cfg), s.queue), lock := None));
    } else {
      CallerAdvances(s, CallerMove(c), s.(callers := s.callers[c := CallerGoes(s.callers[c], s)]));
    }
  }

  lemma SpawnerCanGather(s: State, c: CallerId)
    requires c in s.callers && (s.callers[c].Spawning? || s.callers[c].Fetched?)
    ensures CanGather(s)
  {
    hide CanGather;
    if s.callers[c].Spawning? {
      var w := if s.cache != [] then s.cache[|s.cache| - 1] else s.made;
      CallerAdvances(s, Fetch(c),
        s.(callers := s.callers[c := Fetched(s.callers[c].cap, w)],
           cache := if s.cache != [] then s.cache[..|s.cache| - 1] else [],
           made := if s.cache != [] then s.made else s.made + 1));
    } else {
      var w := s.callers[c].w;
      CallerAdvances(s, Spawn(c), s.(callers := s.callers[c := Holding(w)], threads := s.threads[w := Recv],
                                     running := s.running + 1, lock := None));
    }
  }

  lemma FullCanGather(s: State, c: CallerId)
    requires c in s.callers && (s.callers[c].Full? || s.callers[c].Queuing?)
    ensures CanGather(s)
  {
    hide CanGather;
    if s.callers[c].Queuing? {
      CallerAdvances(s, Park(c), s.(callers := s.callers[c := Parked(s.cond.generation, true)],
                                    cond := Registered(s.cond), lock := None));
    } else if Overloaded(s) {
      CallerAdvances(s, Bail(c), s.(callers := s.callers[c := Rejected(PoolOverload)], lock := None));
    } else {
      CallerAdvances(s, Queue(c), s.(callers := s.callers[c := Queuing], waiting := s.waiting + 1));
    }
  }

  lemma BackCanGather(s: State, c: CallerId)
    requires c in s.callers && (s.callers[c].Relocked? || s.callers[c].Uncounted?)
    ensures CanGather(s)
  {
    hide CanGather;
    if s.callers[c].Relocked? {
      CallerAdvances(s, Uncount(c), s.(callers := s.callers[c := Uncounted], waiting := s.waiting - 1));
    } else {
      CallerAdvances(s, Resume(c), s.(callers := s.callers[c := if s.open then Loop(true) else Rejected(PoolClosed)],
                                      lock := if s.open then s.lock else None));
    }
  }

  /** A caller that holds the lock can always go on. */
  lemma LockingCallerCanGather(s: State, c: CallerId)
    requires c in s.callers && CallerLocks(s.callers[c])
    ensures CanGather(s)
  {
    hide CanGather;
    var p := s.callers[c];
    if p.Loop? || p.Empty? || p.Sized? {
      LoopCanGather(s, c);
    } else if p.Spawning? || p.Fetched? {
      SpawnerCanGather(s, c);
    } else if p.Full? || p.Queuing? {
      FullCanGather(s, c);
    } else {
      BackCanGather(s, c);
    }
  }

  lemma HolderCanGather(s: State, c: CallerId)
    requires c in s.callers && s.callers[c].Holding? && CanSend(s.chan, s.callers[c].w)
    ensures CanGather(s)
  {
    CallerAdvances(s, Deliver(c), s.(callers := s.callers[c := Accepted(s.callers[c].w)],
                                     chan := Sent(s.chan, s.callers[c].w, Payload(c))));
  }

  lemma WokenCanGather(s: State, c: CallerId)
    requires c in s.callers && s.callers[c].Woken? && s.lock == None
    ensures CanGather(s)
  {
    CallerAdvances(s, CallerLock(c), s.(callers := s.callers[c := Relocked], lock := Some(ByCaller(c))));
  }

  lemma LeaverCanGather(s: State, c: CallerId, s': State)
    requires Leaves(s, s', c)
    ensures CanGather(s)
  {
    CallerAdvances(s, Leave(c), s');
  }

  lemma ParkedCanGather(s: State, c: CallerId)
    requires Reachable(s) && c in s.callers && s.callers[c].Parked? && MayLeave(s.cond, s.callers[c].since)
    ensures CanGather(s)
  {
    hide Reachable, CanGather, Leaves, LockInv, LiveInv, WaitInv, LimitInv, CustodyInv, RegistryInv, CapacityInv, TaskInv, WakeInv, ResetInv, PurgeInv, TickInv, LatchInv;
    if s.cond.tokens > 0 {
      TokensAreTaken(s);
      var d, s' :| Leaves(s, s', d);
      LeaverCanGather(s, d, s');
    } else {
      ReachableInv(s);
      ReleasedWaiterCanLeave(s, c);
      var s' :| Leaves(s, s', c);
      LeaverCanGather(s, c, s');
    }
  }

  // ----- Nobody is stuck -----------------------------------------------------------------------

  /** Whoever holds the lock of a closed pool can go on. */
  lemma LockHolderCanGather(s: State)
    requires LockInv(s.lock, s.callers, s.threads, s.purge, s.admin)
    requires !s.open && s.lock != None
    requires s.admin.AResetting? && s.queue != [] ==> CanSend(s.chan, s.queue[0].id)
    ensures CanGather(s)
  {
    hide CanGather, CanToil;
    match s.lock.value
    case ByWorker(w) =>
      BusyWorkerCanToil(s, w);
      ToilIsGather(s);
    case ByCaller(c) => LockingCallerCanGather(s, c);
    case ByPurge =>
      PurgeCanToil(s);
      ToilIsGather(s);
    case ByAdmin => ReleaseCanGather(s);
  }

  /** A worker that waits for a message once the queue and the purge list are gone has one, or a caller
      is about to send it. */
  lemma WaitingWorkerCanGather(s: State, w: WorkerId)
    requires CustodyInv(s.queue, s.callers, s.chan, s.purge, s.threads)
    requires s.queue == [] && s.purge.PGone? && w in s.threads && s.threads[w].Recv?
    requires forall c :: c in s.callers && s.callers[c].Holding? ==> CanSend(s.chan, s.callers[c].w)
    ensures CanGather(s)
  {
    hide CanGather;
    assert Custody(s.queue, s.callers, s.chan, s.purge, w) == 1;
    if Sum(s.callers, HoldsWeight(w)) > 0 {
      var c := SumPositive(s.callers, HoldsWeight(w));
      HolderCanGather(s, c);
    } else {
      MailCanToil(s, w);
      ToilIsGather(s);
    }
  }

  lemma ThreadCanGather(s: State, w: WorkerId)
    requires CustodyInv(s.queue, s.callers, s.chan, s.purge, s.threads)
    requires s.queue == [] && s.purge.PGone? && !s.open && s.lock == None && w in s.threads && !s.threads[w].Exit?
    requires forall c :: c in s.callers && s.callers[c].Holding? ==> CanSend(s.chan, s.callers[c].w)
    ensures CanGather(s)
  {
    hide CanGather, CanToil, CustodyInv;
    if s.threads[w].Recv? {
      WaitingWorkerCanGather(s, w);
    } else if s.threads[w].RevLock? {
      LockingWorkerCanToil(s, w);
      ToilIsGather(s);
    } else {
      BusyWorkerCanToil(s, w);
      ToilIsGather(s);
    }
  }

  lemma BusyCallerCanGather(s: State, c: CallerId)
    requires Reachable(s) && s.lock == None && c in s.callers && Busy(s.callers[c], s.cond)
    ensures CanGather(s)
  {
    hide Reachable, CanGather;
    SendsNeverBlock(s);
    var p := s.callers[c];
    if p.Parked? {
      ParkedCanGather(s, c);
    } else if p.Woken? {
      WokenCanGather(s, c);
    } else if p.Holding? {
      HolderCanGather(s, c);
    } else {
      LockingCallerCanGather(s, c);
    }
  }

  lemma ClosedParts(s: State)
    requires Inv(s) && !s.open
    ensures LockInv(s.lock, s.callers, s.threads, s.purge, s.admin)
    ensures CustodyInv(s.queue, s.callers, s.chan, s.purge, s.threads)
    ensures AdminRank(s.admin) == 0 ==> s.queue == []
  {
    hide LockInv, LiveInv, CondInv, WaitInv, LimitInv, CustodyInv, RegistryInv, CapacityInv, TaskInv, WakeInv, PurgeInv, TickInv, LatchInv;
  }

  /** As long as something else is left to do, no worker need leave `running`. */
  lemma GatheringIsNotStuck(s: State)
    requires Reachable(s) && !s.open && !Gathered(s)
    ensures CanGather(s)
  {
    hide Reachable, CanGather, CanToil, CanWork, Busy, Inv, LockInv, CustodyInv, AdminRank;
    ReachableInv(s);
    ClosedParts(s);
    SendsNeverBlock(s);
    if s.lock != None {
      LockHolderCanGather(s);
    } else if !s.tick.TGone? {
      TickCanToil(s);
      ToilIsGather(s);
    } else if !s.purge.PGone? {
      PurgeCanToil(s);
      ToilIsGather(s);
    } else if AdminRank(s.admin) > 0 {
      ReleaseCanGather(s);
    } else if s.signallers > 0 {
      SignallerCanToil(s);
      ToilIsGather(s);
    } else if w :| w in s.threads && !s.threads[w].Exit? {
      ThreadCanGather(s, w);
    } else {
      var c :| c in s.callers && Busy(s.callers[c], s.cond);
      BusyCallerCanGather(s, c);
    }
  }

  /** As long as a closed pool is not at rest, some worker or service thread, `release`, or a call that
      has got the lock before can take a step that is progress. */
  lemma ClosedPoolIsNotStuck(s: State)
    requires Reachable(s) && !s.open && !AtRest(s)
    ensures CanAdvance(s)
  {
    hide Reachable, CanGather, CanAdvance, CanWork, Busy;
    if Gathered(s) {
      var w :| w in s.threads;
      RetirerCanWork(s, w);
    } else {
      GatheringIsNotStuck(s);
      GatherIsAdvance(s);
    }
  }

  // ----- The run to rest -----------------------------------------------------------------------

  lemma AdvanceIsStep(s: State, e: Event, s': State)
    requires Inv(s) && !s.open && Advances(s, e, s')
    ensures Step(s, e, s') && !e.Reopen?
  {
    hide LockInv, LiveInv, CondInv, WaitInv, LimitInv, CustodyInv, RegistryInv, CapacityInv, TaskInv, WakeInv, PurgeInv, TickInv, LatchInv;
    hide CallerEvent, WorkerEvent, ServiceEvent;
    NotReopening(s, e, s');
  }

  lemma NotReopening(s: State, e: Event, s': State)
    requires Advances(s, e, s')
    ensures !e.Reopen?
  {
  }

  /** A caller that has not gone for the lock yet is left where it is. */
  lemma RetrievalLeavesReady(s: State, e: Event, s': State, c: CallerId)
    requires CallerEvent(s, e, s') && c in s.callers && s.callers[c].Ready?
    requires !(e.CallerLock? && e.c in s.callers && s.callers[e.c].Ready?)
    requires e.Submit? || e.CallerMove? || e.CallerLock? || e.DetachWorker? || e.Fetch? || e.Spawn? || e.Bail?
    ensures c in s'.callers && s'.callers[c].Ready?
  {
  }

  lemma WaitLeavesReady(s: State, e: Event, s': State, c: CallerId)
    requires CallerEvent(s, e, s') && c in s.callers && s.callers[c].Ready?
    requires e.Queue? || e.Park? || e.Sleep? || e.Leave? || e.Uncount? || e.Resume? || e.Deliver? || e.Spurious?
    ensures c in s'.callers && s'.callers[c].Ready?
  {
  }

  lemma NotifiedLeavesReady(s: State, s': State, c: CallerId)
    requires OnlyNotifies(s, s') && c in s.callers && s.callers[c].Ready?
    ensures c in s'.callers && s'.callers[c].Ready?
  {
  }

  lemma AdvanceLeavesReady(s: State, e: Event, s': State, c: CallerId)
    requires Advances(s, e, s') && c in s.callers && s.callers[c].Ready?
    ensures c in s'.callers && s'.callers[c].Ready?
  {
    hide OnlyNotifies, Submits, CallerMoves, CallerTakesLock, Detaches, Fetches, Spawns, Bails, Queues, Parks, Sleeps, Leaves, Uncounts, Resumes, Delivers, WakesSpuriously;
    hide WorkerEvent, ServiceEvent, AdminEvent;
    if WorkerEvent(s, e, s') {
      WorkersOnlyNotify(s, e, s');
      NotifiedLeavesReady(s, s', c);
    } else if ServiceEvent(s, e, s') {
      ServicesOnlyNotify(s, e, s');
      NotifiedLeavesReady(s, s', c);
    } else if AdminEvent(s, e, s') {
      AdminOnlyNotifies(s, e, s');
      NotifiedLeavesReady(s, s', c);
    } else {
      CallerLeavesReady(s, e, s', c);
    }
  }

  lemma CallerLeavesReady(s: State, e: Event, s': State, c: CallerId)
    requires CallerEvent(s, e, s') && c in s.callers && s.callers[c].Ready?
    requires !(e.CallerLock? && e.c in s.callers && s.callers[e.c].Ready?)
    ensures c in s'.callers && s'.callers[c].Ready?
  {
    hide Submits, CallerMoves, Detaches, Fetches, Spawns, Bails, Queues, Parks, Sleeps, Leaves, Uncounts, Resumes, Delivers, WakesSpuriously;
    if e.Queue? || e.Park? || e.Sleep? || e.Leave? || e.Uncount? || e.Resume? || e.Deliver? || e.Spurious? {
      WaitLeavesReady(s, e, s', c);
    } else {
      RetrievalLeavesReady(s, e, s', c);
    }
  }

  /** From any closed state there is a run to rest, in at most as many steps as the measure says and
      without a caller that had not gone for the lock before. */
  lemma {:induction false} ClosedPoolComesToRest(s: State) returns (states: seq<State>, events: seq<Event>)
    requires Reachable(s) && !s.open
    ensures IsRun(states, events) && states[0] == s && |events| <= Measure(s)
    ensures forall i :: 0 <= i < |events| ==> Advances(states[i], events[i], states[i + 1]) && !events[i].Reopen?
    ensures Reachable(states[|events|]) && AtRest(states[|events|]) && !states[|events|].open
    ensures forall c :: c in s.callers && s.callers[c].Ready? ==>
      c in states[|events|].callers && states[|events|].callers[c].Ready?
    decreases Measure(s)
  {
    hide Reachable, Measure, Step, Inv, AtRest, Progress;
    if AtRest(s) {
      states, events := [s], [];
    } else {
      ClosedPoolIsNotStuck(s);
      var e, s' :| Advances(s, e, s');
      ReachableInv(s);
      AdvanceIsStep(s, e, s');
      ClosedStep(s, e, s');
      ReachableStep(s, e, s');
      forall c | c in s.callers && s.callers[c].Ready? ensures c in s'.callers && s'.callers[c].Ready? {
        AdvanceLeavesReady(s, e, s', c);
      }
      var rest, more := ClosedPoolComesToRest(s');
      states, events := [s] + rest, [e] + more;
      forall i | 0 <= i < |events|
        ensures Advances(states[i], events[i], states[i + 1]) && Step(states[i], events[i], states[i + 1]) && !events[i].Reopen?
      {
        if i > 0 {
          assert states[i] == rest[i - 1] && events[i] == more[i - 1];
        }
      }
    }
  }

  lemma {:induction false} StaysClosedRun(states: seq<State>, events: seq<Event>, j: nat)
    requires IsRun(states, events) && j < |states| && !states[0].open
    requires forall i :: 0 <= i < j ==> !events[i].Reopen?
    ensures !states[j].open
    decreases j
  {
    hide Step;
    if j > 0 {
      StaysClosedRun(states, events, j - 1);
      OnlyReopenOpens(states[j - 1], events[j - 1], states[j]);
    }
  }

  /** And it does return: from every closed state in which it is on its way out, however the lock is
      held and by whomever, there is a run, within the measure, at the end of which it has. */
  lemma WaiterReturnsClosed(s: State, c: CallerId) returns (states: seq<State>, events: seq<Event>)
    requires Reachable(s) && !s.open && Leaving(s, c)
    ensures IsRun(states, events) && states[0] == s && |events| <= Measure(s)
    ensures forall i :: 0 <= i < |events| ==> Advances(states[i], events[i], states[i + 1]) && !events[i].Reopen?
    ensures c in states[|events|].callers && states[|events|].callers[c] == Rejected(PoolClosed)
  {
    hide Reachable, Measure, Step, Inv, Advances;
    states, events := ClosedPoolComesToRest(s);
    forall k | 0 <= k < |events| ensures !states[k].open {
      StaysClosedRun(states, events, k);
    }
    LeavingRun(states, events, 0, |events|, c);
    var last := states[|events|];
    assert !Busy(last.callers[c], last.cond);
  }
}
