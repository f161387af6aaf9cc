/** Which parts of the state each kind of thread leaves alone. */
module PoolFootprints {
  import opened PoolModel

  ghost predicate SameLife(s: State, s': State) {
    && s'.cfg == s.cfg && s'.open == s.open && s'.admin == s.admin && s'.latch == s.latch
  }

  ghost predicate SameWork(s: State, s': State) {
    s'.threads == s.threads && s'.signallers == s.signallers && s'.purge == s.purge && s'.tick == s.tick
  }

  ghost predicate SameCapacity(s: State, s': State) {
    s'.cfg == s.cfg && s'.capacity == s.capacity && s'.peak == s.peak
  }

  // ----- Callers -------------------------------------------------------------------------------

  ghost predicate CallerTouches(s: State, e: Event, s': State) {
    && SameLife(s, s') && SameCapacity(s, s') && s'.closed == s.closed && s'.cond.generation == s.cond.generation
    && s'.purge == s.purge && s'.tick == s.tick && s'.signallers == s.signallers
    && (forall c :: c in s'.callers && c !in s.callers ==> s'.callers[c].Start?)
    && (e.DetachWorker? || s'.queue == s.queue)
    && if e.Spawn? then Spawns(s, s', e.c) else s'.threads == s.threads && s'.running == s.running
  }

  lemma RetrievalTouches(s: State, e: Event, s': State)
    requires CallerEvent(s, e, s')
    requires e.Submit? || e.CallerMove? || e.CallerLock? || e.DetachWorker? || e.Fetch? || e.Spawn? || e.Bail?
    ensures CallerTouches(s, e, s')
  {
  }

  lemma WaitTouches(s: State, e: Event, s': State)
    requires CallerEvent(s, e, s')
    requires e.Queue? || e.Park? || e.Sleep? || e.Leave? || e.Uncount? || e.Resume? || e.Deliver? || e.Spurious?
    ensures CallerTouches(s, e, s')
  {
  }

  lemma CallersTouch(s: State, e: Event, s': State)
    requires CallerEvent(s, e, s')
    ensures CallerTouches(s, e, s')
  {
    hide CallerTouches, Submits, CallerMoves, CallerTakesLock, Detaches, Fetches, Spawns, Bails, Queues, Parks, Sleeps, Leaves, Uncounts, Resumes, Delivers, WakesSpuriously;
    if e.Queue? || e.Park? || e.Sleep? || e.Leave? || e.Uncount? || e.Resume? || e.Deliver? || e.Spurious? {
      WaitTouches(s, e, s');
    } else {
      RetrievalTouches(s, e, s');
    }
  }

  // ----- Workers -------------------------------------------------------------------------------

  ghost predicate WorkerTouches(s: State, e: Event, s': State) {
    && SameLife(s, s') && SameCapacity(s, s')
    && s'.running == (if e.Retire? then s.running - 1 else s.running)
    && s'.cond.generation >= s.cond.generation
    && s'.purge == s.purge && s'.tick == s.tick
    && (if e.CloseLatch? then ClosesLatch(s, s', e.w) else s'.closed == s.closed)
    && (e.InsertWorker? || s'.queue == s.queue)
  }

  lemma LifeTouches(s: State, e: Event, s': State)
    requires WorkerEvent(s, e, s')
    requires e.WorkerMove? || e.Receive? || e.Complete? || e.GiveUp? || e.WorkerLock? || e.Refuse?
    ensures WorkerTouches(s, e, s')
  {
  }

  lemma EndTouches(s: State, e: Event, s': State)
    requires WorkerEvent(s, e, s')
    requires e.InsertWorker? || e.Announce? || e.Retire? || e.CloseLatch? || e.RecycleWorker? || e.LateSignal?
    ensures WorkerTouches(s, e, s')
  {
  }

  lemma WorkersTouch(s: State, e: Event, s': State)
    requires WorkerEvent(s, e, s')
    ensures WorkerTouches(s, e, s')
  {
    hide WorkerTouches, WorkerMoves, Receives, Completes, GivesUp, WorkerTakesLock, IsRefused, Inserts, Announces, Retires, ClosesLatch, Recycles, SignalsLate;
    if e.InsertWorker? || e.Announce? || e.Retire? || e.CloseLatch? || e.RecycleWorker? || e.LateSignal? {
      EndTouches(s, e, s');
    } else {
      LifeTouches(s, e, s');
    }
  }

  lemma OnlyRetireLowers(s: State, e: Event, s': State)
    requires WorkerEvent(s, e, s') && !e.Retire?
    ensures s'.running == s.running
  {
    hide WorkerEvent;
    WorkersTouch(s, e, s');
  }

  lemma NoWorkerLeft(s: State, e: Event, s': State)
    requires s.threads == map[] && s.signallers == 0
    ensures !WorkerEvent(s, e, s')
  {
  }

  // ----- The service threads -------------------------------------------------------------------

  ghost predicate ServiceTouches(s: State, s': State) {
    && SameLife(s, s') && SameCapacity(s, s') && s'.running == s.running && s'.closed == s.closed
    && s'.cond.generation >= s.cond.generation && s'.callers == s.callers
    && s'.threads == s.threads && s'.signallers == s.signallers
    && (s.purge.PRefreshing? || s'.queue == s.queue)
  }

  lemma ServicesTouch(s: State, e: Event, s': State)
    requires ServiceEvent(s, e, s')
    ensures ServiceTouches(s, s')
  {
  }

  // ----- release and reboot --------------------------------------------------------------------

  ghost predicate AdminTouches(s: State, e: Event, s': State) {
    && SameCapacity(s, s') && s'.running == s.running && s'.cond.generation >= s.cond.generation
    && s'.callers == s.callers && s'.threads == s.threads && s'.signallers == s.signallers
    && (if e.StartPurge? then s.admin.AGoPurge? else s'.purge == s.purge)
    && (if e.StartTick? then s.admin.AGoTick? else s'.tick == s.tick)
    && (if e.Reopen? then s.admin.AReopen? else s.open || s'.open == s.open)
    && (s.admin.AIdle? ==> e.Close?) && (s.admin.AResetting? || s'.queue == s.queue)
  }

  lemma ReleaseTouches(s: State, e: Event, s': State)
    requires AdminEvent(s, e, s')
    requires e.Close? || e.CancelPurge? || e.CancelTick? || e.ResetLock? || e.ResetOne? || e.ResetEnd? || e.ReleaseBroadcast?
    ensures AdminTouches(s, e, s')
  {
  }

  lemma RebootTouches(s: State, e: Event, s': State)
    requires AdminEvent(s, e, s')
    requires e.ReleaseLatch? || e.AdminMove? || e.Reopen? || e.ClearPurgeFlag? || e.StartPurge? || e.ClearTickFlag? || e.StartTick? || e.RenewLatch?
    ensures AdminTouches(s, e, s')
  {
  }

  lemma AdminsTouch(s: State, e: Event, s': State)
    requires AdminEvent(s, e, s')
    ensures AdminTouches(s, e, s')
  {
    hide AdminTouches, Closes, CancelsPurge, CancelsTick, ResetTakesLock, ResetsOne, ResetEnds, ReleaseBroadcasts, ReleaseClosesLatch, AdminMoves, Reopens, ClearsPurgeFlag, StartsPurge, ClearsTickFlag, StartsTick, RenewsLatch;
    if e.Close? || e.CancelPurge? || e.CancelTick? || e.ResetLock? || e.ResetOne? || e.ResetEnd? || e.ReleaseBroadcast? {
      ReleaseTouches(s, e, s');
    } else {
      RebootTouches(s, e, s');
    }
  }

  // ----- tune ----------------------------------------------------------------------------------

  ghost predicate TunerTouches(s: State, e: Event, s': State) {
    && SameLife(s, s') && SameWork(s, s') && s'.running == s.running && s'.closed == s.closed && s'.queue == s.queue
    && s'.cond.generation >= s.cond.generation
    && (if e.StoreCapacity? then s'.peak == s.peak || s'.peak == s'.capacity else SameCapacity(s, s'))
  }

  lemma TunersTouch(s: State, e: Event, s': State)
    requires TuneEvent(s, e, s')
    ensures TunerTouches(s, e, s')
  {
  }
}
