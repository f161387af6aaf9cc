/** The latch of a closed pool while a call holds the lock. */
module PoolHeld {
  import opened Wrappers
  import opened WorkerQueue
  import opened CondVar
  import opened Sums
  import opened PoolModel
  import opened PoolInvariant
  import opened PoolFrames
  import opened PoolFootprints
  import opened PoolRuns
  import opened PoolOwnership
  import opened PoolDelivery
  import opened PoolCapacity
  import opened PoolHope
  import opened PoolClosing
  import opened PoolShutdown
  import opened PoolLatch
  import opened PoolAsleep

  /** Cannot come to its end without the lock: it will ask for it, or waits in the idle queue. */
  ghost predicate Kept(s: State, w: WorkerId) {
    && w in s.threads
    && (s.threads[w].RevStamp? || s.threads[w].RevLock? || (s.threads[w].Recv? && Occurs(s.queue, w) > 0))
  }

  predicate BeforeReset(a: Admin) {
    a.AStopPurge? || a.AStopTick? || a.AResetLock?
  }

  /** With no worker running, nobody can close the latch without the lock. */
  ghost predicate Unclosed(s: State) {
    && s.running == 0 && s.latch !in s.closed && BeforeReset(s.admin)
    && forall w :: w in s.threads ==> !AboutToClose(s.threads[w], s.latch)
  }

  /** A call holds the lock and may spawn. */
  ghost predicate HeldByCall(s: State) {
    s.lock.Some? && s.lock.value.ByCaller? && s.lock.value.c in s.callers && MaySpawn(s.callers[s.lock.value.c])
  }

  /** Until that call has come out with a worker, `running` cannot fall to zero, or the latch be closed. */
  ghost predicate Guarded(s: State) {
    && !s.open && NoLatecomer(s) && !LatchAhead(s)
    && (NoSpawner(s) || (HeldByCall(s) && ((exists w :: Kept(s, w)) || Unclosed(s))))
  }

  // ----- It stays so ---------------------------------------------------------------------------

  lemma KeptRuns(s: State, w: WorkerId)
    requires LiveInv(s.running, s.threads) && Kept(s, w)
    ensures s.running > 0
  {
    LiveMeansRunning(s, w);
  }

  lemma KeptByCallers(s: State, e: Event, s': State, w: WorkerId)
    requires RegistryInv(s.made, s.cache, s.callers, s.threads)
    requires CallerEvent(s, e, s') && Kept(s, w) && !e.DetachWorker?
    ensures Kept(s', w)
  {
    CallersTouch(s, e, s');
    hide CallerEvent;
    if e.Spawn? {
      SpawnIsNew(s, e.c);
    }
  }

  lemma KeptByWorkers(s: State, e: Event, s': State, w: WorkerId)
    requires LockInv(s.lock, s.callers, s.threads, s.purge, s.admin) && s.lock.Some? && s.lock.value.ByCaller?
    requires CustodyInv(s.queue, s.callers, s.chan, s.purge, s.threads)
    requires WorkerEvent(s, e, s') && !s.open && Kept(s, w)
    ensures Kept(s', w)
  {
    hide CustodyInv, WorkerMoves, Receives, Completes, GivesUp, WorkerTakesLock, IsRefused, Inserts, Announces, Retires, ClosesLatch, Recycles, SignalsLate;
    WorkersTouch(s, e, s');
    KeptHasNoMail(s, w);
    if e.WorkerMove? {
      KeptByReader(s, s', e.w, e.now, w);
    } else if e.Receive? {
      KeptByReceiver(s, s', e.w, w);
    } else if e.WorkerLock? || e.Refuse? || e.InsertWorker? || e.Announce? {
      NoWorkerLocks(s, e, s');
    } else {
      KeptByOthers(s, e, s', w);
    }
  }

  lemma KeptByReader(s: State, s': State, v: WorkerId, now: int, w: WorkerId)
    requires WorkerMoves(s, s', v, now) && Kept(s, w)
    ensures Kept(s', w)
  {
  }

  lemma KeptByReceiver(s: State, s': State, v: WorkerId, w: WorkerId)
    requires Receives(s, s', v) && Kept(s, w) && (w in s.chan && s.threads[w].Recv? ==> s.chan[w] == [])
    ensures Kept(s', w)
  {
  }

  lemma NoWorkerLocks(s: State, e: Event, s': State)
    requires LockInv(s.lock, s.callers, s.threads, s.purge, s.admin) && s.lock.Some? && s.lock.value.ByCaller?
    requires e.WorkerLock? || e.Refuse? || e.InsertWorker? || e.Announce?
    ensures !WorkerEvent(s, e, s')
  {
  }

  lemma KeptByOthers(s: State, e: Event, s': State, w: WorkerId)
    requires WorkerEvent(s, e, s') && Kept(s, w) && s'.queue == s.queue
    requires e.Complete? || e.GiveUp? || e.Retire? || e.CloseLatch? || e.RecycleWorker? || e.LateSignal?
    ensures Kept(s', w)
  {
  }

  lemma KeptHasNoMail(s: State, w: WorkerId)
    requires CustodyInv(s.queue, s.callers, s.chan, s.purge, s.threads) && Kept(s, w)
    ensures w in s.chan && s.threads[w].Recv? ==> s.chan[w] == []
  {
    assert Custody(s.queue, s.callers, s.chan, s.purge, w) <= 1;
  }

  lemma QueueIsLocked(s: State, e: Event, s': State)
    requires LockInv(s.lock, s.callers, s.threads, s.purge, s.admin) && s.lock.Some? && s.lock.value.ByCaller?
    requires ServiceEvent(s, e, s') || AdminEvent(s, e, s') || TuneEvent(s, e, s')
    ensures s'.queue == s.queue && s'.threads == s.threads
  {
    hide ServiceEvent, AdminEvent, TuneEvent;
    if ServiceEvent(s, e, s') {
      ServicesTouch(s, e, s');
    } else if AdminEvent(s, e, s') {
      AdminsTouch(s, e, s');
    } else {
      TunersTouch(s, e, s');
    }
  }

  lemma KeptStays(s: State, e: Event, s': State, w: WorkerId)
    requires Inv(s) && s.lock.Some? && s.lock.value.ByCaller? && !s.open
    requires Step(s, e, s') && Kept(s, w) && !e.DetachWorker?
    ensures Kept(s', w)
  {
    hide Kept, CallerEvent, WorkerEvent, ServiceEvent, AdminEvent, TuneEvent;
    hide LockInv, LiveInv, CondInv, WaitInv, LimitInv, CustodyInv, RegistryInv, CapacityInv, TaskInv, WakeInv, ResetInv, PurgeInv, TickInv, LatchInv;
    if CallerEvent(s, e, s') {
      KeptByCallers(s, e, s', w);
    } else if WorkerEvent(s, e, s') {
      KeptByWorkers(s, e, s', w);
    } else {
      QueueIsLocked(s, e, s');
      KeptAsBefore(s, s', w);
    }
  }

  lemma KeptAsBefore(s: State, s': State, w: WorkerId)
    requires s'.queue == s.queue && s'.threads == s.threads && Kept(s, w)
    ensures Kept(s', w)
  {
  }

  /** The threads left when no worker is running and none is about to close the latch. */
  lemma UnclosedByWorkers(s: State, e: Event, s': State)
    requires LiveInv(s.running, s.threads) && Unclosed(s) && WorkerEvent(s, e, s')
    ensures s'.latch !in s'.closed && forall w :: w in s'.threads ==> !AboutToClose(s'.threads[w], s.latch)
  {
    hide WorkerMoves, Receives, Completes, GivesUp, WorkerTakesLock, IsRefused, Inserts, Announces, Retires, ClosesLatch, Recycles, SignalsLate;
    if e.CloseLatch? {
      ClosesOldLatch(s, s', e.w);
    } else if e.RecycleWorker? {
      RecyclesOnly(s, s', e.w);
    } else if e.LateSignal? {
      SignalsOnly(s, s', e.wake);
    } else {
      UnclosedHasNoOther(s, e, s');
    }
  }

  lemma ClosesOldLatch(s: State, s': State, w: WorkerId)
    requires Unclosed(s) && ClosesLatch(s, s', w)
    ensures s'.latch !in s'.closed && forall v :: v in s'.threads ==> !AboutToClose(s'.threads[v], s.latch)
  {
  }

  lemma RecyclesOnly(s: State, s': State, w: WorkerId)
    requires Unclosed(s) && Recycles(s, s', w)
    ensures s'.latch !in s'.closed && forall v :: v in s'.threads ==> !AboutToClose(s'.threads[v], s.latch)
  {
  }

  lemma SignalsOnly(s: State, s': State, wake: Option<CallerId>)
    requires Unclosed(s) && SignalsLate(s, s', wake)
    ensures s'.latch !in s'.closed && forall v :: v in s'.threads ==> !AboutToClose(s'.threads[v], s.latch)
  {
  }

  lemma UnclosedHasNoOther(s: State, e: Event, s': State)
    requires LiveInv(s.running, s.threads) && Unclosed(s) && !e.CloseLatch? && !e.RecycleWorker? && !e.LateSignal?
    ensures !WorkerEvent(s, e, s')
  {
    hide WorkerMoves;
    if WorkerEvent(s, e, s') {
      if e.WorkerMove? {
        UnclosedHasNoReader(s, s', e.w, e.now);
      } else {
        LiveWorkersMove(s, e, s');
      }
    }
  }

  lemma UnclosedHasNoReader(s: State, s': State, w: WorkerId, now: int)
    requires LiveInv(s.running, s.threads) && Unclosed(s)
    ensures !WorkerMoves(s, s', w, now)
  {
    if WorkerMoves(s, s', w, now) && Live(s.threads[w]) {
      LiveMeansRunning(s, w);
    }
  }

  lemma UnclosedByRelease(s: State, e: Event, s': State)
    requires BeforeReset(s.admin) && AdminEvent(s, e, s') && s.lock.Some?
    ensures s'.closed == s.closed && BeforeReset(s'.admin) && s'.latch == s.latch
  {
  }

  lemma UnclosedAsBefore(s: State, s': State)
    requires Unclosed(s) && s'.running == 0 && s'.latch == s.latch && s'.closed == s.closed && BeforeReset(s'.admin)
    requires s'.threads == s.threads
    ensures Unclosed(s')
  {
  }

  lemma UnclosedStays(s: State, e: Event, s': State)
    requires LiveInv(s.running, s.threads) && Unclosed(s) && s.lock.Some? && Step(s, e, s') && !e.Spawn? && s'.running == 0
    ensures Unclosed(s')
  {
    hide LiveInv, CallerEvent, WorkerEvent, ServiceEvent, AdminEvent, TuneEvent;
    if CallerEvent(s, e, s') {
      CallersTouch(s, e, s');
      UnclosedAsBefore(s, s');
    } else if WorkerEvent(s, e, s') {
      WorkersTouch(s, e, s');
      UnclosedByWorkers(s, e, s');
    } else if ServiceEvent(s, e, s') {
      ServicesTouch(s, e, s');
      UnclosedAsBefore(s, s');
    } else if AdminEvent(s, e, s') {
      AdminsTouch(s, e, s');
      UnclosedByRelease(s, e, s');
      UnclosedAsBefore(s, s');
    } else {
      TunersTouch(s, e, s');
      UnclosedAsBefore(s, s');
    }
  }

  // ----- Every step ----------------------------------------------------------------------------

  lemma NoNewLatecomer(s: State, e: Event, s': State)
    requires Step(s, e, s') && !s.open && NoLatecomer(s)
    ensures NoLatecomer(s')
  {
    hide Step;
    StepStart(s, e, s');
    forall c | c in s'.callers ensures !s'.callers[c].Ready? {
      if c in s.callers {
        StepFollows(s, e, s', c);
      }
    }
  }

  /** Without latecomers, whoever may spawn holds the lock. */
  lemma SpawnerHolds(s: State)
    requires LockInv(s.lock, s.callers, s.threads, s.purge, s.admin) && NoLatecomer(s)
    ensures NoSpawner(s) || HeldByCall(s)
  {
    if c :| c in s.callers && MaySpawn(s.callers[c]) {
      assert s.lock == Some(ByCaller(c));
    }
  }

  /** The call comes out of its critical section, with a worker or into the wait. */
  lemma ComesOut(s: State, e: Event, s': State)
    requires LockInv(s.lock, s.callers, s.threads, s.purge, s.admin) && NoLatecomer(s)
    requires CallerEvent(s, e, s') && (e.Spawn? || e.DetachWorker?)
    ensures NoSpawner(s')
  {
  }

  lemma OnlyCallersComeOut(s: State, e: Event, s': State)
    requires Step(s, e, s') && (e.Spawn? || e.DetachWorker?)
    ensures CallerEvent(s, e, s')
  {
  }

  lemma SpawnsUnclosed(s: State, e: Event, s': State)
    requires CallerEvent(s, e, s') && e.Spawn? && Unclosed(s)
    ensures !LatchAhead(s')
  {
    hide CallerEvent;
    CallersTouch(s, e, s');
  }

  lemma GuardedBehind(s: State, e: Event, s': State)
    requires Inv(s) && Guarded(s) && Step(s, e, s') && !e.Reopen?
    ensures !LatchAhead(s')
  {
    hide LatchAhead, Unclosed, Kept, Step, LockInv, LiveInv, CondInv, WaitInv, LimitInv, CustodyInv, RegistryInv, CapacityInv, TaskInv, WakeInv, PurgeInv, TickInv, LatchInv;
    if e.Spawn? {
      SpawnIsStep(s, e, s');
      OnlyCallersComeOut(s, e, s');
      if w :| Kept(s, w) {
        KeptRuns(s, w);
        BehindStep(s, e, s');
      } else {
        SpawnsUnclosed(s, e, s');
      }
    } else {
      BehindStep(s, e, s');
    }
  }

  lemma GuardedStep(s: State, e: Event, s': State)
    requires Inv(s) && Guarded(s) && Step(s, e, s') && !e.Reopen?
    ensures Guarded(s')
  {
    hide LatchAhead, NoLatecomer, NoSpawner, HeldByCall, Unclosed, Kept, Step, Inv;
    StepKeeps(s, e, s');
    OnlyReopenOpens(s, e, s');
    NoNewLatecomer(s, e, s');
    GuardedBehind(s, e, s');
    if NoSpawner(s) {
      NoNewSpawners(s, e, s');
    } else {
      HeldStep(s, e, s');
    }
  }

  lemma HeldStep(s: State, e: Event, s': State)
    requires Inv(s) && Inv(s') && Step(s, e, s') && !s.open && NoLatecomer(s) && NoLatecomer(s')
    requires HeldByCall(s) && ((exists w :: Kept(s, w)) || Unclosed(s))
    ensures NoSpawner(s') || (HeldByCall(s') && ((exists w :: Kept(s', w)) || Unclosed(s')))
  {
    hide NoLatecomer, NoSpawner, Unclosed, Kept, Step, LockInv, LiveInv, CondInv, WaitInv, LimitInv, CustodyInv, RegistryInv, CapacityInv, TaskInv, WakeInv, ResetInv, PurgeInv, TickInv, LatchInv;
    SpawnerHolds(s');
    if e.Spawn? || e.DetachWorker? {
      OnlyCallersComeOut(s, e, s');
      ComesOut(s, e, s');
    } else if w :| Kept(s, w) {
      KeptStays(s, e, s', w);
    } else {
      StillNobodyRuns(s, e, s');
      UnclosedStays(s, e, s');
    }
  }

  lemma StillNobodyRuns(s: State, e: Event, s': State)
    requires Inv(s') && Unclosed(s) && Step(s, e, s') && !e.Spawn?
    ensures s'.running == 0
  {
    hide Step, LockInv, CondInv, WaitInv, LimitInv, CustodyInv, RegistryInv, CapacityInv, TaskInv, WakeInv, ResetInv, PurgeInv, TickInv, LatchInv;
    StepSized(s, e, s');
  }

  lemma {:induction false} GuardedRun(states: seq<State>, events: seq<Event>, j: nat)
    requires IsRun(states, events) && j < |states| && Inv(states[0]) && Guarded(states[0])
    requires forall k :: 0 <= k < j ==> !events[k].Reopen?
    ensures Inv(states[j]) && Guarded(states[j])
    decreases j
  {
    hide Step, Inv, Guarded;
    if j > 0 {
      GuardedRun(states, events, j - 1);
      GuardedStep(states[j - 1], events[j - 1], states[j]);
      StepKeeps(states[j - 1], events[j - 1], states[j]);
    }
  }

  lemma GuardedIsSafe(s: State)
    requires Inv(s) && Guarded(s)
    ensures !LatchMisleads(s)
  {
    hide Step, Inv, Guarded;
    if LatchMisleads(s) {
      var states: seq<State>, events: seq<Event> :| IsRun(states, events) && Misled(s, states, events);
      GuardedRun(states, events, |events|);
      GuardedIsClosed(s);
      LatchStaysRun(states, events, |events|);
      GuardedIsBehind(states[|events|]);
    }
  }

  lemma GuardedIsClosed(s: State)
    requires Guarded(s)
    ensures !s.open
  {
  }

  lemma GuardedIsBehind(s: State)
    requires Guarded(s)
    ensures s.latch in s.closed ==> s.running <= 0
  {
  }

  // ----- When the latch does get ahead ---------------------------------------------------------

  /** The call that holds the lock goes on to a spawn unless it finds no room. */
  ghost predicate Spawner(s: State, c: CallerId) {
    s.lock == Some(ByCaller(c)) && c in s.callers && MaySpawn(s.callers[c]) && !s.callers[c].Ready? && s.queue == []
  }

  ghost predicate HolderSpawns(s: State) {
    exists c :: Spawner(s, c)
  }

  /** No worker is on its way to the lock. */
  ghost predicate NoneLocking(s: State) {
    forall w :: w in s.threads ==> !s.threads[w].RevStamp? && !s.threads[w].RevLock?
  }

  /** Without the lock, `running` can be brought to zero and the latch be closed, or be about to be. */
  ghost predicate CanEmptyFirst(s: State) {
    if s.running == 0 then
      || s.latch in s.closed || s.admin.AWaking? || s.admin.AZero? || s.admin.AClosing?
      || exists w :: w in s.threads && AboutToClose(s.threads[w], s.latch)
    else NoneLocking(s)
  }

  lemma SpawnerHasRoom(s: State, c: CallerId)
    requires Reachable(s) && Spawner(s, c) && s.running == 0
    ensures HasRoom(s) && (s.callers[c].Sized? ==> s.callers[c].cap == -1 || s.callers[c].cap > 0)
  {
    hide Reachable, LockInv, LiveInv, CondInv, WaitInv, LimitInv, CustodyInv, RegistryInv, TaskInv, WakeInv, ResetInv, PurgeInv, TickInv, LatchInv;
    ReachableInv(s);
  }

  lemma SpawnsBehindClosedLatch(s: State, c: CallerId)
    requires Reachable(s) && !s.open && Spawner(s, c) && s.running == 0 && s.latch in s.closed
    ensures LatchMisleads(s)
  {
    hide Reachable, Inv, HasRoom, WorkerAppears, LatchMisleads;
    SpawnerHasRoom(s, c);
    LockedAppears(s, c);
    ReachableInv(s);
    AppearingMisleads(s);
  }

  lemma {:induction false} CloserGoesFirst(s: State, w: WorkerId, c: CallerId)
    requires Reachable(s) && !s.open && Spawner(s, c) && s.running == 0
    requires w in s.threads && AboutToClose(s.threads[w], s.latch)
    ensures LatchMisleads(s)
    decreases Rank(s.threads[w])
  {
    hide Reachable, LatchMisleads;
    if s.threads[w].ExitClose? {
      var s' := s.(threads := s.threads[w := Recycle], closed := s.closed + {s.latch});
      assert WorkerEvent(s, CloseLatch(w), s');
      hide WorkerEvent;
      ReachableStep(s, CloseLatch(w), s');
      SpawnsBehindClosedLatch(s', c);
      MisleadsAfter(s, CloseLatch(w), s');
    } else {
      var s' := s.(threads := s.threads[w := WorkerGoes(s.threads[w], s, 0)]);
      assert WorkerEvent(s, WorkerMove(w, 0), s');
      hide WorkerEvent;
      ReachableStep(s, WorkerMove(w, 0), s');
      CloserGoesFirst(s', w, c);
      MisleadsAfter(s, WorkerMove(w, 0), s');
    }
  }

  /** What `release` does next once the queue is reset, with no worker running. */
  lemma {:induction false} ReleaseGoesFirst(s: State, c: CallerId)
    requires Reachable(s) && !s.open && Spawner(s, c) && s.running == 0
    requires s.admin.AWaking? || s.admin.AZero? || s.admin.AClosing?
    ensures LatchMisleads(s)
    decreases AdminRank(s.admin)
  {
    hide Reachable, LatchMisleads;
    if s.admin.AClosing? {
      var s' := s.(admin := AReleased, closed := s.closed + {s.latch});
      assert AdminEvent(s, ReleaseLatch, s');
      hide AdminEvent;
      ReachableStep(s, ReleaseLatch, s');
      SpawnsBehindClosedLatch(s', c);
      MisleadsAfter(s, ReleaseLatch, s');
    } else {
      var e, s' := ReleaseNext(s);
      hide AdminEvent;
      ReachableStep(s, e, s');
      ReleaseGoesFirst(s', c);
      MisleadsAfter(s, e, s');
    }
  }

  lemma ReleaseNext(s: State) returns (e: Event, s': State)
    requires (s.admin.AWaking? || s.admin.AZero?) && s.running == 0
    ensures AdminEvent(s, e, s') && !e.Reopen? && s' == s.(admin := s'.admin, cond := s'.cond)
    ensures s'.admin == if s.admin.AWaking? then AZero else AClosing
  {
    if s.admin.AWaking? {
      e, s' := ReleaseBroadcast, s.(admin := AZero, cond := Broadcasted(s.cond));
    } else {
      e, s' := AdminMove(true), s.(admin := AClosing);
    }
  }

  // ----- Bringing `running` to zero ------------------------------------------------------------

  ghost predicate Emptying(s: State, c: CallerId) {
    && Reachable(s) && !s.open && Spawner(s, c)
    && NoneLocking(s)
    && (s.running > 0 || exists w :: w in s.threads && AboutToClose(s.threads[w], s.latch))
  }

  /** A step of somebody else that needs no lock and keeps all that. */
  ghost predicate EmptiesOn(s: State, e: Event, s': State, c: CallerId) {
    && (Works(s, e, s') || (CallerEvent(s, e, s') && e.Deliver?))
    && s'.open == s.open && s'.lock == s.lock && s'.queue == s.queue && s'.latch == s.latch
    && c in s'.callers && c in s.callers && s'.callers[c] == s.callers[c]
    && NoneLocking(s')
    && (s'.running > 0 || exists w :: w in s'.threads && AboutToClose(s'.threads[w], s'.latch))
  }

  lemma ThreadEmptiesOn(s: State, e: Event, s': State, c: CallerId, w: WorkerId)
    requires WorkerEvent(s, e, s') && NoneLocking(s) && c in s.callers && s'.callers == s.callers
    requires s'.open == s.open && s'.lock == s.lock && s'.queue == s.queue && s'.latch == s.latch
    requires w in s'.threads && s'.threads == s.threads[w := s'.threads[w]]
    requires !s'.threads[w].RevStamp? && !s'.threads[w].RevLock?
    requires s'.running > 0 || s'.threads[w].ExitZero?
    ensures EmptiesOn(s, e, s', c)
  {
    hide WorkerEvent, CallerEvent;
    assert s'.running <= 0 ==> AboutToClose(s'.threads[w], s'.latch);
  }

  lemma RetirerEmpties(s: State, c: CallerId, w: WorkerId) returns (e: Event, s': State)
    requires NoneLocking(s) && c in s.callers && w in s.threads && s.threads[w].Exit? && s.running > 0
    ensures EmptiesOn(s, e, s', c)
  {
    e, s' := Retire(w), s.(threads := s.threads[w := EpilogueFrom(s.running - 1)], running := s.running - 1);
    assert WorkerEvent(s, e, s');
    hide WorkerEvent, EmptiesOn;
    ThreadEmptiesOn(s, e, s', c, w);
  }

  lemma ReaderEmpties(s: State, c: CallerId, w: WorkerId) returns (e: Event, s': State)
    requires NoneLocking(s) && c in s.callers && !s.open && s.running > 0
    requires w in s.threads && (s.threads[w].RevCap? || s.threads[w].RevRun? || s.threads[w].RevClosed?)
    ensures EmptiesOn(s, e, s', c)
  {
    e, s' := WorkerMove(w, 0), s.(threads := s.threads[w := WorkerGoes(s.threads[w], s, 0)]);
    assert WorkerEvent(s, e, s');
    hide WorkerEvent, EmptiesOn;
    ThreadEmptiesOn(s, e, s', c, w);
  }

  lemma RunnerEmpties(s: State, c: CallerId, w: WorkerId) returns (e: Event, s': State)
    requires NoneLocking(s) && c in s.callers && s.running > 0
    requires w in s.threads && (s.threads[w].Run? || s.threads[w].RevBcast?)
    ensures EmptiesOn(s, e, s', c)
  {
    if s.threads[w].Run? {
      var d := s.threads[w].task;
      e := Complete(w, false);
      s' := s.(threads := s.threads[w := if d in s.stops then Exit else RevCap], finished := s.finished + multiset{d});
    } else {
      e, s' := GiveUp(w), s.(threads := s.threads[w := Exit], cond := Broadcasted(s.cond));
    }
    assert WorkerEvent(s, e, s');
    hide WorkerEvent, EmptiesOn;
    ThreadEmptiesOn(s, e, s', c, w);
  }

  lemma ReceiverEmpties(s: State, c: CallerId, w: WorkerId) returns (e: Event, s': State)
    requires NoneLocking(s) && c in s.callers && s.running > 0
    requires w in s.threads && s.threads[w].Recv? && w in s.chan && s.chan[w] != []
    ensures EmptiesOn(s, e, s', c)
  {
    var m := s.chan[w][0];
    e := Receive(w);
    s' := s.(threads := s.threads[w := Heeds(m)], chan := s.chan[w := s.chan[w][1..]]);
    assert WorkerEvent(s, e, s');
    hide WorkerEvent, EmptiesOn;
    ThreadEmptiesOn(s, e, s', c, w);
  }

  lemma DelivererEmpties(s: State, c: CallerId, d: CallerId) returns (e: Event, s': State)
    requires NoneLocking(s) && c in s.callers && MaySpawn(s.callers[c]) && s.running > 0
    requires d in s.callers && s.callers[d].Holding? && CanSend(s.chan, s.callers[d].w)
    ensures EmptiesOn(s, e, s', c)
  {
    e := Deliver(d);
    s' := s.(callers := s.callers[d := Accepted(s.callers[d].w)], chan := Sent(s.chan, s.callers[d].w, Payload(d)));
    assert CallerEvent(s, e, s');
    hide CallerEvent;
  }

  lemma PurgerEmpties(s: State, c: CallerId) returns (e: Event, s': State)
    requires NoneLocking(s) && c in s.callers && s.running > 0
    requires s.purge.PFinishing? && s.purge.stale != [] && CanSend(s.chan, s.purge.stale[0].id)
    ensures EmptiesOn(s, e, s', c)
  {
    e := PurgeFinish;
    s' := s.(purge := PFinishing(s.purge.stale[1..], s.purge.dormant), chan := Sent(s.chan, s.purge.stale[0].id, Finish));
    assert ServiceEvent(s, e, s');
    hide ServiceEvent;
  }

  /** A worker that waits for a message while the queue is empty has one, or somebody is about to send it
      without the lock. */
  lemma WaiterEmpties(s: State, c: CallerId, w: WorkerId) returns (e: Event, s': State)
    requires CustodyInv(s.queue, s.callers, s.chan, s.purge, s.threads)
    requires LockInv(s.lock, s.callers, s.threads, s.purge, s.admin)
    requires NoneLocking(s) && Spawner(s, c) && s.running > 0 && w in s.threads && s.threads[w].Recv?
    requires forall d :: d in s.callers && s.callers[d].Holding? ==> CanSend(s.chan, s.callers[d].w)
    requires s.purge.PFinishing? && s.purge.stale != [] ==> CanSend(s.chan, s.purge.stale[0].id)
    ensures EmptiesOn(s, e, s', c)
  {
    hide EmptiesOn, NoneLocking;
    assert Custody(s.queue, s.callers, s.chan, s.purge, w) == 1;
    if Sum(s.callers, HoldsWeight(w)) > 0 {
      var d := SumPositive(s.callers, HoldsWeight(w));
      e, s' := DelivererEmpties(s, c, d);
    } else if Occurs(Stale(s.purge), w) > 0 {
      e, s' := PurgerEmpties(s, c);
    } else {
      e, s' := ReceiverEmpties(s, c, w);
    }
  }

  lemma LiveWorkerEmpties(s: State, c: CallerId) returns (e: Event, s': State)
    requires Emptying(s, c) && s.running > 0
    ensures EmptiesOn(s, e, s', c)
  {
    hide Reachable, EmptiesOn, CondInv, WaitInv, LimitInv, RegistryInv, CapacityInv, TaskInv, WakeInv, ResetInv, PurgeInv, TickInv, LatchInv, CustodyInv;
    ReachableInv(s);
    SendsNeverBlock(s);
    var w := SumPositive(s.threads, LiveWeight);
    if s.threads[w].Exit? {
      e, s' := RetirerEmpties(s, c, w);
    } else if s.threads[w].RevCap? || s.threads[w].RevRun? || s.threads[w].RevClosed? {
      e, s' := ReaderEmpties(s, c, w);
    } else if s.threads[w].Recv? {
      e, s' := WaiterEmpties(s, c, w);
    } else {
      e, s' := RunnerEmpties(s, c, w);
    }
  }

  lemma EmptiesOnIsProgress(s: State, e: Event, s': State, c: CallerId)
    requires EmptiesOn(s, e, s', c)
    ensures Step(s, e, s') && Progress(s, e, s') && !e.Reopen?
  {
  }

  lemma {:induction false} EmptyingMisleads(s: State, c: CallerId)
    requires Emptying(s, c)
    ensures LatchMisleads(s)
    decreases Measure(s)
  {
    hide Reachable, Step, Progress, EmptiesOn, Measure, LatchMisleads, Inv;
    if s.running > 0 {
      var e, s' := LiveWorkerEmpties(s, c);
      EmptiesOnIsProgress(s, e, s', c);
      ReachableStep(s, e, s');
      ReachableInv(s);
      ClosedStep(s, e, s');
      StaysEmptying(s, e, s', c);
      EmptyingMisleads(s', c);
      MisleadsAfter(s, e, s');
    } else {
      NobodyRuns(s);
      var w :| w in s.threads && AboutToClose(s.threads[w], s.latch);
      CloserGoesFirst(s, w, c);
    }
  }

  lemma StaysEmptying(s: State, e: Event, s': State, c: CallerId)
    requires Emptying(s, c) && EmptiesOn(s, e, s', c) && Reachable(s')
    ensures Emptying(s', c) && s'.latch == s.latch
  {
    hide Reachable, Works, CallerEvent;
  }

  lemma NobodyRuns(s: State)
    requires Reachable(s) && s.running <= 0
    ensures s.running == 0
  {
    hide Reachable, LockInv, CondInv, WaitInv, LimitInv, CustodyInv, RegistryInv, CapacityInv, TaskInv, WakeInv, ResetInv, PurgeInv, TickInv, LatchInv;
    ReachableInv(s);
  }

  // ----- The condition -------------------------------------------------------------------------

  lemma HolderMisleads(s: State)
    requires Reachable(s) && !s.open && HolderSpawns(s) && CanEmptyFirst(s)
    ensures LatchMisleads(s)
  {
    hide Reachable, LatchMisleads, Spawner;
    var c :| Spawner(s, c);
    if s.running > 0 {
      EmptyingMisleads(s, c);
    } else {
      NobodyRuns(s);
      if s.latch in s.closed {
        SpawnsBehindClosedLatch(s, c);
      } else if w :| w in s.threads && AboutToClose(s.threads[w], s.latch) {
        CloserGoesFirst(s, w, c);
      } else {
        ReleaseGoesFirst(s, c);
      }
    }
  }

  /** A call at the top of the loop beside an idle worker will take that worker. */
  lemma IdleIsKept(s: State)
    requires CustodyInv(s.queue, s.callers, s.chan, s.purge, s.threads) && ResetInv(s.open, s.admin, s.queue, s.threads)
    requires LockInv(s.lock, s.callers, s.threads, s.purge, s.admin) && s.lock.Some? && s.lock.value.ByCaller?
    requires s.queue != []
    ensures Kept(s, s.queue[0].id)
  {
    var w := s.queue[0].id;
    OccursAt(s.queue, 0);
    assert Custody(s.queue, s.callers, s.chan, s.purge, w) <= 1;
  }

  lemma OtherwiseGuarded(s: State)
    requires Reachable(s) && !s.open && NoLatecomer(s) && !LatchAhead(s) && !(HolderSpawns(s) && CanEmptyFirst(s))
    ensures Guarded(s)
  {
    hide Reachable, LatchAhead, NoLatecomer, Kept, Unclosed, CondInv, WaitInv, LimitInv, CustodyInv, RegistryInv, CapacityInv, TaskInv, WakeInv, PurgeInv, TickInv, LatchInv, LockInv, LiveInv, ResetInv;
    ReachableInv(s);
    SpawnerHolds(s);
    if !NoSpawner(s) {
      var c := s.lock.value.c;
      if s.queue != [] {
        IdleIsKept(s);
      } else {
        HolderIsSpawner(s, c);
        CannotEmptyFirst(s);
      }
    }
  }

  lemma HolderIsSpawner(s: State, c: CallerId)
    requires NoLatecomer(s) && HeldByCall(s) && s.lock == Some(ByCaller(c)) && s.queue == []
    ensures HolderSpawns(s)
  {
    assert Spawner(s, c);
  }

  lemma CannotEmptyFirst(s: State)
    requires Reachable(s) && !s.open && HeldByCall(s) && !CanEmptyFirst(s)
    ensures (exists w :: Kept(s, w)) || Unclosed(s)
  {
    hide Reachable, CondInv, WaitInv, LimitInv, CustodyInv, RegistryInv, CapacityInv, TaskInv, WakeInv, PurgeInv, TickInv;
    ReachableInv(s);
    if s.running != 0 {
      var w :| w in s.threads && (s.threads[w].RevStamp? || s.threads[w].RevLock?);
      assert Kept(s, w);
    }
  }

  /** In every reachable closed state: the latch can mislead, that is, be found closed before a reopening
      with a worker running, if and only if it is ahead of the workers already, or some call has passed
      the closed check and not gone for the lock, or a call that holds the lock will spawn and every live
      worker can end before it does: none of them is on its way to the lock. */
  lemma LatchMisleadsIff(s: State)
    requires Reachable(s) && !s.open
    ensures LatchMisleads(s) <==>
      || LatchAhead(s)
      || (exists c :: c in s.callers && s.callers[c].Ready?)
      || (HolderSpawns(s) && CanEmptyFirst(s))
  {
    hide Reachable, LatchMisleads, LatchAhead, Guarded, HolderSpawns, CanEmptyFirst, Inv;
    if LatchAhead(s) {
      AheadMisleads(s);
    } else if c :| c in s.callers && s.callers[c].Ready? {
      LatecallMisleads(s, c);
    } else if HolderSpawns(s) && CanEmptyFirst(s) {
      HolderMisleads(s);
    } else {
      OtherwiseGuarded(s);
      ReachableInv(s);
      GuardedIsSafe(s);
    }
  }
}
