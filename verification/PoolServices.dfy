/** Every step of the purge and ticktock threads, of `release`, `release_context` and `reboot`, and
    of `tune` keeps the invariant. */
module PoolServices {
  import opened Wrappers
  import opened WorkerQueue
  import opened Sums
  import opened PoolModel
  import opened PoolInvariant
  import opened PoolFrames
  import opened PoolWorkers

  // ----- Frames for the service threads --------------------------------------------------------

  lemma PurgeLock(s: State, lock: Option<Actor>, purge: Purge)
    requires LockInv(s.lock, s.callers, s.threads, s.purge, s.admin)
    requires if PurgeLocks(purge) then lock == Some(ByPurge) && (s.lock == None || PurgeLocks(s.purge))
             else if PurgeLocks(s.purge) then lock == None else lock == s.lock
    ensures LockInv(lock, s.callers, s.threads, purge, s.admin)
  {
  }

  lemma AdminLock(s: State, lock: Option<Actor>, admin: Admin)
    requires LockInv(s.lock, s.callers, s.threads, s.purge, s.admin)
    requires if admin.AResetting? then lock == Some(ByAdmin) && (s.lock == None || s.admin.AResetting?)
             else if s.admin.AResetting? then lock == None else lock == s.lock
    ensures LockInv(lock, s.callers, s.threads, s.purge, admin)
  {
  }

  /** The lock changes hands between nobody, the purge thread and `release`, none of whom hunts. */
  lemma ServiceWake(s: State, lock: Option<Actor>, queue: seq<Worker>)
    requires WakeInv(s.open, s.cond, s.queue, s.lock, s.callers, s.threads)
    requires |queue| <= |s.queue|
    requires lock == s.lock || s.lock == None || s.lock == Some(ByPurge) || s.lock == Some(ByAdmin)
    ensures WakeInv(s.open, s.cond, queue, lock, s.callers, s.threads)
  {
  }

  lemma PurgeCustody(s: State, purge: Purge)
    requires CustodyInv(s.queue, s.callers, s.chan, s.purge, s.threads)
    requires Stale(purge) == Stale(s.purge)
    ensures CustodyInv(s.queue, s.callers, s.chan, purge, s.threads)
  {
    hide Occurs, Sum;
    forall w: nat
      ensures Custody(s.queue, s.callers, s.chan, purge, w) == Custody(s.queue, s.callers, s.chan, s.purge, w)
    {
    }
  }

  // ----- The purge thread ----------------------------------------------------------------------

  lemma PurgeMovePurge(s: State)
    requires PurgeInv(s.cfg, s.admin, s.purge, s.purgeDone, s.purgeCancelled, s.open)
    requires ResetInv(s.open, s.admin, s.queue, s.threads)
    requires PurgeReads(s.purge)
    ensures PurgeInv(s.cfg, s.admin, PurgeGoes(s.purge, s), s.purgeDone, s.purgeCancelled, s.open)
  {
  }

  lemma PurgeMovesKeeps(s: State, s': State)
    requires Inv(s) && PurgeMoves(s, s')
    ensures Inv(s')
  {
    hide LockInv, LiveInv, CondInv, WaitInv, LimitInv, CustodyInv, RegistryInv, CapacityInv, TaskInv, WakeInv, ResetInv, PurgeInv, TickInv, LatchInv;
    PurgeLock(s, s.lock, s'.purge);
    PurgeCustody(s, s'.purge);
    PurgeMovePurge(s);
  }

  /** The purge thread keeps running. */
  lemma PurgeStays(s: State, purge: Purge)
    requires PurgeInv(s.cfg, s.admin, s.purge, s.purgeDone, s.purgeCancelled, s.open)
    requires !s.purge.PGone? && !purge.PGone? && !purge.PLeaving?
    ensures PurgeInv(s.cfg, s.admin, purge, s.purgeDone, s.purgeCancelled, s.open)
  {
  }

  lemma PurgeTakesLockKeeps(s: State, s': State)
    requires Inv(s) && PurgeTakesLock(s, s')
    ensures Inv(s')
  {
    hide LockInv, LiveInv, CondInv, WaitInv, LimitInv, CustodyInv, RegistryInv, CapacityInv, TaskInv, WakeInv, ResetInv, PurgeInv, TickInv, LatchInv;
    PurgeLock(s, s'.lock, s'.purge);
    PurgeCustody(s, s'.purge);
    ServiceWake(s, s'.lock, s.queue);
    PurgeStays(s, s'.purge);
  }

  lemma RefreshPlaces(s: State, s': State, split: nat, expiry: int, w: WorkerId)
    requires Refreshes(s, s', split, expiry)
    ensures Occurs(s'.queue, w) + Occurs(Stale(s'.purge), w) == Occurs(s.queue, w) + Occurs(Stale(s.purge), w)
  {
    hide Handed;
    OccursHanded(s.queue, Expired(KindOf(s.cfg), s.queue, expiry), split, w);
  }

  lemma RefreshCustody(s: State, s': State, split: nat, expiry: int)
    requires CustodyInv(s.queue, s.callers, s.chan, s.purge, s.threads)
    requires LockInv(s.lock, s.callers, s.threads, s.purge, s.admin)
    requires Refreshes(s, s', split, expiry)
    ensures CustodyInv(s'.queue, s'.callers, s'.chan, s'.purge, s'.threads)
  {
    hide Occurs, Sum, Handed, Expired;
    forall w: nat
      ensures Custody(s'.queue, s'.callers, s'.chan, s'.purge, w) == Custody(s.queue, s.callers, s.chan, s.purge, w)
    {
      RefreshPlaces(s, s', split, expiry, w);
    }
    assert s.lock == Some(ByPurge);
  }

  lemma RefreshesKeeps(s: State, s': State, split: nat, expiry: int)
    requires Inv(s) && Refreshes(s, s', split, expiry)
    ensures Inv(s')
  {
    hide LockInv, LiveInv, CondInv, WaitInv, LimitInv, CustodyInv, RegistryInv, CapacityInv, TaskInv, WakeInv, ResetInv, PurgeInv, TickInv, LatchInv;
    LockOfPurge(s);
    PurgeLock(s, s'.lock, s'.purge);
    RefreshCustody(s, s', split, expiry);
    ServiceWake(s, s'.lock, s'.queue);
    ResetShrinks(s, s'.queue);
    PurgeStays(s, s'.purge);
  }

  lemma LockOfPurge(s: State)
    requires LockInv(s.lock, s.callers, s.threads, s.purge, s.admin)
    requires PurgeLocks(s.purge)
    ensures s.lock == Some(ByPurge)
  {
  }

  lemma CountsKeeps(s: State, s': State)
    requires Inv(s) && Counts(s, s')
    ensures Inv(s')
  {
    hide LockInv, LiveInv, CondInv, WaitInv, LimitInv, CustodyInv, RegistryInv, CapacityInv, TaskInv, WakeInv, ResetInv, PurgeInv, TickInv, LatchInv;
    PurgeLock(s, s'.lock, s'.purge);
    LockOfPurge(s);
    PurgeCustody(s, s'.purge);
    ServiceWake(s, s'.lock, s.queue);
    PurgeStays(s, s'.purge);
  }

  /** Taking the first worker of a list into its channel. */
  lemma FinishPlaces(q: seq<Worker>, chan: map<WorkerId, seq<Message>>, w: WorkerId)
    requires q != [] && CanSend(chan, q[0].id)
    ensures Occurs(q[1..], w) + Mail(Sent(chan, q[0].id, Finish), w) == Occurs(q, w) + Mail(chan, w)
  {
  }

  lemma FinishCustody(s: State, s': State)
    requires CustodyInv(s.queue, s.callers, s.chan, s.purge, s.threads)
    requires Finishes(s, s')
    ensures CustodyInv(s'.queue, s'.callers, s'.chan, s'.purge, s'.threads)
  {
    hide Occurs, Sum, Mail;
    forall w: nat
      ensures Custody(s'.queue, s'.callers, s'.chan, s'.purge, w) == Custody(s.queue, s.callers, s.chan, s.purge, w)
    {
      FinishPlaces(s.purge.stale, s.chan, w);
    }
  }

  lemma FinishTask(s: State, w: WorkerId)
    requires TaskInv(s.callers, s.chan, s.threads, s.finished)
    requires CanSend(s.chan, w)
    ensures TaskInv(s.callers, Sent(s.chan, w, Finish), s.threads, s.finished)
  {
    var chan := Sent(s.chan, w, Finish);
    assert chan[w] == [Finish];
    forall v, c | InMail(chan, v, c) ensures c in s.callers && s.callers[c] == Accepted(v) {
      assert InMail(s.chan, v, c);
    }
    forall c | c in s.callers && s.callers[c].Accepted?
      ensures InMail(chan, s.callers[c].w, c) <==> InMail(s.chan, s.callers[c].w, c)
    {
    }
  }

  lemma FinishesKeeps(s: State, s': State)
    requires Inv(s) && Finishes(s, s')
    ensures Inv(s')
  {
    hide LockInv, LiveInv, CondInv, WaitInv, LimitInv, CustodyInv, RegistryInv, CapacityInv, TaskInv, WakeInv, ResetInv, PurgeInv, TickInv, LatchInv;
    PurgeLock(s, s'.lock, s'.purge);
    FinishCustody(s, s');
    FinishTask(s, s.purge.stale[0].id);
    PurgeStays(s, s'.purge);
  }

  lemma PurgeBroadcastsKeeps(s: State, s': State)
    requires Inv(s) && PurgeBroadcasts(s, s')
    ensures Inv(s')
  {
    hide LockInv, LiveInv, CondInv, WaitInv, LimitInv, CustodyInv, RegistryInv, CapacityInv, TaskInv, WakeInv, ResetInv, PurgeInv, TickInv, LatchInv;
    var s1 := s.(cond := s'.cond);
    BroadcastKeeps(s, s1);
    PurgeLock(s1, s'.lock, s'.purge);
    PurgeCustody(s1, s'.purge);
    PurgeStays(s1, s'.purge);
  }

  lemma PurgeLeavePurge(s: State, s': State)
    requires PurgeInv(s.cfg, s.admin, s.purge, s.purgeDone, s.purgeCancelled, s.open)
    requires PurgeLeaves(s, s')
    ensures PurgeInv(s'.cfg, s'.admin, s'.purge, s'.purgeDone, s'.purgeCancelled, s'.open)
  {
  }

  lemma PurgeLeavesKeeps(s: State, s': State)
    requires Inv(s) && PurgeLeaves(s, s')
    ensures Inv(s')
  {
    hide LockInv, LiveInv, CondInv, WaitInv, LimitInv, CustodyInv, RegistryInv, CapacityInv, TaskInv, WakeInv, ResetInv, PurgeInv, TickInv, LatchInv;
    PurgeLock(s, s'.lock, s'.purge);
    PurgeCustody(s, s'.purge);
    PurgeLeavePurge(s, s');
  }

  lemma TickKeeps(s: State, s': State)
    requires Inv(s) && (TickMoves(s, s') || TickLeaves(s, s'))
    ensures Inv(s')
  {
    hide LockInv, LiveInv, CondInv, WaitInv, LimitInv, CustodyInv, RegistryInv, CapacityInv, TaskInv, WakeInv, ResetInv, PurgeInv, TickInv, LatchInv;
    TickTick(s, s');
  }

  lemma TickTick(s: State, s': State)
    requires TickInv(s.admin, s.tick, s.tickDone, s.tickCancelled)
    requires ResetInv(s.open, s.admin, s.queue, s.threads)
    requires TickMoves(s, s') || TickLeaves(s, s')
    ensures TickInv(s'.admin, s'.tick, s'.tickDone, s'.tickCancelled)
  {
  }

  lemma ServiceEventKeeps(s: State, e: Event, s': State)
    requires Inv(s) && ServiceEvent(s, e, s')
    ensures Inv(s')
  {
    hide Inv;
    hide PurgeMoves, PurgeTakesLock, Refreshes, Counts, Finishes, PurgeBroadcasts, PurgeLeaves, TickMoves, TickLeaves;
    match e
    case PurgeMove => PurgeMovesKeeps(s, s');
    case PurgeLock => PurgeTakesLockKeeps(s, s');
    case RefreshQueue(split, expiry) => RefreshesKeeps(s, s', split, expiry);
    case PurgeCount => CountsKeeps(s, s');
    case PurgeFinish => FinishesKeeps(s, s');
    case PurgeBroadcast => PurgeBroadcastsKeeps(s, s');
    case PurgeLeave => PurgeLeavesKeeps(s, s');
    case TickMove => TickKeeps(s, s');
    case TickLeave => TickKeeps(s, s');
  }

  // ----- release, release_context and reboot ---------------------------------------------------

  lemma CancelsPurgeKeeps(s: State, s': State)
    requires Inv(s) && CancelsPurge(s, s')
    ensures Inv(s')
  {
    hide LockInv, LiveInv, CondInv, WaitInv, LimitInv, CustodyInv, RegistryInv, CapacityInv, TaskInv, WakeInv;
    LockOfServices(s, s'.purge, s'.admin);
  }

  lemma CancelsTickKeeps(s: State, s': State)
    requires Inv(s) && CancelsTick(s, s')
    ensures Inv(s')
  {
    hide LockInv, LiveInv, CondInv, WaitInv, LimitInv, CustodyInv, RegistryInv, CapacityInv, TaskInv, WakeInv;
    LockOfServices(s, s'.purge, s'.admin);
  }

  lemma ReleaseClosesLatchKeeps(s: State, s': State)
    requires Inv(s) && ReleaseClosesLatch(s, s')
    ensures Inv(s')
  {
    hide LockInv, LiveInv, CondInv, WaitInv, LimitInv, CustodyInv, RegistryInv, CapacityInv, TaskInv, WakeInv;
    LockOfServices(s, s'.purge, s'.admin);
  }

  lemma ClearsPurgeFlagKeeps(s: State, s': State)
    requires Inv(s) && ClearsPurgeFlag(s, s')
    ensures Inv(s')
  {
    hide LockInv, LiveInv, CondInv, WaitInv, LimitInv, CustodyInv, RegistryInv, CapacityInv, TaskInv, WakeInv;
    LockOfServices(s, s'.purge, s'.admin);
  }

  lemma StartsPurgeKeeps(s: State, s': State)
    requires Inv(s) && StartsPurge(s, s')
    ensures Inv(s')
  {
    hide LockInv, LiveInv, CondInv, WaitInv, LimitInv, CustodyInv, RegistryInv, CapacityInv, TaskInv, WakeInv;
    PurgeCustody(s, s'.purge);
    LockOfServices(s, s'.purge, s'.admin);
  }

  lemma ClearsTickFlagKeeps(s: State, s': State)
    requires Inv(s) && ClearsTickFlag(s, s')
    ensures Inv(s')
  {
    hide LockInv, LiveInv, CondInv, WaitInv, LimitInv, CustodyInv, RegistryInv, CapacityInv, TaskInv, WakeInv;
    LockOfServices(s, s'.purge, s'.admin);
  }

  lemma StartsTickKeeps(s: State, s': State)
    requires Inv(s) && StartsTick(s, s')
    ensures Inv(s')
  {
    hide LockInv, LiveInv, CondInv, WaitInv, LimitInv, CustodyInv, RegistryInv, CapacityInv, TaskInv, WakeInv;
    LockOfServices(s, s'.purge, s'.admin);
  }

  lemma RenewsLatchKeeps(s: State, s': State)
    requires Inv(s) && RenewsLatch(s, s')
    ensures Inv(s')
  {
    hide LockInv, LiveInv, CondInv, WaitInv, LimitInv, CustodyInv, RegistryInv, CapacityInv, TaskInv, WakeInv;
    LockOfServices(s, s'.purge, s'.admin);
  }

  lemma AdminMoveReset(s: State, onward: bool)
    requires ResetInv(s.open, s.admin, s.queue, s.threads) && AdminReads(s, onward)
    ensures ResetInv(s.open, AdminGoes(s, onward), s.queue, s.threads)
  {
  }

  lemma AdminMovePurge(s: State, onward: bool)
    requires PurgeInv(s.cfg, s.admin, s.purge, s.purgeDone, s.purgeCancelled, s.open) && AdminReads(s, onward)
    ensures PurgeInv(s.cfg, AdminGoes(s, onward), s.purge, s.purgeDone, s.purgeCancelled, s.open)
  {
  }

  lemma AdminMoveTick(s: State, onward: bool)
    requires TickInv(s.admin, s.tick, s.tickDone, s.tickCancelled) && AdminReads(s, onward)
    ensures TickInv(AdminGoes(s, onward), s.tick, s.tickDone, s.tickCancelled)
  {
  }

  /** The zero test of `release`: either it closes the latch itself or some worker will. */
  lemma AdminMoveLatch(s: State, onward: bool)
    requires LatchInv(s.admin, s.latch, s.closed, s.running, s.threads) && AdminReads(s, onward)
    requires LiveInv(s.running, s.threads)
    ensures LatchInv(AdminGoes(s, onward), s.latch, s.closed, s.running, s.threads)
  {
  }

  lemma AdminMovesKeeps(s: State, s': State, onward: bool)
    requires Inv(s) && AdminMoves(s, s', onward)
    ensures Inv(s')
  {
    hide LockInv, LiveInv, CondInv, WaitInv, LimitInv, CustodyInv, RegistryInv, CapacityInv, TaskInv, WakeInv, ResetInv, PurgeInv, TickInv, LatchInv;
    AdminMoveReset(s, onward);
    AdminMovePurge(s, onward);
    AdminMoveTick(s, onward);
    AdminMoveLatch(s, onward);
    LockOfServices(s, s.purge, s'.admin);
  }

  lemma LockOfServices(s: State, purge: Purge, admin: Admin)
    requires LockInv(s.lock, s.callers, s.threads, s.purge, s.admin)
    requires PurgeLocks(purge) <==> PurgeLocks(s.purge)
    requires admin.AResetting? <==> s.admin.AResetting?
    ensures LockInv(s.lock, s.callers, s.threads, purge, admin)
  {
  }

  lemma CloseShutdown(s: State, s': State)
    requires Closes(s, s')
    requires ResetInv(s.open, s.admin, s.queue, s.threads)
    requires PurgeInv(s.cfg, s.admin, s.purge, s.purgeDone, s.purgeCancelled, s.open)
    requires TickInv(s.admin, s.tick, s.tickDone, s.tickCancelled)
    requires LatchInv(s.admin, s.latch, s.closed, s.running, s.threads)
    ensures ResetInv(s'.open, s'.admin, s'.queue, s'.threads)
    ensures PurgeInv(s'.cfg, s'.admin, s'.purge, s'.purgeDone, s'.purgeCancelled, s'.open)
    ensures TickInv(s'.admin, s'.tick, s'.tickDone, s'.tickCancelled)
    ensures LatchInv(s'.admin, s'.latch, s'.closed, s'.running, s'.threads)
  {
  }

  lemma CloseWake(s: State)
    requires WakeInv(s.open, s.cond, s.queue, s.lock, s.callers, s.threads)
    ensures WakeInv(false, s.cond, s.queue, s.lock, s.callers, s.threads)
  {
  }

  lemma ClosesKeeps(s: State, s': State)
    requires Inv(s) && Closes(s, s')
    ensures Inv(s')
  {
    hide LockInv, LiveInv, CondInv, WaitInv, LimitInv, CustodyInv, RegistryInv, CapacityInv, TaskInv, WakeInv, ResetInv, PurgeInv, TickInv, LatchInv;
    LockOfServices(s, s.purge, s'.admin);
    CloseShutdown(s, s');
    CloseWake(s);
  }

  /** `reboot` reopens a pool whose queue is empty. */
  lemma ReopenWake(s: State, s': State)
    requires Reopens(s, s')
    requires ResetInv(s.open, s.admin, s.queue, s.threads)
    requires WakeInv(s.open, s.cond, s.queue, s.lock, s.callers, s.threads)
    ensures WakeInv(s'.open, s'.cond, s'.queue, s'.lock, s'.callers, s'.threads)
  {
  }

  lemma ReopenShutdown(s: State, s': State)
    requires Reopens(s, s')
    requires ResetInv(s.open, s.admin, s.queue, s.threads)
    requires PurgeInv(s.cfg, s.admin, s.purge, s.purgeDone, s.purgeCancelled, s.open)
    requires TickInv(s.admin, s.tick, s.tickDone, s.tickCancelled)
    requires LatchInv(s.admin, s.latch, s.closed, s.running, s.threads)
    ensures ResetInv(s'.open, s'.admin, s'.queue, s'.threads)
    ensures PurgeInv(s'.cfg, s'.admin, s'.purge, s'.purgeDone, s'.purgeCancelled, s'.open)
    ensures TickInv(s'.admin, s'.tick, s'.tickDone, s'.tickCancelled)
    ensures LatchInv(s'.admin, s'.latch, s'.closed, s'.running, s'.threads)
  {
  }

  lemma ReopensKeeps(s: State, s': State)
    requires Inv(s) && Reopens(s, s')
    ensures Inv(s')
  {
    hide LockInv, LiveInv, CondInv, WaitInv, LimitInv, CustodyInv, RegistryInv, CapacityInv, TaskInv, WakeInv, ResetInv, PurgeInv, TickInv, LatchInv;
    LockOfServices(s, s.purge, s'.admin);
    ReopenShutdown(s, s');
    ReopenWake(s, s');
  }

  /** `release` on its way through the queue; once it has let go of the lock the queue is empty and
      no worker is about to insert itself. */
  lemma ResetShutdown(s: State, e: Event, s': State)
    requires AdminEvent(s, e, s') && (e.ResetLock? || e.ResetOne? || e.ResetEnd? || e.ReleaseBroadcast?)
    requires LockInv(s.lock, s.callers, s.threads, s.purge, s.admin)
    requires ResetInv(s.open, s.admin, s.queue, s.threads)
    requires PurgeInv(s.cfg, s.admin, s.purge, s.purgeDone, s.purgeCancelled, s.open)
    requires TickInv(s.admin, s.tick, s.tickDone, s.tickCancelled)
    requires LatchInv(s.admin, s.latch, s.closed, s.running, s.threads)
    ensures ResetInv(s'.open, s'.admin, s'.queue, s'.threads)
    ensures PurgeInv(s'.cfg, s'.admin, s'.purge, s'.purgeDone, s'.purgeCancelled, s'.open)
    ensures TickInv(s'.admin, s'.tick, s'.tickDone, s'.tickCancelled)
    ensures LatchInv(s'.admin, s'.latch, s'.closed, s'.running, s'.threads)
  {
    hide AdminEvent, LockInv, ResetInv, PurgeInv, TickInv, LatchInv, ResetTouches;
    ResetShutsQueue(s, e, s');
    ResetTouch(s, e, s');
    ResetShutsServices(s, s');
  }

  lemma ResetShutsQueue(s: State, e: Event, s': State)
    requires AdminEvent(s, e, s') && (e.ResetLock? || e.ResetOne? || e.ResetEnd? || e.ReleaseBroadcast?)
    requires LockInv(s.lock, s.callers, s.threads, s.purge, s.admin)
    requires ResetInv(s.open, s.admin, s.queue, s.threads)
    ensures ResetInv(s'.open, s'.admin, s'.queue, s'.threads)
  {
    if e.ResetEnd? {
      assert s.lock == Some(ByAdmin);
      forall w | w in s.threads ensures !s.threads[w].RevInsert? {
        assert !ThreadLocks(s.threads[w]);
      }
    }
  }

  /** What those events leave alone, and where they lead. */
  ghost predicate ResetTouches(s: State, s': State) {
    && s'.cfg == s.cfg && s'.open == s.open && s'.running == s.running && s'.threads == s.threads
    && s'.purge == s.purge && s'.purgeDone == s.purgeDone && s'.purgeCancelled == s.purgeCancelled
    && s'.tick == s.tick && s'.tickDone == s.tickDone && s'.tickCancelled == s.tickCancelled
    && s'.latch == s.latch && s'.closed == s.closed
    && (s.admin.AResetLock? || s.admin.AResetting? || s.admin.AWaking?)
    && (s'.admin.AResetting? || s'.admin.AWaking? || s'.admin.AZero?)
  }

  lemma ResetTouch(s: State, e: Event, s': State)
    requires AdminEvent(s, e, s') && (e.ResetLock? || e.ResetOne? || e.ResetEnd? || e.ReleaseBroadcast?)
    ensures ResetTouches(s, s')
  {
  }

  lemma ResetShutsServices(s: State, s': State)
    requires ResetTouches(s, s')
    requires PurgeInv(s.cfg, s.admin, s.purge, s.purgeDone, s.purgeCancelled, s.open)
    requires TickInv(s.admin, s.tick, s.tickDone, s.tickCancelled)
    requires LatchInv(s.admin, s.latch, s.closed, s.running, s.threads)
    ensures PurgeInv(s'.cfg, s'.admin, s'.purge, s'.purgeDone, s'.purgeCancelled, s'.open)
    ensures TickInv(s'.admin, s'.tick, s'.tickDone, s'.tickCancelled)
    ensures LatchInv(s'.admin, s'.latch, s'.closed, s'.running, s'.threads)
  {
  }

  lemma ResetLockKeeps(s: State, s': State)
    requires Inv(s) && (ResetTakesLock(s, s') || ResetEnds(s, s'))
    ensures Inv(s')
  {
    hide LockInv, LiveInv, CondInv, WaitInv, LimitInv, CustodyInv, RegistryInv, CapacityInv, TaskInv, WakeInv, ResetInv, PurgeInv, TickInv, LatchInv;
    AdminLock(s, s'.lock, s'.admin);
    LockOfAdmin(s);
    ServiceWake(s, s'.lock, s.queue);
    ResetShutdown(s, if s.admin.AResetLock? then ResetLock else ResetEnd, s');
  }

  lemma LockOfAdmin(s: State)
    requires LockInv(s.lock, s.callers, s.threads, s.purge, s.admin)
    ensures s.admin.AResetting? ==> s.lock == Some(ByAdmin)
  {
  }

  lemma ResetOneCustody(s: State, s': State)
    requires CustodyInv(s.queue, s.callers, s.chan, s.purge, s.threads)
    requires LockInv(s.lock, s.callers, s.threads, s.purge, s.admin)
    requires ResetsOne(s, s')
    ensures CustodyInv(s'.queue, s'.callers, s'.chan, s'.purge, s'.threads)
  {
    hide Occurs, Sum, Mail;
    forall w: nat
      ensures Custody(s'.queue, s'.callers, s'.chan, s'.purge, w) == Custody(s.queue, s.callers, s.chan, s.purge, w)
    {
      FinishPlaces(s.queue, s.chan, w);
    }
    assert s.lock == Some(ByAdmin);
  }

  lemma ResetsOneKeeps(s: State, s': State)
    requires Inv(s) && ResetsOne(s, s')
    ensures Inv(s')
  {
    hide LockInv, LiveInv, CondInv, WaitInv, LimitInv, CustodyInv, RegistryInv, CapacityInv, TaskInv, WakeInv, ResetInv, PurgeInv, TickInv, LatchInv;
    ResetOneCustody(s, s');
    FinishTask(s, s.queue[0].id);
    ServiceWake(s, s.lock, s'.queue);
    ResetShutdown(s, ResetOne, s');
  }

  lemma ReleaseBroadcastsKeeps(s: State, s': State)
    requires Inv(s) && ReleaseBroadcasts(s, s')
    ensures Inv(s')
  {
    hide LockInv, LiveInv, CondInv, WaitInv, LimitInv, CustodyInv, RegistryInv, CapacityInv, TaskInv, WakeInv, ResetInv, PurgeInv, TickInv, LatchInv;
    BroadcastKeeps(s, s.(cond := s'.cond));
    LockOfServices(s, s.purge, s'.admin);
    ResetShutdown(s, ReleaseBroadcast, s');
  }

  lemma AdminEventKeeps(s: State, e: Event, s': State)
    requires Inv(s) && AdminEvent(s, e, s')
    ensures Inv(s')
  {
    hide Inv;
    hide Closes, CancelsPurge, CancelsTick, ResetTakesLock, ResetsOne, ResetEnds, ReleaseBroadcasts, ReleaseClosesLatch, AdminMoves,
         Reopens, ClearsPurgeFlag, StartsPurge, ClearsTickFlag, StartsTick, RenewsLatch;
    match e
    case Close => ClosesKeeps(s, s');
    case ResetLock => ResetLockKeeps(s, s');
    case ResetOne => ResetsOneKeeps(s, s');
    case ResetEnd => ResetLockKeeps(s, s');
    case ReleaseBroadcast => ReleaseBroadcastsKeeps(s, s');
    case AdminMove(onward) => AdminMovesKeeps(s, s', onward);
    case Reopen => ReopensKeeps(s, s');
    case CancelPurge => CancelsPurgeKeeps(s, s');
    case CancelTick => CancelsTickKeeps(s, s');
    case ReleaseLatch => ReleaseClosesLatchKeeps(s, s');
    case ClearPurgeFlag => ClearsPurgeFlagKeeps(s, s');
    case StartPurge => StartsPurgeKeeps(s, s');
    case ClearTickFlag => ClearsTickFlagKeeps(s, s');
    case StartTick => StartsTickKeeps(s, s');
    case RenewLatch => RenewsLatchKeeps(s, s');
  }

  // ----- tune ----------------------------------------------------------------------------------

  lemma TuneCapacity(s: State, e: Event, s': State)
    requires CapacityInv(s.cfg, s.capacity, s.running, s.peak, s.callers, s.tuners)
    requires TuneEvent(s, e, s') && (e.CallTune? || e.ReadCapacity? || e.StoreCapacity?)
    ensures CapacityInv(s'.cfg, s'.capacity, s'.running, s'.peak, s'.callers, s'.tuners)
  {
  }

  lemma TuneDone(s: State, t: nat)
    requires CapacityInv(s.cfg, s.capacity, s.running, s.peak, s.callers, s.tuners)
    ensures CapacityInv(s.cfg, s.capacity, s.running, s.peak, s.callers, s.tuners[t := Tuned])
  {
  }

  lemma TuneSignalKeeps(s: State, s': State, t: nat, wake: Option<CallerId>)
    requires Inv(s) && TuneSignals(s, s', t, wake)
    ensures Inv(s')
  {
    hide LockInv, LiveInv, CondInv, WaitInv, LimitInv, CustodyInv, RegistryInv, CapacityInv, TaskInv, WakeInv, ResetInv, PurgeInv, TickInv, LatchInv;
    var s1 := s.(cond := s'.cond, callers := s'.callers);
    SignalKeeps(s, s1, wake);
    TuneDone(s1, t);
  }

  lemma TuneBroadcastKeeps(s: State, s': State, t: nat)
    requires Inv(s) && TuneBroadcasts(s, s', t)
    ensures Inv(s')
  {
    hide LockInv, LiveInv, CondInv, WaitInv, LimitInv, CustodyInv, RegistryInv, CapacityInv, TaskInv, WakeInv, ResetInv, PurgeInv, TickInv, LatchInv;
    var s1 := s.(cond := s'.cond);
    BroadcastKeeps(s, s1);
    TuneDone(s1, t);
  }

  lemma TuneStoreKeeps(s: State, e: Event, s': State)
    requires Inv(s) && TuneEvent(s, e, s') && (e.CallTune? || e.ReadCapacity? || e.StoreCapacity?)
    ensures Inv(s')
  {
    hide LockInv, LiveInv, CondInv, WaitInv, LimitInv, CustodyInv, RegistryInv, CapacityInv, TaskInv, WakeInv, ResetInv, PurgeInv, TickInv, LatchInv;
    TuneCapacity(s, e, s');
  }

  lemma TuneEventKeeps(s: State, e: Event, s': State)
    requires Inv(s) && TuneEvent(s, e, s')
    ensures Inv(s')
  {
    hide Inv;
    hide CallsTune, ReadsCapacity, StoresCapacity, TuneSignals, TuneBroadcasts;
    match e
    case TuneSignalEvent(t, wake) => TuneSignalKeeps(s, s', t, wake);
    case TuneBroadcast(t) => TuneBroadcastKeeps(s, s', t);
    case _ => TuneStoreKeeps(s, e, s');
  }
}
