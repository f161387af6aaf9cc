/** Every step of a caller of `try_submit` keeps the invariant. */
module PoolCallers {
  import opened Wrappers
  import opened WorkerQueue
  import opened Sums
  import opened PoolModel
  import opened PoolInvariant
  import opened PoolFrames

  // ----- Start, Empty, Sized, and an empty queue in Loop ---------------------------------------

  lemma SubmitsKeeps(s: State, s': State, c: CallerId, stop: bool)
    requires Inv(s) && Submits(s, s', c, stop)
    ensures Inv(s')
  {
    hide LockInv, LiveInv, CondInv, WaitInv, LimitInv, CustodyInv, RegistryInv, CapacityInv, TaskInv, WakeInv, ResetInv, PurgeInv, TickInv, LatchInv;
    CallerKeepsLock(s, c, Start);
    CallerCond(s, c, Start);
    CallerWait(s, c, Start);
    CallerCustody(s, c, Start);
    CallerRegistry(s, c, Start);
    CallerTask(s, c, Start);
    CallerCapacity(s, c, Start);
    CallerLimit(s, c, Start);
    CallerWake(s, c, Start);
  }

  lemma MoveCapacity(s: State, c: CallerId)
    requires CapacityInv(s.cfg, s.capacity, s.running, s.peak, s.callers, s.tuners)
    requires c in s.callers && CallerReads(s.callers[c], s)
    ensures CapacityInv(s.cfg, s.capacity, s.running, s.peak, s.callers[c := CallerGoes(s.callers[c], s)], s.tuners)
  {
  }

  lemma MovesKeeps(s: State, s': State, c: CallerId)
    requires Inv(s) && CallerMoves(s, s', c)
    ensures Inv(s')
  {
    hide LockInv, LiveInv, CondInv, WaitInv, LimitInv, CustodyInv, RegistryInv, CapacityInv, TaskInv, WakeInv, ResetInv, PurgeInv, TickInv, LatchInv;
    var q := CallerGoes(s.callers[c], s);
    CallerKeepsLock(s, c, q);
    CallerCond(s, c, q);
    CallerWait(s, c, q);
    CallerCustody(s, c, q);
    CallerRegistry(s, c, q);
    CallerTask(s, c, q);
    MoveCapacity(s, c);
    CallerLimit(s, c, q);
    CallerWake(s, c, q);
  }

  // ----- Taking the lock -----------------------------------------------------------------------

  lemma TakesLockWake(s: State, c: CallerId, q: Caller)
    requires LockInv(s.lock, s.callers, s.threads, s.purge, s.admin)
    requires WakeInv(s.open, s.cond, s.queue, s.lock, s.callers, s.threads)
    requires c in s.callers && (s.callers[c].Ready? || s.callers[c].Woken?) && s.lock == None
    requires Hunts(q)
    ensures WakeInv(s.open, s.cond, s.queue, Some(ByCaller(c)), s.callers[c := q], s.threads)
  {
    CallerSums(s.callers, c, q, s.cond.generation);
  }

  lemma TakesLockKeeps(s: State, s': State, c: CallerId)
    requires Inv(s) && CallerTakesLock(s, s', c)
    ensures Inv(s')
  {
    hide LockInv, LiveInv, CondInv, WaitInv, LimitInv, CustodyInv, RegistryInv, CapacityInv, TaskInv, WakeInv, ResetInv, PurgeInv, TickInv, LatchInv;
    var q := if s.callers[c].Ready? then Loop(false) else Relocked;
    CallerGetsLock(s, c, q);
    CallerCond(s, c, q);
    CallerWait(s, c, q);
    CallerCustody(s, c, q);
    CallerRegistry(s, c, q);
    CallerTask(s, c, q);
    CallerCapacity(s, c, q);
    CallerLimit(s, c, q);
    TakesLockWake(s, c, q);
  }

  // ----- Detaching an idle worker --------------------------------------------------------------

  lemma DetachPlaces(s: State, s': State, c: CallerId, w: WorkerId)
    requires Detaches(s, s', c)
    ensures Custody(s'.queue, s'.callers, s'.chan, s'.purge, w) == Custody(s.queue, s.callers, s.chan, s.purge, w)
  {
    hide Occurs, Sum;
    SumPut(s.callers, c, s'.callers[c], HoldsWeight(w));
    OccursDetached(KindOf(s.cfg), s.queue, w);
  }

  lemma DetachCustody(s: State, s': State, c: CallerId)
    requires CustodyInv(s.queue, s.callers, s.chan, s.purge, s.threads)
    requires LockInv(s.lock, s.callers, s.threads, s.purge, s.admin)
    requires Detaches(s, s', c)
    ensures CustodyInv(s'.queue, s'.callers, s'.chan, s'.purge, s'.threads)
  {
    hide Custody;
    forall w: nat
      ensures Custody(s'.queue, s'.callers, s'.chan, s'.purge, w) == Custody(s.queue, s.callers, s.chan, s.purge, w)
    {
      DetachPlaces(s, s', c, w);
    }
    assert s.lock == Some(ByCaller(c));
  }

  lemma DetachWake(s: State, s': State, c: CallerId)
    requires LockInv(s.lock, s.callers, s.threads, s.purge, s.admin)
    requires WakeInv(s.open, s.cond, s.queue, s.lock, s.callers, s.threads)
    requires Detaches(s, s', c)
    ensures WakeInv(s'.open, s'.cond, s'.queue, s'.lock, s'.callers, s'.threads)
  {
    CallerSums(s.callers, c, s'.callers[c], s.cond.generation);
  }

  lemma DetachesKeeps(s: State, s': State, c: CallerId)
    requires Inv(s) && Detaches(s, s', c)
    ensures Inv(s')
  {
    hide LockInv, LiveInv, CondInv, WaitInv, LimitInv, CustodyInv, RegistryInv, CapacityInv, TaskInv, WakeInv, ResetInv, PurgeInv, TickInv, LatchInv;
    var q := s'.callers[c];
    CallerDropsLock(s, c, q);
    CallerCond(s, c, q);
    CallerWait(s, c, q);
    DetachCustody(s, s', c);
    CallerRegistry(s, c, q);
    CallerTask(s, c, q);
    CallerCapacity(s, c, q);
    CallerLimit(s, c, q);
    DetachWake(s, s', c);
    ResetShrinks(s, s'.queue);
  }

  // ----- Spawning a worker ---------------------------------------------------------------------

  lemma FetchRegistry(s: State, s': State, c: CallerId)
    requires RegistryInv(s.made, s.cache, s.callers, s.threads)
    requires Fetches(s, s', c)
    ensures RegistryInv(s'.made, s'.cache, s'.callers, s'.threads)
  {
    var n := |s.cache|;
    if s.cache != [] {
      assert s.cache == s.cache[..n - 1] + [s.cache[n - 1]];
    }
    forall w: nat
      ensures Cached(s'.cache, w) + Sum(s'.callers, FetchedWeight(w)) + (if w in s'.threads then 1 else 0)
           == if w < s'.made then 1 else 0
    {
      SumPut(s.callers, c, s'.callers[c], FetchedWeight(w));
    }
  }

  lemma FetchCapacity(s: State, s': State, c: CallerId)
    requires CapacityInv(s.cfg, s.capacity, s.running, s.peak, s.callers, s.tuners)
    requires Fetches(s, s', c)
    ensures CapacityInv(s'.cfg, s'.capacity, s'.running, s'.peak, s'.callers, s'.tuners)
  {
  }

  lemma FetchesKeeps(s: State, s': State, c: CallerId)
    requires Inv(s) && Fetches(s, s', c)
    ensures Inv(s')
  {
    hide LockInv, LiveInv, CondInv, WaitInv, LimitInv, CustodyInv, RegistryInv, CapacityInv, TaskInv, WakeInv, ResetInv, PurgeInv, TickInv, LatchInv;
    var q := s'.callers[c];
    CallerKeepsLock(s, c, q);
    CallerCond(s, c, q);
    CallerWait(s, c, q);
    CallerCustody(s, c, q);
    FetchRegistry(s, s', c);
    CallerTask(s, c, q);
    FetchCapacity(s, s', c);
    CallerLimit(s, c, q);
    CallerWake(s, c, q);
  }

  /** The thread about to be started does not exist yet. */
  lemma SpawnLock(s: State, s': State, c: CallerId)
    requires LockInv(s.lock, s.callers, s.threads, s.purge, s.admin)
    requires Spawns(s, s', c) && s.callers[c].w !in s.threads
    ensures LockInv(s'.lock, s'.callers, s'.threads, s'.purge, s'.admin)
  {
  }

  lemma SpawnPlaces(s: State, s': State, c: CallerId, w: WorkerId)
    requires Spawns(s, s', c)
    ensures Custody(s'.queue, s'.callers, s'.chan, s'.purge, w)
         == Custody(s.queue, s.callers, s.chan, s.purge, w) + if w == s.callers[c].w then 1 else 0
  {
    hide Occurs, Sum;
    SumPut(s.callers, c, s'.callers[c], HoldsWeight(w));
  }

  lemma SpawnCustody(s: State, s': State, c: CallerId)
    requires CustodyInv(s.queue, s.callers, s.chan, s.purge, s.threads)
    requires Spawns(s, s', c) && s.callers[c].w !in s.threads
    ensures CustodyInv(s'.queue, s'.callers, s'.chan, s'.purge, s'.threads)
  {
    hide Custody;
    var v := s.callers[c].w;
    forall w: nat
      ensures Custody(s'.queue, s'.callers, s'.chan, s'.purge, w)
           == Custody(s.queue, s.callers, s.chan, s.purge, w) + if w == v then 1 else 0
    {
      SpawnPlaces(s, s', c, w);
    }
  }

  lemma SpawnRegistry(s: State, s': State, c: CallerId)
    requires RegistryInv(s.made, s.cache, s.callers, s.threads)
    requires Spawns(s, s', c) && s.callers[c].w !in s.threads
    ensures RegistryInv(s'.made, s'.cache, s'.callers, s'.threads)
  {
    var v := s.callers[c].w;
    forall w: nat
      ensures Sum(s'.callers, FetchedWeight(w)) + (if w == v then 1 else 0) == Sum(s.callers, FetchedWeight(w))
    {
      SumPut(s.callers, c, Holding(v), FetchedWeight(w));
    }
  }

  lemma SpawnCapacity(s: State, s': State, c: CallerId)
    requires CapacityInv(s.cfg, s.capacity, s.running, s.peak, s.callers, s.tuners)
    requires LockInv(s.lock, s.callers, s.threads, s.purge, s.admin)
    requires Spawns(s, s', c)
    ensures CapacityInv(s'.cfg, s'.capacity, s'.running, s'.peak, s'.callers, s'.tuners)
  {
    assert s.lock == Some(ByCaller(c));
    forall d | d in s.callers && d != c ensures !CallerLocks(s.callers[d]) {
    }
  }

  lemma SpawnWake(s: State, s': State, c: CallerId)
    requires LockInv(s.lock, s.callers, s.threads, s.purge, s.admin)
    requires WakeInv(s.open, s.cond, s.queue, s.lock, s.callers, s.threads)
    requires Spawns(s, s', c)
    ensures WakeInv(s'.open, s'.cond, s'.queue, s'.lock, s'.callers, s'.threads)
  {
    assert SawEmpty(s.callers[c]);
  }

  lemma SpawnsKeeps(s: State, s': State, c: CallerId)
    requires Inv(s) && Spawns(s, s', c)
    ensures Inv(s')
  {
    hide LockInv, LiveInv, CondInv, WaitInv, LimitInv, CustodyInv, RegistryInv, CapacityInv, TaskInv, WakeInv, ResetInv, PurgeInv, TickInv, LatchInv;
    var w := s.callers[c].w;
    var q := Holding(w);
    SpawnIsNew(s, c);
    SpawnLock(s, s', c);
    ThreadLive(s, w, Recv);
    CallerCond(s, c, q);
    CallerWait(s, c, q);
    SpawnCustody(s, s', c);
    SpawnRegistry(s, s', c);
    SpawnCapacity(s, s', c);
    CallerTask(s, c, q);
    ThreadTask(s.(callers := s'.callers), w, Recv);
    CallerLimit(s, c, q);
    SpawnWake(s, s', c);
    ThreadReset(s, w, Recv);
    ThreadLatch(s, w, Recv);
    LatchGrows(s', s.running);
  }

  lemma LatchGrows(s': State, running: int)
    requires LatchInv(s'.admin, s'.latch, s'.closed, running, s'.threads)
    requires running <= s'.running
    ensures LatchInv(s'.admin, s'.latch, s'.closed, s'.running, s'.threads)
  {
  }

  // ----- No room: overload, or waiting ---------------------------------------------------------

  lemma FullWake(s: State, s': State, c: CallerId, q: Caller)
    requires LockInv(s.lock, s.callers, s.threads, s.purge, s.admin)
    requires WakeInv(s.open, s.cond, s.queue, s.lock, s.callers, s.threads)
    requires c in s.callers && (s.callers[c].Full? || s.callers[c].Queuing?) && s'.callers == s.callers[c := q]
    requires s'.queue == s.queue
    ensures WakeInv(s'.open, s'.cond, s'.queue, s'.lock, s'.callers, s'.threads)
  {
    assert SawEmpty(s.callers[c]);
  }

  lemma BailsKeeps(s: State, s': State, c: CallerId)
    requires Inv(s) && Bails(s, s', c)
    ensures Inv(s')
  {
    hide LockInv, LiveInv, CondInv, WaitInv, LimitInv, CustodyInv, RegistryInv, CapacityInv, TaskInv, WakeInv, ResetInv, PurgeInv, TickInv, LatchInv;
    var q := Rejected(PoolOverload);
    CallerDropsLock(s, c, q);
    CallerCond(s, c, q);
    CallerWait(s, c, q);
    CallerCustody(s, c, q);
    CallerRegistry(s, c, q);
    CallerTask(s, c, q);
    CallerCapacity(s, c, q);
    CallerLimit(s, c, q);
    FullWake(s, s', c, q);
  }

  lemma QueueLimit(s: State, s': State, c: CallerId)
    requires LimitInv(s.cfg, s.waiting, s.callers)
    requires LockInv(s.lock, s.callers, s.threads, s.purge, s.admin)
    requires WaitInv(s.waiting, s.callers)
    requires Queues(s, s', c)
    ensures LimitInv(s'.cfg, s'.waiting, s'.callers)
  {
    assert s.lock == Some(ByCaller(c));
    forall d | d in s'.callers ensures !Again(s'.callers[d]) {
      assert Again(s.callers[d]) ==> CallerLocks(s.callers[d]);
    }
  }

  lemma QueuesKeeps(s: State, s': State, c: CallerId)
    requires Inv(s) && Queues(s, s', c)
    ensures Inv(s')
  {
    hide LockInv, LiveInv, CondInv, WaitInv, LimitInv, CustodyInv, RegistryInv, CapacityInv, TaskInv, WakeInv, ResetInv, PurgeInv, TickInv, LatchInv;
    var q := Queuing;
    CallerKeepsLock(s, c, q);
    CallerCond(s, c, q);
    CallerWait(s, c, q);
    CallerCustody(s, c, q);
    CallerRegistry(s, c, q);
    CallerTask(s, c, q);
    CallerCapacity(s, c, q);
    QueueLimit(s, s', c);
    CallerWake(s, c, q);
  }

  // ----- The condition variable ----------------------------------------------------------------

  lemma ParkCond(s: State, s': State, c: CallerId)
    requires CondInv(s.cond, s.callers) && Parks(s, s', c)
    ensures CondInv(s'.cond, s'.callers)
  {
    CallerSums(s.callers, c, s'.callers[c], s.cond.generation);
  }

  lemma ParksKeeps(s: State, s': State, c: CallerId)
    requires Inv(s) && Parks(s, s', c)
    ensures Inv(s')
  {
    hide LockInv, LiveInv, CondInv, WaitInv, LimitInv, CustodyInv, RegistryInv, CapacityInv, TaskInv, WakeInv, ResetInv, PurgeInv, TickInv, LatchInv;
    var q := s'.callers[c];
    CallerDropsLock(s, c, q);
    ParkCond(s, s', c);
    CallerWait(s, c, q);
    CallerCustody(s, c, q);
    CallerRegistry(s, c, q);
    CallerTask(s, c, q);
    CallerCapacity(s, c, q);
    CallerLimit(s, c, q);
    FullWake(s, s', c, q);
  }

  /** A caller that sleeps while there are tokens would break the claim; it looks first. */
  lemma SleepCond(s: State, s': State, c: CallerId)
    requires CondInv(s.cond, s.callers) && (Sleeps(s, s', c) || WakesSpuriously(s, s', c))
    ensures CondInv(s'.cond, s'.callers)
  {
    CallerSums(s.callers, c, s'.callers[c], s.cond.generation);
  }

  /** A caller that stays parked in its generation does not change the wake-up claim. */
  lemma ParkedWake(s: State, c: CallerId, awake: bool)
    requires LockInv(s.lock, s.callers, s.threads, s.purge, s.admin)
    requires WakeInv(s.open, s.cond, s.queue, s.lock, s.callers, s.threads)
    requires c in s.callers && s.callers[c].Parked?
    ensures WakeInv(s.open, s.cond, s.queue, s.lock, s.callers[c := Parked(s.callers[c].since, awake)], s.threads)
  {
    CallerSums(s.callers, c, Parked(s.callers[c].since, awake), s.cond.generation);
  }

  lemma SleepsKeeps(s: State, s': State, c: CallerId)
    requires Inv(s) && (Sleeps(s, s', c) || WakesSpuriously(s, s', c))
    ensures Inv(s')
  {
    hide LockInv, LiveInv, CondInv, WaitInv, LimitInv, CustodyInv, RegistryInv, CapacityInv, TaskInv, WakeInv, ResetInv, PurgeInv, TickInv, LatchInv;
    var q := s'.callers[c];
    CallerKeepsLock(s, c, q);
    SleepCond(s, s', c);
    CallerWait(s, c, q);
    CallerCustody(s, c, q);
    CallerRegistry(s, c, q);
    CallerTask(s, c, q);
    CallerCapacity(s, c, q);
    CallerLimit(s, c, q);
    ParkedWake(s, c, q.awake);
  }

  lemma LeaveCond(s: State, s': State, c: CallerId)
    requires CondInv(s.cond, s.callers) && Leaves(s, s', c)
    ensures CondInv(s'.cond, s'.callers)
  {
    CallerSums(s.callers, c, Woken, s.cond.generation);
    ParkedSums(s'.callers, s.cond.generation);
  }

  lemma LeaveWake(s: State, s': State, c: CallerId)
    requires LockInv(s.lock, s.callers, s.threads, s.purge, s.admin)
    requires WakeInv(s.open, s.cond, s.queue, s.lock, s.callers, s.threads)
    requires Leaves(s, s', c)
    ensures WakeInv(s'.open, s'.cond, s'.queue, s'.lock, s'.callers, s'.threads)
  {
    CallerSums(s.callers, c, Woken, s.cond.generation);
  }

  lemma LeavesKeeps(s: State, s': State, c: CallerId)
    requires Inv(s) && Leaves(s, s', c)
    ensures Inv(s')
  {
    hide LockInv, LiveInv, CondInv, WaitInv, LimitInv, CustodyInv, RegistryInv, CapacityInv, TaskInv, WakeInv, ResetInv, PurgeInv, TickInv, LatchInv;
    var q := Woken;
    CallerKeepsLock(s, c, q);
    LeaveCond(s, s', c);
    CallerWait(s, c, q);
    CallerCustody(s, c, q);
    CallerRegistry(s, c, q);
    CallerTask(s, c, q);
    CallerCapacity(s, c, q);
    CallerLimit(s, c, q);
    LeaveWake(s, s', c);
  }

  // ----- After the wait ------------------------------------------------------------------------

  lemma ResumeLock(s: State, s': State, c: CallerId)
    requires LockInv(s.lock, s.callers, s.threads, s.purge, s.admin) && Resumes(s, s', c)
    ensures LockInv(s'.lock, s'.callers, s'.threads, s'.purge, s'.admin)
  {
    if s.open {
      CallerKeepsLock(s, c, Loop(true));
    } else {
      CallerDropsLock(s, c, Rejected(PoolClosed));
    }
  }

  lemma UncountLimit(s: State, s': State, c: CallerId)
    requires LimitInv(s.cfg, s.waiting, s.callers)
    requires Uncounts(s, s', c)
    ensures LimitInv(s'.cfg, s'.waiting, s'.callers)
  {
  }

  lemma ResumeWake(s: State, s': State, c: CallerId)
    requires LockInv(s.lock, s.callers, s.threads, s.purge, s.admin)
    requires WakeInv(s.open, s.cond, s.queue, s.lock, s.callers, s.threads)
    requires Resumes(s, s', c)
    ensures WakeInv(s'.open, s'.cond, s'.queue, s'.lock, s'.callers, s'.threads)
  {
    CallerSums(s.callers, c, s'.callers[c], s.cond.generation);
  }

  lemma UncountsKeeps(s: State, s': State, c: CallerId)
    requires Inv(s) && Uncounts(s, s', c)
    ensures Inv(s')
  {
    hide LockInv, LiveInv, CondInv, WaitInv, LimitInv, CustodyInv, RegistryInv, CapacityInv, TaskInv, WakeInv, ResetInv, PurgeInv, TickInv, LatchInv;
    var q := Uncounted;
    CallerKeepsLock(s, c, q);
    CallerCond(s, c, q);
    CallerWait(s, c, q);
    CallerCustody(s, c, q);
    CallerRegistry(s, c, q);
    CallerTask(s, c, q);
    CallerCapacity(s, c, q);
    UncountLimit(s, s', c);
    CallerWake(s, c, q);
  }

  lemma ResumesKeeps(s: State, s': State, c: CallerId)
    requires Inv(s) && Resumes(s, s', c)
    ensures Inv(s')
  {
    hide LockInv, LiveInv, CondInv, WaitInv, LimitInv, CustodyInv, RegistryInv, CapacityInv, TaskInv, WakeInv, ResetInv, PurgeInv, TickInv, LatchInv;
    var q := s'.callers[c];
    ResumeLock(s, s', c);
    CallerCond(s, c, q);
    CallerWait(s, c, q);
    CallerCustody(s, c, q);
    CallerRegistry(s, c, q);
    CallerTask(s, c, q);
    CallerCapacity(s, c, q);
    CallerLimit(s, c, q);
    ResumeWake(s, s', c);
  }

  // ----- Delivery ------------------------------------------------------------------------------

  lemma DeliverPlaces(s: State, s': State, c: CallerId, w: WorkerId)
    requires Delivers(s, s', c)
    ensures Custody(s'.queue, s'.callers, s'.chan, s'.purge, w) == Custody(s.queue, s.callers, s.chan, s.purge, w)
  {
    hide Occurs, Sum;
    SumPut(s.callers, c, s'.callers[c], HoldsWeight(w));
  }

  lemma DeliverCustody(s: State, s': State, c: CallerId)
    requires CustodyInv(s.queue, s.callers, s.chan, s.purge, s.threads)
    requires Delivers(s, s', c)
    ensures CustodyInv(s'.queue, s'.callers, s'.chan, s'.purge, s'.threads)
  {
    hide Custody;
    forall w: nat
      ensures Custody(s'.queue, s'.callers, s'.chan, s'.purge, w) == Custody(s.queue, s.callers, s.chan, s.purge, w)
    {
      DeliverPlaces(s, s', c, w);
    }
  }

  lemma DeliverTask(s: State, s': State, c: CallerId)
    requires TaskInv(s.callers, s.chan, s.threads, s.finished)
    requires Delivers(s, s', c)
    ensures TaskInv(s'.callers, s'.chan, s'.threads, s'.finished)
  {
    var v := s.callers[c].w;
    assert s'.chan[v] == [Payload(c)];
    forall w, d | InMail(s'.chan, w, d) ensures d in s'.callers && s'.callers[d] == Accepted(w) {
      assert (w == v && d == c) || InMail(s.chan, w, d);
    }
    assert InMail(s'.chan, v, c) && !Runs(s.threads, v, c) && c !in s.finished;
    forall d | d in s'.callers && s'.callers[d].Accepted? && d != c
      ensures InMail(s'.chan, s'.callers[d].w, d) <==> InMail(s.chan, s'.callers[d].w, d)
    {
    }
  }

  lemma DeliversKeeps(s: State, s': State, c: CallerId)
    requires Inv(s) && Delivers(s, s', c)
    ensures Inv(s')
  {
    hide LockInv, LiveInv, CondInv, WaitInv, LimitInv, CustodyInv, RegistryInv, CapacityInv, TaskInv, WakeInv, ResetInv, PurgeInv, TickInv, LatchInv;
    var q := s'.callers[c];
    CallerKeepsLock(s, c, q);
    CallerCond(s, c, q);
    CallerWait(s, c, q);
    DeliverCustody(s, s', c);
    CallerRegistry(s, c, q);
    DeliverTask(s, s', c);
    CallerCapacity(s, c, q);
    CallerLimit(s, c, q);
    CallerWake(s, c, q);
  }

  lemma CallerEventKeeps(s: State, e: Event, s': State)
    requires Inv(s) && CallerEvent(s, e, s')
    ensures Inv(s')
  {
    hide Inv;
    hide Submits, CallerMoves, CallerTakesLock, Detaches, Fetches, Spawns, Bails, Queues, Parks, Sleeps, Leaves, Uncounts, Resumes, Delivers, WakesSpuriously;
    if e.Submit? {
      SubmitsKeeps(s, s', e.c, e.stop);
    } else if e.CallerMove? {
      MovesKeeps(s, s', e.c);
    } else if e.CallerLock? {
      TakesLockKeeps(s, s', e.c);
    } else if e.DetachWorker? {
      DetachesKeeps(s, s', e.c);
    } else if e.Fetch? {
      FetchesKeeps(s, s', e.c);
    } else if e.Spawn? {
      SpawnsKeeps(s, s', e.c);
    } else if e.Bail? {
      BailsKeeps(s, s', e.c);
    } else if e.Queue? {
      QueuesKeeps(s, s', e.c);
    } else if e.Park? {
      ParksKeeps(s, s', e.c);
    } else if e.Sleep? {
      SleepsKeeps(s, s', e.c);
    } else if e.Leave? {
      LeavesKeeps(s, s', e.c);
    } else if e.Uncount? {
      UncountsKeeps(s, s', e.c);
    } else if e.Resume? {
      ResumesKeeps(s, s', e.c);
    } else if e.Deliver? {
      DeliversKeeps(s, s', e.c);
    } else if e.Spurious? {
      SleepsKeeps(s, s', e.c);
    }
  }
}
