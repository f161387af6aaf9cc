/** Every step of a worker thread keeps the invariant; so do a signal and a broadcast by anybody. */
module PoolWorkers {
  import opened Wrappers
  import opened WorkerQueue
  import opened CondVar
  import opened Sums
  import opened PoolModel
  import opened PoolInvariant
  import opened PoolFrames

  // ----- A signal ------------------------------------------------------------------------------

  /** The token of a signal that counts is covered: by the caller it notifies, or, if nobody
      sleeps, by the parked callers that are all awake. */
  lemma SignalCond(s: State, wake: Option<CallerId>)
    requires CondInv(s.cond, s.callers) && MayNotify(s.cond, s.callers, wake)
    ensures CondInv(Signalled(s.cond), Notified(s.cond, s.callers, wake))
  {
    match wake
    case Some(c) => CallerSums(s.callers, c, Parked(s.cond.generation, true), s.cond.generation);
    case None =>
      if SignalCounts(s.cond) {
        SumCompare(s.callers, ParkedWeight, AwakeWeight(s.cond.generation));
      }
  }

  lemma SignalWake(s: State, wake: Option<CallerId>)
    requires LockInv(s.lock, s.callers, s.threads, s.purge, s.admin)
    requires WakeInv(s.open, s.cond, s.queue, s.lock, s.callers, s.threads)
    requires MayNotify(s.cond, s.callers, wake)
    ensures WakeInv(s.open, Signalled(s.cond), s.queue, s.lock, Notified(s.cond, s.callers, wake), s.threads)
  {
    if wake.Some? {
      CallerSums(s.callers, wake.value, Parked(s.cond.generation, true), s.cond.generation);
    }
  }

  lemma SignalKeeps(s: State, s': State, wake: Option<CallerId>)
    requires Inv(s) && MayNotify(s.cond, s.callers, wake)
    requires s' == s.(cond := Signalled(s.cond), callers := Notified(s.cond, s.callers, wake))
    ensures Inv(s')
  {
    hide LockInv, LiveInv, CondInv, WaitInv, LimitInv, CustodyInv, RegistryInv, CapacityInv, TaskInv, WakeInv, ResetInv, PurgeInv, TickInv, LatchInv;
    SignalCond(s, wake);
    SignalWake(s, wake);
    if wake.Some? {
      var c, q := wake.value, Parked(s.cond.generation, true);
      CallerKeepsLock(s, c, q);
      CallerWait(s, c, q);
      CallerCustody(s, c, q);
      CallerRegistry(s, c, q);
      CallerTask(s, c, q);
      CallerCapacity(s, c, q);
      CallerLimit(s, c, q);
    }
  }

  lemma LateSignalKeeps(s: State, s': State, wake: Option<CallerId>)
    requires Inv(s) && SignalsLate(s, s', wake)
    ensures Inv(s')
  {
    hide LockInv, LiveInv, CondInv, WaitInv, LimitInv, CustodyInv, RegistryInv, CapacityInv, TaskInv, WakeInv, ResetInv, PurgeInv, TickInv, LatchInv;
    SignalKeeps(s, s.(cond := s'.cond, callers := s'.callers), wake);
  }

  // ----- A broadcast ---------------------------------------------------------------------------

  lemma BroadcastCond(s: State)
    requires CondInv(s.cond, s.callers)
    ensures CondInv(Broadcasted(s.cond), s.callers)
  {
  }

  /** After a broadcast that counts nobody sleeps in the current generation. */
  lemma BroadcastWake(s: State)
    requires CondInv(s.cond, s.callers)
    requires WakeInv(s.open, s.cond, s.queue, s.lock, s.callers, s.threads)
    ensures WakeInv(s.open, Broadcasted(s.cond), s.queue, s.lock, s.callers, s.threads)
  {
    if s.cond.parked > 0 {
      SumZero(s.callers, CurrentWeight(s.cond.generation + 1));
    }
  }

  lemma BroadcastKeeps(s: State, s': State)
    requires Inv(s) && s' == s.(cond := Broadcasted(s.cond))
    ensures Inv(s')
  {
    hide LockInv, LiveInv, CondInv, WaitInv, LimitInv, CustodyInv, RegistryInv, CapacityInv, TaskInv, WakeInv, ResetInv, PurgeInv, TickInv, LatchInv;
    BroadcastCond(s);
    BroadcastWake(s);
  }

  lemma GivesUpKeeps(s: State, s': State, w: WorkerId)
    requires Inv(s) && GivesUp(s, s', w)
    ensures Inv(s')
  {
    hide LockInv, LiveInv, CondInv, WaitInv, LimitInv, CustodyInv, RegistryInv, CapacityInv, TaskInv, WakeInv, ResetInv, PurgeInv, TickInv, LatchInv;
    var s1 := s.(cond := s'.cond);
    BroadcastKeeps(s, s1);
    ThreadKeepsLock(s1, w, Exit);
    ThreadLive(s1, w, Exit);
    ThreadCustody(s1, w, Exit);
    ThreadRegistry(s1, w, Exit);
    ThreadTask(s1, w, Exit);
    ThreadWake(s1, w, Exit);
    ThreadReset(s1, w, Exit);
    ThreadLatch(s1, w, Exit);
  }

  // ----- Steps that only read ------------------------------------------------------------------

  /** On a closed pool a worker that took `running` to zero does not turn aside. */
  lemma MoveLatch(s: State, w: WorkerId, now: int)
    requires LatchInv(s.admin, s.latch, s.closed, s.running, s.threads)
    requires ResetInv(s.open, s.admin, s.queue, s.threads)
    requires w in s.threads && WorkerReads(s.threads[w], s)
    ensures LatchInv(s.admin, s.latch, s.closed, s.running, s.threads[w := WorkerGoes(s.threads[w], s, now)])
  {
    ThreadLatch(s, w, WorkerGoes(s.threads[w], s, now));
  }

  lemma MovesKeeps(s: State, s': State, w: WorkerId, now: int)
    requires Inv(s) && WorkerMoves(s, s', w, now)
    ensures Inv(s')
  {
    hide LockInv, LiveInv, CondInv, WaitInv, LimitInv, CustodyInv, RegistryInv, CapacityInv, TaskInv, WakeInv, ResetInv, PurgeInv, TickInv, LatchInv;
    var u := WorkerGoes(s.threads[w], s, now);
    ThreadKeepsLock(s, w, u);
    ThreadLive(s, w, u);
    ThreadCustody(s, w, u);
    ThreadRegistry(s, w, u);
    ThreadTask(s, w, u);
    ThreadWake(s, w, u);
    ThreadReset(s, w, u);
    MoveLatch(s, w, now);
  }

  // ----- Receiving and running -----------------------------------------------------------------

  lemma ReceiveCustody(s: State, s': State, w: WorkerId)
    requires CustodyInv(s.queue, s.callers, s.chan, s.purge, s.threads)
    requires Receives(s, s', w)
    ensures CustodyInv(s'.queue, s'.callers, s'.chan, s'.purge, s'.threads)
  {
    hide Occurs, Sum;
    forall v: nat
      ensures Custody(s'.queue, s'.callers, s'.chan, s'.purge, v) + (if v == w then 1 else 0)
           == Custody(s.queue, s.callers, s.chan, s.purge, v)
    {
    }
  }

  /** The channel holds nothing behind the message that is taken. */
  lemma ReceiveMail(s: State, s': State, w: WorkerId)
    requires CustodyInv(s.queue, s.callers, s.chan, s.purge, s.threads)
    requires Receives(s, s', w)
    ensures s.chan[w] == [s.chan[w][0]] && s'.chan[w] == []
  {
    assert Custody(s.queue, s.callers, s.chan, s.purge, w) <= 1;
  }

  lemma ReceiveTask(s: State, s': State, w: WorkerId)
    requires TaskInv(s.callers, s.chan, s.threads, s.finished)
    requires Receives(s, s', w) && s.chan[w] == [s.chan[w][0]] && s'.chan[w] == []
    ensures TaskInv(s'.callers, s'.chan, s'.threads, s'.finished)
  {
    forall v, c | InMail(s'.chan, v, c) ensures c in s.callers && s.callers[c] == Accepted(v) {
      assert InMail(s.chan, v, c);
    }
    forall v, c | Runs(s'.threads, v, c) ensures c in s.callers && s.callers[c] == Accepted(v) {
      assert Runs(s.threads, v, c) || InMail(s.chan, v, c);
    }
    forall c | c in s.callers && s.callers[c].Accepted?
      ensures var v := s.callers[c].w;
        (if InMail(s'.chan, v, c) then 1 else 0) + (if Runs(s'.threads, v, c) then 1 else 0) + s'.finished[c] == 1
    {
      var v := s.callers[c].w;
      if v == w {
        assert InMail(s.chan, v, c) <==> s.chan[w][0] == Payload(c);
        assert !Runs(s.threads, v, c);
      } else {
        assert InMail(s'.chan, v, c) == InMail(s.chan, v, c) && Runs(s'.threads, v, c) == Runs(s.threads, v, c);
      }
    }
  }

  lemma ReceivesKeeps(s: State, s': State, w: WorkerId)
    requires Inv(s) && Receives(s, s', w)
    ensures Inv(s')
  {
    hide LockInv, LiveInv, CondInv, WaitInv, LimitInv, CustodyInv, RegistryInv, CapacityInv, TaskInv, WakeInv, ResetInv, PurgeInv, TickInv, LatchInv;
    var u := s'.threads[w];
    ThreadKeepsLock(s, w, u);
    ThreadLive(s, w, u);
    ReceiveCustody(s, s', w);
    ThreadRegistry(s, w, u);
    ReceiveMail(s, s', w);
    ReceiveTask(s, s', w);
    ThreadWake(s, w, u);
    ThreadReset(s, w, u);
    ThreadLatch(s, w, u);
  }

  lemma CompleteTask(s: State, s': State, w: WorkerId, panics: bool)
    requires TaskInv(s.callers, s.chan, s.threads, s.finished)
    requires Completes(s, s', w, panics)
    ensures TaskInv(s'.callers, s'.chan, s'.threads, s'.finished)
  {
    var t := s.threads[w].task;
    assert Runs(s.threads, w, t);
    forall v, c | Runs(s'.threads, v, c) ensures c in s.callers && s.callers[c] == Accepted(v) {
      assert Runs(s.threads, v, c);
    }
    forall c | c in s.callers && s.callers[c].Accepted?
      ensures var v := s.callers[c].w;
        (if InMail(s'.chan, v, c) then 1 else 0) + (if Runs(s'.threads, v, c) then 1 else 0) + s'.finished[c] == 1
    {
      var v := s.callers[c].w;
      assert Runs(s'.threads, v, c) <==> Runs(s.threads, v, c) && c != t;
    }
  }

  lemma CompletesKeeps(s: State, s': State, w: WorkerId, panics: bool)
    requires Inv(s) && Completes(s, s', w, panics)
    ensures Inv(s')
  {
    hide LockInv, LiveInv, CondInv, WaitInv, LimitInv, CustodyInv, RegistryInv, CapacityInv, TaskInv, WakeInv, ResetInv, PurgeInv, TickInv, LatchInv;
    var u := s'.threads[w];
    ThreadKeepsLock(s, w, u);
    ThreadLive(s, w, u);
    ThreadCustody(s, w, u);
    ThreadRegistry(s, w, u);
    CompleteTask(s, s', w, panics);
    ThreadWake(s, w, u);
    ThreadReset(s, w, u);
    ThreadLatch(s, w, u);
  }

  // ----- revert_worker under the lock ----------------------------------------------------------

  /** Neither the old nor the new lock holder hunts. */
  lemma LockWake(s: State, lock: Option<Actor>, w: WorkerId, u: Thread)
    requires LockInv(s.lock, s.callers, s.threads, s.purge, s.admin)
    requires WakeInv(s.open, s.cond, s.queue, s.lock, s.callers, s.threads)
    requires s.lock == None || s.lock == Some(ByWorker(w))
    requires w in s.threads && !s.threads[w].RevSignal?
    ensures WakeInv(s.open, s.cond, s.queue, lock, s.callers, s.threads[w := u])
  {
  }

  lemma TakesLockKeeps(s: State, s': State, w: WorkerId)
    requires Inv(s) && WorkerTakesLock(s, s', w)
    ensures Inv(s')
  {
    hide LockInv, LiveInv, CondInv, WaitInv, LimitInv, CustodyInv, RegistryInv, CapacityInv, TaskInv, WakeInv, ResetInv, PurgeInv, TickInv, LatchInv;
    var u := s'.threads[w];
    ThreadGetsLock(s, w, u);
    ThreadLive(s, w, u);
    ThreadCustody(s, w, u);
    ThreadRegistry(s, w, u);
    ThreadTask(s, w, u);
    LockWake(s, s'.lock, w, u);
    ThreadReset(s, w, u);
    ThreadLatch(s, w, u);
  }

  lemma HoldsItsLock(s: State, w: WorkerId)
    requires LockInv(s.lock, s.callers, s.threads, s.purge, s.admin)
    requires w in s.threads && ThreadLocks(s.threads[w])
    ensures s.lock == Some(ByWorker(w))
  {
  }

  lemma RefusedKeeps(s: State, s': State, w: WorkerId)
    requires Inv(s) && IsRefused(s, s', w)
    ensures Inv(s')
  {
    hide LockInv, LiveInv, CondInv, WaitInv, LimitInv, CustodyInv, RegistryInv, CapacityInv, TaskInv, WakeInv, ResetInv, PurgeInv, TickInv, LatchInv;
    ThreadDropsLock(s, w, Exit);
    ThreadLive(s, w, Exit);
    ThreadCustody(s, w, Exit);
    ThreadRegistry(s, w, Exit);
    ThreadTask(s, w, Exit);
    HoldsItsLock(s, w);
    LockWake(s, s'.lock, w, Exit);
    ThreadReset(s, w, Exit);
    ThreadLatch(s, w, Exit);
  }

  lemma InsertPlaces(s: State, s': State, w: WorkerId, v: WorkerId)
    requires Inserts(s, s', w)
    ensures Occurs(s'.queue, v) == Occurs(s.queue, v) + if v == w then 1 else 0
  {
    hide Occurs;
    OccursInserted(KindOf(s.cfg), s.queue, Worker(w, s.threads[w].stamp), v);
  }

  lemma InsertCustody(s: State, s': State, w: WorkerId)
    requires CustodyInv(s.queue, s.callers, s.chan, s.purge, s.threads)
    requires Inserts(s, s', w)
    ensures CustodyInv(s'.queue, s'.callers, s'.chan, s'.purge, s'.threads)
  {
    hide Occurs, Sum;
    forall v: nat
      ensures Occurs(s'.queue, v) == Occurs(s.queue, v) + if v == w then 1 else 0
      ensures Custody(s'.queue, s'.callers, s'.chan, s'.purge, v)
           == Custody(s.queue, s.callers, s.chan, s.purge, v) + if v == w then 1 else 0
    {
      InsertPlaces(s, s', w, v);
    }
  }

  lemma InsertWake(s: State, s': State, w: WorkerId)
    requires LockInv(s.lock, s.callers, s.threads, s.purge, s.admin)
    requires WakeInv(s.open, s.cond, s.queue, s.lock, s.callers, s.threads)
    requires Inserts(s, s', w)
    ensures WakeInv(s'.open, s'.cond, s'.queue, s'.lock, s'.callers, s'.threads)
  {
    HoldsItsLock(s, w);
    forall c | c in s.callers && SawEmpty(s.callers[c]) ensures false {
    }
  }

  lemma InsertReset(s: State, s': State, w: WorkerId)
    requires ResetInv(s.open, s.admin, s.queue, s.threads)
    requires Inserts(s, s', w)
    ensures ResetInv(s'.open, s'.admin, s'.queue, s'.threads)
  {
  }

  lemma InsertsKeeps(s: State, s': State, w: WorkerId)
    requires Inv(s) && Inserts(s, s', w)
    ensures Inv(s')
  {
    hide LockInv, LiveInv, CondInv, WaitInv, LimitInv, CustodyInv, RegistryInv, CapacityInv, TaskInv, WakeInv, ResetInv, PurgeInv, TickInv, LatchInv;
    ThreadKeepsLock(s, w, RevSignal);
    ThreadLive(s, w, RevSignal);
    InsertCustody(s, s', w);
    ThreadRegistry(s, w, RevSignal);
    ThreadTask(s, w, RevSignal);
    InsertWake(s, s', w);
    InsertReset(s, s', w);
    ThreadLatch(s, w, RevSignal);
  }

  lemma AnnounceCustody(s: State, w: WorkerId)
    requires CustodyInv(s.queue, s.callers, s.chan, s.purge, s.threads)
    requires w in s.threads && s.threads[w].RevSignal?
    ensures CustodyInv(s.queue, s.callers, s.chan, s.purge, s.threads[w := Recv])
  {
    hide Custody;
  }

  /** The signal of an insertion is made under the lock, so it finds every caller that has
      registered before: there is now a token more, or every parked caller has one. */
  lemma AnnounceWake(s: State, s': State, w: WorkerId, wake: Option<CallerId>)
    requires LockInv(s.lock, s.callers, s.threads, s.purge, s.admin)
    requires CondInv(s.cond, s.callers)
    requires WakeInv(s.open, s.cond, s.queue, s.lock, s.callers, s.threads)
    requires Announces(s, s', w, wake)
    ensures WakeInv(s'.open, s'.cond, s'.queue, s'.lock, s'.callers, s'.threads)
  {
    HoldsItsLock(s, w);
    if wake.Some? {
      CallerSums(s.callers, wake.value, Parked(s.cond.generation, true), s.cond.generation);
    }
    ParkedSums(s.callers, s.cond.generation);
  }

  lemma AnnouncesKeeps(s: State, s': State, w: WorkerId, wake: Option<CallerId>)
    requires Inv(s) && Announces(s, s', w, wake)
    ensures Inv(s')
  {
    hide LockInv, LiveInv, CondInv, WaitInv, LimitInv, CustodyInv, RegistryInv, CapacityInv, TaskInv, WakeInv, ResetInv, PurgeInv, TickInv, LatchInv;
    var s1 := s.(cond := s'.cond, callers := s'.callers);
    SignalKeeps(s, s1, wake);
    ThreadDropsLock(s1, w, Recv);
    ThreadLive(s1, w, Recv);
    AnnounceCustody(s1, w);
    ThreadRegistry(s1, w, Recv);
    ThreadTask(s1, w, Recv);
    AnnounceWake(s, s', w, wake);
    ThreadReset(s1, w, Recv);
    ThreadLatch(s1, w, Recv);
  }

  // ----- The epilogue --------------------------------------------------------------------------

  lemma RetireCapacity(s: State, s': State, w: WorkerId)
    requires CapacityInv(s.cfg, s.capacity, s.running, s.peak, s.callers, s.tuners)
    requires Retires(s, s', w)
    ensures CapacityInv(s'.cfg, s'.capacity, s'.running, s'.peak, s'.callers, s'.tuners)
  {
  }

  /** The worker that takes `running` to zero is on its way to close the latch. */
  lemma RetireLatch(s: State, s': State, w: WorkerId)
    requires LiveInv(s.running, s.threads)
    requires LatchInv(s.admin, s.latch, s.closed, s.running, s.threads)
    requires Retires(s, s', w)
    ensures LatchInv(s'.admin, s'.latch, s'.closed, s'.running, s'.threads)
  {
    SumAtLeast(s.threads, w, LiveWeight);
    if s'.running == 0 {
      assert w in s'.threads && AboutToClose(s'.threads[w], s.latch);
    }
  }

  lemma RetiresKeeps(s: State, s': State, w: WorkerId)
    requires Inv(s) && Retires(s, s', w)
    ensures Inv(s')
  {
    hide LockInv, LiveInv, CondInv, WaitInv, LimitInv, CustodyInv, RegistryInv, CapacityInv, TaskInv, WakeInv, ResetInv, PurgeInv, TickInv, LatchInv;
    var u := s'.threads[w];
    ThreadKeepsLock(s, w, u);
    ThreadLive(s, w, u);
    ThreadCustody(s, w, u);
    ThreadRegistry(s, w, u);
    ThreadTask(s, w, u);
    ThreadWake(s, w, u);
    ThreadReset(s, w, u);
    RetireCapacity(s, s', w);
    RetireLatch(s, s', w);
  }

  lemma CloseLatchLatch(s: State, s': State, w: WorkerId)
    requires LatchInv(s.admin, s.latch, s.closed, s.running, s.threads)
    requires ClosesLatch(s, s', w)
    ensures LatchInv(s'.admin, s'.latch, s'.closed, s'.running, s'.threads)
  {
    if s.threads[w].latch != s.latch {
      ThreadLatch(s, w, Recycle);
    }
  }

  lemma ClosesLatchKeeps(s: State, s': State, w: WorkerId)
    requires Inv(s) && ClosesLatch(s, s', w)
    ensures Inv(s')
  {
    hide LockInv, LiveInv, CondInv, WaitInv, LimitInv, CustodyInv, RegistryInv, CapacityInv, TaskInv, WakeInv, ResetInv, PurgeInv, TickInv, LatchInv;
    ThreadKeepsLock(s, w, Recycle);
    ThreadLive(s, w, Recycle);
    ThreadCustody(s, w, Recycle);
    ThreadRegistry(s, w, Recycle);
    ThreadTask(s, w, Recycle);
    ThreadWake(s, w, Recycle);
    ThreadReset(s, w, Recycle);
    CloseLatchLatch(s, s', w);
  }

  lemma RecycleLock(s: State, w: WorkerId)
    requires LockInv(s.lock, s.callers, s.threads, s.purge, s.admin)
    requires w in s.threads && s.threads[w].Recycle?
    ensures LockInv(s.lock, s.callers, s.threads - {w}, s.purge, s.admin)
  {
  }

  lemma RecycleLive(s: State, w: WorkerId)
    requires LiveInv(s.running, s.threads)
    requires w in s.threads && s.threads[w].Recycle?
    ensures LiveInv(s.running, s.threads - {w})
  {
    SumRemove(s.threads, w, LiveWeight);
  }

  lemma RecycleCustody(s: State, w: WorkerId)
    requires CustodyInv(s.queue, s.callers, s.chan, s.purge, s.threads)
    requires w in s.threads && s.threads[w].Recycle?
    ensures CustodyInv(s.queue, s.callers, s.chan, s.purge, s.threads - {w})
  {
    hide Custody;
  }

  lemma RecycleRegistry(s: State, s': State, w: WorkerId)
    requires RegistryInv(s.made, s.cache, s.callers, s.threads)
    requires Recycles(s, s', w)
    ensures RegistryInv(s'.made, s'.cache, s'.callers, s'.threads)
  {
  }

  lemma RecycleTask(s: State, w: WorkerId)
    requires TaskInv(s.callers, s.chan, s.threads, s.finished)
    requires w in s.threads && s.threads[w].Recycle?
    ensures TaskInv(s.callers, s.chan, s.threads - {w}, s.finished)
  {
    var threads := s.threads - {w};
    forall v, c | Runs(threads, v, c) ensures c in s.callers && s.callers[c] == Accepted(v) {
      assert Runs(s.threads, v, c);
    }
    forall c | c in s.callers && s.callers[c].Accepted?
      ensures Runs(threads, s.callers[c].w, c) <==> Runs(s.threads, s.callers[c].w, c)
    {
    }
  }

  lemma RecycleWake(s: State, w: WorkerId)
    requires WakeInv(s.open, s.cond, s.queue, s.lock, s.callers, s.threads)
    requires w in s.threads && s.threads[w].Recycle?
    ensures WakeInv(s.open, s.cond, s.queue, s.lock, s.callers, s.threads - {w})
  {
    assert Hunting(s.lock, s.callers, s.threads) ==> Hunting(s.lock, s.callers, s.threads - {w});
  }

  lemma RecycleShutdown(s: State, w: WorkerId)
    requires ResetInv(s.open, s.admin, s.queue, s.threads)
    requires LatchInv(s.admin, s.latch, s.closed, s.running, s.threads)
    requires w in s.threads && s.threads[w].Recycle?
    ensures ResetInv(s.open, s.admin, s.queue, s.threads - {w})
    ensures LatchInv(s.admin, s.latch, s.closed, s.running, s.threads - {w})
  {
    if WasReleased(s.admin) && !s.admin.AClosing? && s.latch !in s.closed && !(s.running > 0) {
      var v :| v in s.threads && AboutToClose(s.threads[v], s.latch);
      assert v in s.threads - {w} && AboutToClose((s.threads - {w})[v], s.latch);
    }
  }

  lemma RecyclesKeeps(s: State, s': State, w: WorkerId)
    requires Inv(s) && Recycles(s, s', w)
    ensures Inv(s')
  {
    hide LockInv, LiveInv, CondInv, WaitInv, LimitInv, CustodyInv, RegistryInv, CapacityInv, TaskInv, WakeInv, ResetInv, PurgeInv, TickInv, LatchInv;
    RecycleLock(s, w);
    RecycleLive(s, w);
    RecycleCustody(s, w);
    RecycleRegistry(s, s', w);
    RecycleTask(s, w);
    RecycleWake(s, w);
    RecycleShutdown(s, w);
  }

  lemma WorkerEventKeeps(s: State, e: Event, s': State)
    requires Inv(s) && WorkerEvent(s, e, s')
    ensures Inv(s')
  {
    hide Inv;
    hide WorkerMoves, Receives, Completes, GivesUp, WorkerTakesLock, IsRefused, Inserts, Announces, Retires, ClosesLatch, Recycles, SignalsLate;
    if e.WorkerMove? {
      MovesKeeps(s, s', e.w, e.now);
    } else if e.Receive? {
      ReceivesKeeps(s, s', e.w);
    } else if e.Complete? {
      CompletesKeeps(s, s', e.w, e.panics);
    } else if e.GiveUp? {
      GivesUpKeeps(s, s', e.w);
    } else if e.WorkerLock? {
      TakesLockKeeps(s, s', e.w);
    } else if e.Refuse? {
      RefusedKeeps(s, s', e.w);
    } else if e.InsertWorker? {
      InsertsKeeps(s, s', e.w);
    } else if e.Announce? {
      AnnouncesKeeps(s, s', e.w, e.wake);
    } else if e.Retire? {
      RetiresKeeps(s, s', e.w);
    } else if e.CloseLatch? {
      ClosesLatchKeeps(s, s', e.w);
    } else if e.RecycleWorker? {
      RecyclesKeeps(s, s', e.w);
    } else if e.LateSignal? {
      LateSignalKeeps(s, s', e.wake);
    }
  }
}
