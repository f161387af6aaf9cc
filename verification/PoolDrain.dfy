/** A closed pool with no call in flight drains by the work of its own threads alone. */
module PoolDrain {
  import opened Wrappers
  import opened Sums
  import opened PoolModel
  import opened PoolInvariant
  import opened PoolFootprints
  import opened PoolRuns
  import opened PoolOwnership
  import opened PoolDelivery
  import opened PoolCapacity
  import opened PoolClosing
  import opened PoolRest

  /** Between the closed check of `try_submit` and its return. */
  predicate InFlight(p: Caller) {
    !p.Start? && !p.Accepted? && !p.Rejected?
  }

  /** `release` has emptied the queue and no call of `try_submit` is in flight. */
  ghost predicate Quiet(s: State) {
    && !s.open && WasReset(s.admin)
    && forall c :: c in s.callers ==> !InFlight(s.callers[c])
  }

  // ----- What the other threads can do to a quiet pool: nothing --------------------------------

  lemma QuietAdminStays(s: State, e: Event, s': State)
    requires AdminEvent(s, e, s') && !s.open && WasReset(s.admin) && !e.Reopen?
    ensures SameWork(s, s') && !s'.open && WasReset(s'.admin)
  {
    AdminsTouch(s, e, s');
    hide AdminTouches, AdminMoves;
    if e.AdminMove? {
      QuietAdminReads(s, s', e.onward);
    }
  }

  lemma QuietAdminReads(s: State, s': State, onward: bool)
    requires AdminMoves(s, s', onward) && WasReset(s.admin)
    ensures s'.open == s.open && WasReset(s'.admin)
  {
  }

  lemma StaysClosed(s: State, e: Event, s': State)
    requires Step(s, e, s') && !e.Reopen? && !s.open && WasReset(s.admin)
    ensures !s'.open && WasReset(s'.admin)
  {
    hide CallerEvent, WorkerEvent, ServiceEvent, AdminEvent, TuneEvent;
    if CallerEvent(s, e, s') {
      CallersTouch(s, e, s');
    } else if WorkerEvent(s, e, s') {
      WorkersTouch(s, e, s');
    } else if ServiceEvent(s, e, s') {
      ServicesTouch(s, e, s');
    } else if AdminEvent(s, e, s') {
      QuietAdminStays(s, e, s');
    } else {
      TunersTouch(s, e, s');
    }
  }

  /** No call gets in flight on a closed pool. */
  lemma NobodyTakesOff(s: State, e: Event, s': State)
    requires Step(s, e, s') && Quiet(s)
    ensures forall c :: c in s'.callers ==> !InFlight(s'.callers[c])
  {
    hide Step;
    StepStart(s, e, s');
    forall c | c in s'.callers ensures !InFlight(s'.callers[c]) {
      if c in s.callers {
        StepFollows(s, e, s', c);
      }
    }
  }

  // ----- Every step of the workers and service threads is progress -----------------------------

  /** A quiet pool stays quiet until `reboot` reopens it.  Its queue is and stays empty, nothing is
      spawned, and each step of a worker, of the purge thread or of the ticktock thread strictly
      decreases the measure, which nobody else can raise. */
  lemma QuietStep(s: State, e: Event, s': State)
    requires Inv(s) && Quiet(s) && Step(s, e, s') && !e.Reopen?
    ensures Quiet(s') && s'.running <= s.running && s.queue == []
    ensures Measure(s') <= Measure(s)
    ensures Works(s, e, s') ==> Measure(s') < Measure(s)
  {
    hide Inv, Measure, Works, WasReset, CallerEvent, WorkerEvent, ServiceEvent, AdminEvent, TuneEvent;
    NobodyTakesOff(s, e, s');
    QuietQueueIsEmpty(s);
    ClosedStep(s, e, s');
    StaysClosed(s, e, s');
    StepSized(s, e, s');
    if e.Spawn? {
      SpawnIsStep(s, e, s');
    }
  }

  /** The number of steps of workers and service threads in a stretch of a run. */
  ghost function WorkDone(states: seq<State>, events: seq<Event>, i: nat, j: nat): nat
    requires |states| == |events| + 1 && i <= j < |states|
    decreases j - i
  {
    if i == j then 0
    else WorkDone(states, events, i, j - 1) + if Works(states[j - 1], events[j - 1], states[j]) then 1 else 0
  }

  /** Over any run from a quiet state, as long as nobody reopens the pool, the number of steps the
      workers and service threads still take is bounded by the measure. */
  lemma {:induction false} QuietPoolTakesBoundedWork(states: seq<State>, events: seq<Event>, i: nat, j: nat)
    requires IsRun(states, events) && i <= j < |states|
    requires Inv(states[i]) && Quiet(states[i])
    requires forall k :: i <= k < j ==> !events[k].Reopen?
    ensures Quiet(states[j]) && Inv(states[j]) && states[j].queue == [] && states[j].running <= states[i].running
    ensures Measure(states[j]) + WorkDone(states, events, i, j) <= Measure(states[i])
    decreases j - i
  {
    hide Step, Quiet, Measure, Works, LockInv, LiveInv, CondInv, WaitInv, LimitInv, CustodyInv, RegistryInv, CapacityInv, TaskInv, WakeInv, PurgeInv, TickInv, LatchInv;
    if i < j {
      QuietPoolTakesBoundedWork(states, events, i, j - 1);
      QuietStep(states[j - 1], events[j - 1], states[j]);
      RunKeeps(states, events, j - 1, j);
    }
    QuietQueueIsEmpty(states[j]);
  }

  lemma QuietQueueIsEmpty(s: State)
    requires Inv(s) && Quiet(s)
    ensures s.queue == []
  {
    hide LockInv, LiveInv, CondInv, WaitInv, LimitInv, CustodyInv, RegistryInv, CapacityInv, TaskInv, WakeInv, PurgeInv, TickInv, LatchInv;
  }

  // ----- Nobody is stuck before the pool is drained --------------------------------------------

  /** In a quiet pool the lock is free, or held by a worker or by the purge thread. */
  lemma QuietLock(s: State)
    requires LockInv(s.lock, s.callers, s.threads, s.purge, s.admin) && Quiet(s)
    ensures match s.lock case None => true case Some(a) => a.ByWorker? || a.ByPurge?
  {
  }

  /** A worker that waits for a message has one, unless the purge thread still owes it. */
  lemma WaitingWorkerHasMail(s: State, w: WorkerId)
    requires CustodyInv(s.queue, s.callers, s.chan, s.purge, s.threads)
    requires Quiet(s) && s.queue == [] && s.purge.PGone?
    requires w in s.threads && s.threads[w].Recv?
    ensures w in s.chan && s.chan[w] != []
  {
    assert Custody(s.queue, s.callers, s.chan, s.purge, w) == 1;
    if Sum(s.callers, HoldsWeight(w)) > 0 {
      var c := SumPositive(s.callers, HoldsWeight(w));
    }
  }

  lemma ThreadCanWork(s: State, w: WorkerId)
    requires CustodyInv(s.queue, s.callers, s.chan, s.purge, s.threads)
    requires Quiet(s) && s.queue == [] && s.lock == None && s.purge.PGone? && w in s.threads
    ensures CanWork(s)
  {
    hide CanWork, CanToil, CanGather, CanAdvance, CustodyInv;
    if s.threads[w].Recv? {
      WaitingWorkerHasMail(s, w);
      MailCanToil(s, w);
      ToilIsGather(s);
    } else if s.threads[w].RevLock? {
      LockingWorkerCanToil(s, w);
      ToilIsGather(s);
    } else if s.threads[w].Exit? {
      RetirerCanWork(s, w);
    } else {
      BusyWorkerCanToil(s, w);
      ToilIsGather(s);
    }
  }

  lemma HolderCanWork(s: State)
    requires LockInv(s.lock, s.callers, s.threads, s.purge, s.admin) && !s.open
    requires s.lock.Some? && (s.lock.value.ByWorker? || s.lock.value.ByPurge?)
    ensures CanWork(s)
  {
    hide CanWork, CanToil, CanGather, CanAdvance;
    if s.lock.value.ByWorker? {
      BusyWorkerCanToil(s, s.lock.value.w);
      ToilIsGather(s);
    } else {
      PurgeCanToil(s);
      ToilIsGather(s);
    }
  }

  /** As long as a quiet pool is not drained, some worker or service thread can take a step. */
  lemma QuietPoolIsNotStuck(s: State)
    requires Reachable(s) && Quiet(s) && !Drained(s)
    ensures CanWork(s)
  {
    hide Reachable, CanWork, CanToil, CanGather, CanAdvance, Inv, LockInv, CustodyInv;
    ReachableInv(s);
    ClosedParts(s);
    QuietQueueIsEmpty(s);
    QuietLock(s);
    SendsNeverBlock(s);
    if s.lock != None {
      HolderCanWork(s);
    } else if !s.tick.TGone? {
      TickCanToil(s);
      ToilIsGather(s);
    } else if !s.purge.PGone? {
      PurgeCanToil(s);
      ToilIsGather(s);
    } else if s.signallers > 0 {
      SignallerCanToil(s);
      ToilIsGather(s);
    } else {
      var w :| w in s.threads;
      ThreadCanWork(s, w);
    }
  }

  /** The end of `release` has been reached and the latch test made. */
  predicate ReleaseReturned(a: Admin) {
    WasReleased(a) && !a.AClosing?
  }

  /** A drained pool is ready for `reboot`: no worker runs, the latch is closed, and both flags say
      that the service threads have finished. */
  lemma DrainedPoolIsReadyForReboot(s: State)
    requires Reachable(s) && Drained(s) && ReleaseReturned(s.admin)
    ensures s.running == 0 && s.queue == [] && s.latch in s.closed
    ensures s.tickDone && (s.cfg.disablePurge || s.purgeDone)
  {
    hide Reachable;
    ReachableInv(s);
    assert Sum(s.threads, LiveWeight) == 0;
  }

  /** And it can be drained from any quiet state by the workers and service threads alone, in at most
      as many steps as the measure says. */
  lemma {:induction false} QuietPoolCanDrain(s: State) returns (states: seq<State>, events: seq<Event>)
    requires Reachable(s) && Quiet(s)
    ensures IsRun(states, events) && states[0] == s && |events| <= Measure(s)
    ensures forall i :: 0 <= i < |events| ==> Works(states[i], events[i], states[i + 1])
    ensures Drained(states[|events|])
    decreases Measure(s)
  {
    hide Reachable, Quiet, Measure, Step, Inv, WorkerEvent, ServiceEvent;
    if Drained(s) {
      states, events := [s], [];
    } else {
      QuietPoolIsNotStuck(s);
      var e, s' :| Works(s, e, s');
      WorksIsStep(s, e, s');
      ReachableInv(s);
      QuietStep(s, e, s');
      ReachableStep(s, e, s');
      var rest, more := QuietPoolCanDrain(s');
      states, events := [s] + rest, [e] + more;
      forall i | 0 <= i < |events| ensures Works(states[i], events[i], states[i + 1]) && Step(states[i], events[i], states[i + 1]) {
        if i > 0 {
          assert states[i] == rest[i - 1] && events[i] == more[i - 1];
        }
      }
    }
  }

  lemma WorksIsStep(s: State, e: Event, s': State)
    requires Works(s, e, s')
    ensures Step(s, e, s') && !e.Reopen?
  {
  }
}
