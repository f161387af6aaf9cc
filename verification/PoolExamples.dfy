/** Concrete runs that show that conditions stated elsewhere cannot be dropped. */
module PoolExamples {
  import opened Wrappers
  import opened WorkerQueue
  import opened CondVar
  import opened Sums
  import opened PoolModel
  import opened PoolInvariant
  import opened PoolRuns
  import opened PoolShutdown
  import opened PoolLatch
  import opened PoolHope
  import opened PoolRest
  import opened PoolAsleep
  import opened PoolSpare

  /** A pool of one worker that does not purge. */
  const CFG := Config(1, false, false, 0, true)

  lemma CallerSteps(s: State, e: Event, s': State)
    requires Reachable(s) && CallerEvent(s, e, s')
    ensures Reachable(s')
  {
    hide Reachable, CallerEvent, WorkerEvent, ServiceEvent, AdminEvent, TuneEvent;
    ReachableStep(s, e, s');
  }

  lemma WorkerSteps(s: State, e: Event, s': State)
    requires Reachable(s) && WorkerEvent(s, e, s')
    ensures Reachable(s')
  {
    hide Reachable, CallerEvent, WorkerEvent, ServiceEvent, AdminEvent, TuneEvent;
    ReachableStep(s, e, s');
  }

  lemma AdminSteps(s: State, e: Event, s': State)
    requires Reachable(s) && AdminEvent(s, e, s')
    ensures Reachable(s')
  {
    hide Reachable, CallerEvent, WorkerEvent, ServiceEvent, AdminEvent, TuneEvent;
    ReachableStep(s, e, s');
  }

  lemma AdminReadsOn(s: State, onward: bool, s': State)
    requires Reachable(s) && AdminReads(s, onward) && s' == s.(admin := AdminGoes(s, onward))
    ensures Reachable(s')
  {
    hide Reachable;
    AdminSteps(s, AdminMove(onward), s');
  }

  lemma ServiceSteps(s: State, e: Event, s': State)
    requires Reachable(s) && ServiceEvent(s, e, s')
    ensures Reachable(s')
  {
    hide Reachable, CallerEvent, WorkerEvent, ServiceEvent, AdminEvent, TuneEvent;
    ReachableStep(s, e, s');
  }

  /** `release` on a pool with an empty queue and nobody parked, undisturbed, up to its zero test. */
  function AtZeroTest(s: State): State {
    s.(admin := AZero, purgeCancelled := true, tickCancelled := true)
  }

  lemma ReachesZeroTest(s: State)
    requires Reachable(s) && s.admin == AStopPurge && s.lock == None && s.queue == [] && s.cond.parked == 0
    ensures Reachable(AtZeroTest(s))
  {
    hide Reachable;
    var s1 := s.(admin := AStopTick, purgeCancelled := true);
    AdminSteps(s, CancelPurge, s1);
    var s2 := s1.(admin := AResetLock, tickCancelled := true);
    AdminSteps(s1, CancelTick, s2);
    ResetReturns(s2);
  }

  lemma ResetReturns(s2: State)
    requires Reachable(s2) && s2.admin == AResetLock && s2.lock == None && s2.queue == [] && s2.cond.parked == 0
    ensures Reachable(s2.(admin := AZero))
  {
    hide Reachable;
    var s3 := s2.(admin := AResetting, lock := Some(ByAdmin));
    AdminSteps(s2, ResetLock, s3);
    var s4 := s3.(admin := AWaking, lock := None);
    AdminSteps(s3, ResetEnd, s4);
    AdminSteps(s4, ReleaseBroadcast, s4.(admin := AZero));
  }

  /** The rest, with no worker running: the latch is closed. */
  function Released(s: State): State {
    s.(admin := AReleased, purgeCancelled := true, tickCancelled := true, closed := s.closed + {s.latch})
  }

  lemma ReleaseReturns(s: State)
    requires Reachable(s) && s.admin == AStopPurge && s.lock == None && s.queue == [] && s.cond.parked == 0
    requires s.running == 0
    ensures Reachable(Released(s))
  {
    hide Reachable;
    ReachesZeroTest(s);
    var s6 := AtZeroTest(s).(admin := AClosing);
    AdminReadsOn(AtZeroTest(s), true, s6);
    AdminSteps(s6, ReleaseLatch, Released(s));
  }

  lemma TickStops(s: State)
    requires Reachable(s) && s.tick.TWait? && s.tickCancelled
    ensures Reachable(s.(tick := TGone, tickDone := true))
  {
    hide Reachable;
    var s1 := s.(tick := TLeaving);
    ServiceSteps(s, TickMove, s1);
    ServiceSteps(s1, TickLeave, s.(tick := TGone, tickDone := true));
  }

  /** After `release_context` has returned `Ok` a worker may still appear: a call of `try_submit`
      passed the closed check before `release` and goes for the queue after it. */
  lemma OkIsNotAlwaysFinal() returns (s: State)
    ensures Reachable(s) && s.admin.AQuiet? && s.running == 0 && WorkerAppears(s)
  {
    hide Reachable, WorkerAppears;
    ReachableInitially(CFG);
    var s0 := Initial(CFG);
    var s1 := s0.(callers := map[0 := Start]);
    CallerSteps(s0, Submit(0, false), s1);
    var s2 := s0.(callers := map[0 := Ready]);
    CallerSteps(s1, CallerMove(0), s2);
    var s3 := s2.(admin := AStopPurge, open := false);
    AdminSteps(s2, Close, s3);
    ReleaseReturns(s3);
    TickStops(Released(s3));
    s := ContextReturns(Released(s3).(tick := TGone, tickDone := true));
    EmptyPoolStaysEmpty(s);
  }

  lemma ContextReturns(s: State) returns (s': State)
    requires Reachable(s) && s.admin == AReleased && s.latch in s.closed && s.running == 0 && s.tickDone
    requires s.cfg.disablePurge
    ensures Reachable(s') && s' == s.(admin := AQuiet)
  {
    hide Reachable;
    AdminReadsOn(s, false, s.(admin := APolling));
    AdminReadsOn(s.(admin := APolling), true, s.(admin := APollRunning));
    AdminReadsOn(s.(admin := APollRunning), true, s.(admin := APollPurge));
    AdminReadsOn(s.(admin := APollPurge), true, s.(admin := APollTick));
    s' := s.(admin := AQuiet);
    AdminReadsOn(s.(admin := APollTick), true, s');
  }

  /** A worker that saw the pool closed may load the latch only after `reboot` has replaced it, and
      then closes the latch of the pool in service. */
  lemma LatchMayBeClosedEarly() returns (s: State)
    ensures Reachable(s) && s.admin.AIdle? && s.open && s.latch !in s.closed && ClosesEarly(s)
  {
    hide Reachable, ClosesEarly;
    ReachableInitially(CFG);
    var s1 := GrowsWith(Initial(CFG), 0, true);
    var s2 := ExitsDuringRelease(s1, 0);
    s := RebootedUnder(s2, 0);
  }

  /** `release` and `reboot` run while a worker that saw the pool closed has not loaded the latch. */
  lemma RebootedUnder(s2: State, w: WorkerId) returns (s: State)
    requires Reachable(s2) && s2.admin == AStopPurge && s2.lock == None && s2.queue == [] && s2.cond.parked == 0
    requires s2.running == 0 && s2.tick.TWait? && s2.cfg.disablePurge && !s2.purgeDone
    requires w in s2.threads && s2.threads[w] == ExitLoad
    ensures Reachable(s) && s.admin.AIdle? && s.open && s.latch !in s.closed && ClosesEarly(s)
  {
    hide Reachable, ClosesEarly;
    ReleaseReturns(s2);
    TickStops(Released(s2));
    var s3 := Released(s2).(tick := TGone, tickDone := true);
    RebootReopens(s3);
    var s4 := s3.(admin := ANewLatch, open := true, tickCancelled := false, tick := TWait, tickDone := false);
    s := s4.(admin := AIdle, latch := s4.latch + 1);
    AdminSteps(s4, RenewLatch, s);
    assert w in s.threads && s.threads[w].ExitLoad?;
    FreshLatchStaysOpen(s4, s);
  }

  /** The only worker runs a stop sentinel and leaves `running`; `release` closes the pool before the
      worker tests for that. */
  lemma ExitsDuringRelease(s: State, w: WorkerId) returns (s': State)
    requires Reachable(s) && s.admin.AIdle? && s.open && s.running == 1
    requires w in s.threads && s.threads[w].Run? && s.threads[w].task in s.stops
    ensures Reachable(s') && w in s'.threads && s'.threads[w] == ExitLoad
    ensures s' == s.(threads := s'.threads, finished := s'.finished, running := 0, open := false, admin := AStopPurge)
  {
    hide Reachable;
    var s2 := RetiresToZero(s, w);
    var s3 := s2.(admin := AStopPurge, open := false);
    AdminSteps(s2, Close, s3);
    s' := Reads(s3, w, 0, ExitLoad);
  }

  lemma RebootReopens(s: State)
    requires Reachable(s) && s.admin == AReleased && s.latch in s.closed && s.tickDone
    requires s.cfg.disablePurge && !s.purgeDone
    ensures Reachable(s.(admin := ANewLatch, open := true, tickCancelled := false, tick := TWait, tickDone := false))
  {
    hide Reachable;
    PassesWaits(s);
    Reopening(s);
  }

  lemma Reopening(s: State)
    requires Reachable(s.(admin := AReopen)) && s.cfg.disablePurge && !s.purgeDone
    ensures Reachable(s.(admin := ANewLatch, open := true, tickCancelled := false, tick := TWait, tickDone := false))
  {
    hide Reachable;
    var r := s.(open := true);
    AdminSteps(s.(admin := AReopen), Reopen, r.(admin := APurgeFlag));
    PurgeStarts(r);
  }

  lemma PurgeStarts(r: State)
    requires Reachable(r.(admin := APurgeFlag)) && r.cfg.disablePurge && !r.purgeDone
    ensures Reachable(r.(admin := ANewLatch, tickCancelled := false, tick := TWait, tickDone := false))
  {
    hide Reachable;
    AdminSteps(r.(admin := APurgeFlag), ClearPurgeFlag, r.(admin := AGoPurge));
    AdminSteps(r.(admin := AGoPurge), StartPurge, r.(admin := ATickFlag));
    TickStarts(r);
  }

  lemma TickStarts(r: State)
    requires Reachable(r.(admin := ATickFlag))
    ensures Reachable(r.(admin := ANewLatch, tickCancelled := false, tick := TWait, tickDone := false))
  {
    hide Reachable;
    var t := r.(tickDone := false);
    AdminSteps(r.(admin := ATickFlag), ClearTickFlag, t.(admin := AGoTick));
    AdminSteps(t.(admin := AGoTick), StartTick, t.(admin := ANewLatch, tickCancelled := false, tick := TWait));
  }

  // ----- Stamps out of order -------------------------------------------------------------------

  /** The lock is free and there is room for a worker that must be made. */
  predicate CanGrow(s: State) {
    && s.open && s.lock == None && s.queue == [] && s.cache == [] && s.running < s.capacity
    && s.made !in s.threads && s.made !in s.chan
  }

  /** What the growth of the pool below leaves alone. */
  predicate Grown(s: State, s': State, c: CallerId) {
    && s'.cfg == s.cfg && s'.cond == s.cond && s'.open && s'.lock == None && s'.queue == [] && s'.cache == []
    && s'.capacity == s.capacity && s'.running == s.running + 1 && s'.made == s.made + 1
    && s'.admin == s.admin && s'.tick == s.tick && s'.latch == s.latch && s'.closed == s.closed && s'.purgeDone == s.purgeDone
    && s'.waiting == s.waiting && s'.signallers == s.signallers && s'.purge == s.purge
    && s'.callers == s.callers[c := Accepted(s.made)] && s'.chan.Keys == s.chan.Keys + {s.made}
  }

  /** A call of `try_submit` on a pool with room starts a worker for its task ... */
  lemma GrowsWith(s: State, c: CallerId, stop: bool) returns (s': State)
    requires Reachable(s) && CanGrow(s) && c !in s.callers && c !in s.stops
    ensures Reachable(s') && Grown(s, s', c) && s'.stops == if stop then s.stops + {c} else s.stops
    ensures s'.threads == s.threads[s.made := Run(c)]
  {
    hide Reachable;
    var s1 := s.(callers := s.callers[c := Start], stops := if stop then s.stops + {c} else s.stops);
    CallerSteps(s, Submit(c, stop), s1);
    var s2 := s1.(callers := s1.callers[c := Ready]);
    CallerSteps(s1, CallerMove(c), s2);
    var s3 := s2.(callers := s2.callers[c := Loop(false)], lock := Some(ByCaller(c)));
    CallerSteps(s2, CallerLock(c), s3);
    s' := FindsRoom(s3, c);
  }

  lemma FindsRoom(s: State, c: CallerId) returns (s': State)
    requires Reachable(s) && CanGrow(s.(lock := None)) && c in s.callers && s.callers[c] == Loop(false)
    ensures Reachable(s') && Grown(s, s', c) && s'.stops == s.stops
    ensures s'.threads == s.threads[s.made := Run(c)]
  {
    hide Reachable;
    var s3 := SeesRoom(s, c);
    s' := Makes(s3, c);
  }

  lemma SeesRoom(s: State, c: CallerId) returns (s': State)
    requires Reachable(s) && s.queue == [] && s.running < s.capacity && c in s.callers && s.callers[c] == Loop(false)
    ensures Reachable(s') && s' == s.(callers := s'.callers)
    ensures s'.callers == s.callers[c := Spawning(false, s.capacity)]
  {
    hide Reachable;
    var s1 := s.(callers := s.callers[c := Empty(false)]);
    CallerSteps(s, CallerMove(c), s1);
    var s2 := s1.(callers := s1.callers[c := Sized(false, s.capacity)]);
    CallerSteps(s1, CallerMove(c), s2);
    s' := s2.(callers := s2.callers[c := Spawning(false, s.capacity)]);
    CallerSteps(s2, CallerMove(c), s');
  }

  lemma Makes(s: State, c: CallerId) returns (s': State)
    requires Reachable(s) && CanGrow(s.(lock := None)) && c in s.callers && s.callers[c] == Spawning(false, s.capacity)
    ensures Reachable(s') && Grown(s, s', c) && s'.stops == s.stops
    ensures s'.threads == s.threads[s.made := Run(c)]
  {
    hide Reachable;
    var s1 := s.(callers := s.callers[c := Fetched(s.capacity, s.made)], made := s.made + 1);
    FetchesNew(s, s1, c);
    var s2 := s1.(callers := s1.callers[c := Holding(s.made)], threads := s1.threads[s.made := Recv],
                  running := s1.running + 1, lock := None);
    Starts(s1, s2, c, s.made);
    s' := HandsOver(s2, c, s.made);
  }

  lemma Starts(s: State, s': State, c: CallerId, w: WorkerId)
    requires Reachable(s) && c in s.callers && s.callers[c].Fetched? && s.callers[c].w == w
    requires s' == s.(callers := s.callers[c := Holding(w)], threads := s.threads[w := Recv],
                      running := s.running + 1, lock := None)
    ensures Reachable(s')
  {
    hide Reachable;
    CallerSteps(s, Spawn(c), s');
  }

  lemma FetchesNew(s: State, s': State, c: CallerId)
    requires Reachable(s) && s.cache == [] && c in s.callers && s.callers[c].Spawning?
    requires s' == s.(callers := s.callers[c := Fetched(s.callers[c].cap, s.made)], made := s.made + 1)
    ensures Reachable(s')
  {
    hide Reachable;
    CallerSteps(s, Fetch(c), s');
  }

  lemma HandsOver(s: State, c: CallerId, w: WorkerId) returns (s': State)
    requires Reachable(s) && c in s.callers && s.callers[c] == Holding(w) && w !in s.chan
    requires w in s.threads && s.threads[w] == Recv
    ensures Reachable(s') && s' == s.(callers := s'.callers, chan := s'.chan, threads := s.threads[w := Run(c)])
    ensures s'.callers == s.callers[c := Accepted(w)] && s'.chan.Keys == s.chan.Keys + {w}
  {
    hide Reachable;
    assert [] + [Payload(c)] == [Payload(c)];
    var s1 := s.(callers := s.callers[c := Accepted(w)], chan := Sent(s.chan, w, Payload(c)));
    CallerSteps(s, Deliver(c), s1);
    s' := ReceivesFirst(s1, c, w);
  }

  lemma ReceivesFirst(s1: State, c: CallerId, w: WorkerId) returns (s': State)
    requires Reachable(s1) && w in s1.chan && s1.chan[w] == [Payload(c)] && w in s1.threads && s1.threads[w] == Recv
    ensures Reachable(s') && s' == s1.(chan := s'.chan, threads := s1.threads[w := Run(c)])
    ensures s'.chan.Keys == s1.chan.Keys
  {
    hide Reachable;
    s' := s1.(threads := s1.threads[w := Run(c)], chan := s1.chan[w := s1.chan[w][1..]]);
    WorkerSteps(s1, Receive(w), s');
  }

  /** ... which runs it, goes back and stamps itself ... */
  lemma ComesBack(s: State, w: WorkerId, stamp: int) returns (s': State)
    requires Reachable(s) && s.open && s.running <= s.capacity
    requires w in s.threads && s.threads[w].Run? && s.threads[w].task !in s.stops
    ensures Reachable(s') && s' == s.(finished := s'.finished, threads := s'.threads)
    ensures s'.threads == s.threads[w := RevLock(stamp)]
  {
    hide Reachable;
    var s1 := s.(threads := s.threads[w := RevCap], finished := s.finished + multiset{s.threads[w].task});
    WorkerSteps(s, Complete(w, false), s1);
    var s2 := Reads(s1, w, 0, RevRun(s.capacity));
    var s3 := Reads(s2, w, 0, RevClosed);
    var s4 := Reads(s3, w, 0, RevStamp);
    s' := Reads(s4, w, stamp, RevLock(stamp));
  }

  lemma Reads(s: State, w: WorkerId, now: int, next: Thread) returns (s': State)
    requires Reachable(s) && w in s.threads && WorkerReads(s.threads[w], s)
    requires PoolModel.WorkerGoes(s.threads[w], s, now) == next
    ensures Reachable(s') && s' == s.(threads := s.threads[w := next])
  {
    hide Reachable;
    s' := s.(threads := s.threads[w := next]);
    WorkerSteps(s, WorkerMove(w, now), s');
  }

  /** ... before it takes the lock. */
  lemma GetsParked(s: State, w: WorkerId, stamp: int) returns (s': State)
    requires Reachable(s) && s.open && s.lock == None && !s.cfg.preAlloc && s.cond == NO_WAITERS
    requires forall c :: c in s.callers ==> !s.callers[c].Parked?
    requires w in s.threads && s.threads[w] == RevLock(stamp)
    ensures Reachable(s') && s' == s.(threads := s'.threads, queue := s.queue + [Worker(w, stamp)])
    ensures s'.threads == s.threads[w := Recv]
  {
    hide Reachable;
    var s1 := s.(threads := s.threads[w := RevCheck(stamp)], lock := Some(ByWorker(w)));
    WorkerSteps(s, WorkerLock(w), s1);
    var s2 := Reads(s1, w, 0, RevInsert(stamp));
    var s3 := s2.(threads := s2.threads[w := RevSignal], queue := s2.queue + [Worker(w, stamp)]);
    InsertsLast(s2, s3, w, stamp);
    s' := s3.(threads := s3.threads[w := Recv], lock := None);
    WorkerSteps(s3, Announce(w, None), s');
  }

  lemma InsertsLast(s: State, s': State, w: WorkerId, stamp: int)
    requires Reachable(s) && !s.cfg.preAlloc && w in s.threads && s.threads[w] == RevInsert(stamp)
    requires s' == s.(threads := s.threads[w := RevSignal], queue := s.queue + [Worker(w, stamp)])
    ensures Reachable(s')
  {
    hide Reachable;
    WorkerSteps(s, InsertWorker(w), s');
  }

  lemma NobodyParked(s: State)
    requires Reachable(s) && s.cond == NO_WAITERS
    ensures forall c :: c in s.callers ==> !s.callers[c].Parked?
  {
    hide Reachable, LockInv, LiveInv, WaitInv, LimitInv, CustodyInv, RegistryInv, CapacityInv, TaskInv, WakeInv, ResetInv, PurgeInv, TickInv, LatchInv;
    ReachableInv(s);
    forall c | c in s.callers ensures !s.callers[c].Parked? {
      SumAtLeast(s.callers, c, ParkedWeight);
    }
  }

  /** A worker stamps itself before it takes the lock, so two workers can be parked in the wrong
      order; `refresh` then keeps one that has expired. */
  lemma StampsMayBeOutOfOrder() returns (s: State)
    ensures Reachable(s) && s.open && s.lock == None && s.queue == [Worker(1, 2), Worker(0, 1)]
    ensures !Sorted(s.queue) && !Partitioned(s.queue, 1) && Expired(KindOf(s.cfg), s.queue, 1) == 0
  {
    hide Reachable;
    var cfg := Config(2, false, false, 0, true);
    ReachableInitially(cfg);
    var s1 := GrowsWith(Initial(cfg), 0, false);
    var s2 := GrowsWith(s1, 1, false);
    var s3 := ComesBack(s2, 0, 1);
    var s4 := ComesBack(s3, 1, 2);
    NobodyParked(s4);
    var s5 := GetsParked(s4, 1, 2);
    s := GetsParked(s5, 0, 1);
    assert s.queue[0].lastUsed == 2 && s.queue[1].lastUsed == 1;
  }

  // ----- A caller stranded on an empty pool ----------------------------------------------------

  /** A call that finds no room, up to the end of its reading. */
  lemma FindsFull(s: State, c: CallerId) returns (s': State)
    requires Reachable(s) && s.open && s.lock == None && s.queue == [] && 0 < s.capacity <= s.running && c !in s.callers
    ensures Reachable(s') && s' == s.(callers := s'.callers, lock := Some(ByCaller(c)))
    ensures s'.callers == s.callers[c := PoolModel.Full(false)]
  {
    hide Reachable;
    var s1 := s.(callers := s.callers[c := Start]);
    CallerSteps(s, Submit(c, false), s1);
    var s2 := s1.(callers := s1.callers[c := Ready]);
    CallerSteps(s1, CallerMove(c), s2);
    var s3 := s2.(callers := s2.callers[c := Loop(false)], lock := Some(ByCaller(c)));
    CallerSteps(s2, CallerLock(c), s3);
    s' := ReadsFull(s3, c);
  }

  lemma ReadsFull(s: State, c: CallerId) returns (s': State)
    requires Reachable(s) && s.queue == [] && 0 < s.capacity <= s.running
    requires c in s.callers && s.callers[c] == Loop(false)
    ensures Reachable(s') && s' == s.(callers := s'.callers) && s'.callers == s.callers[c := PoolModel.Full(false)]
  {
    hide Reachable;
    var s1 := s.(callers := s.callers[c := Empty(false)]);
    CallerSteps(s, CallerMove(c), s1);
    var s2 := s1.(callers := s1.callers[c := Sized(false, s.capacity)]);
    CallerSteps(s1, CallerMove(c), s2);
    s' := s2.(callers := s2.callers[c := PoolModel.Full(false)]);
    CallerSteps(s2, CallerMove(c), s');
  }

  /** The only worker of a pool in service runs a stop sentinel and ends, its last signal included;
      nobody is registered to hear it. */
  lemma EndsUnheard(s: State, w: WorkerId) returns (s': State)
    requires Reachable(s) && s.open && s.running == 1 && s.signallers == 0 && s.cond == NO_WAITERS
    requires w in s.threads && s.threads[w].Run? && s.threads[w].task in s.stops
    ensures Reachable(s') && s' == s.(threads := s'.threads, finished := s'.finished, cache := s'.cache, running := 0)
    ensures s'.threads == s.threads - {w}
  {
    hide Reachable;
    var s1 := s.(threads := s.threads[w := Exit], finished := s.finished + multiset{s.threads[w].task});
    WorkerSteps(s, Complete(w, false), s1);
    var s2 := s1.(threads := s1.threads[w := ExitZero], running := 0);
    WorkerSteps(s1, Retire(w), s2);
    var s3 := Reads(s2, w, 0, Recycle);
    s' := SignalsToNobody(s3, w);
  }

  lemma SignalsToNobody(s: State, w: WorkerId) returns (s': State)
    requires Reachable(s) && s.signallers == 0 && s.cond == NO_WAITERS
    requires w in s.threads && s.threads[w] == Recycle
    ensures Reachable(s') && s' == s.(threads := s.threads - {w}, cache := s.cache + [w])
  {
    hide Reachable;
    var s1 := s.(threads := s.threads - {w}, cache := s.cache + [w], signallers := 1);
    WorkerSteps(s, RecycleWorker(w), s1);
    s' := s.(threads := s.threads - {w}, cache := s.cache + [w]);
    WorkerSteps(s1, LateSignal(None), s');
  }

  /** The caller acts on what it read: it registers and goes to sleep. */
  lemma GoesToSleep(s: State, c: CallerId) returns (s': State)
    requires Reachable(s) && !Overloaded(s) && s.cond == NO_WAITERS
    requires c in s.callers && s.callers[c].Full?
    ensures Reachable(s') && s' == s.(callers := s'.callers, waiting := s.waiting + 1, cond := Waiters(1, 0, 0), lock := None)
    ensures s'.callers == s.callers[c := Parked(0, false)]
  {
    hide Reachable;
    var s1 := s.(callers := s.callers[c := Queuing], waiting := s.waiting + 1);
    CallerSteps(s, Queue(c), s1);
    var s2 := s1.(callers := s1.callers[c := Parked(0, true)], cond := Waiters(1, 0, 0), lock := None);
    CallerSteps(s1, Park(c), s2);
    s' := s2.(callers := s2.callers[c := Parked(0, false)]);
    CallerSteps(s2, Sleep(c), s');
  }

  /** On an open pool with no worker at all, below its capacity, with the lock free and no wake-up of
      any kind under way, a caller may be asleep. */
  lemma CallerMayBeStranded() returns (s: State)
    ensures Reachable(s) && s.open && s.lock == None && s.running == 0 && s.capacity == 1
    ensures s.threads == map[] && s.signallers == 0 && s.queue == [] && s.purge.PGone? && s.cond.tokens == 0
    ensures 1 in s.callers && Asleep(s.callers[1], s.cond.generation)
    ensures forall c :: c in s.callers ==> c == 1 || s.callers[c].Accepted?
    ensures !NothingStranded(s) && !Hopeful(s) && Lost(s)
  {
    hide Reachable, NothingStranded, Hopeful;
    ReachableInitially(CFG);
    var s1 := GrowsWith(Initial(CFG), 0, true);
    var s2 := FindsFull(s1, 1);
    var s3 := EndsUnheard(s2, 0);
    s := GoesToSleep(s3, 1);
    StrandedIsStranded(s);
  }

  lemma StrandedIsStranded(s: State)
    requires s.open && s.lock == None && s.running == 0 && s.capacity == 1 && s.threads == map[] && s.signallers == 0
    requires s.cond == Waiters(1, 0, 0) && 1 in s.callers && s.callers[1] == Parked(0, false)
    requires forall c :: c in s.callers ==> c == 1 || s.callers[c].Accepted?
    ensures !NothingStranded(s) && !Hopeful(s)
  {
    SumAtLeast(s.callers, 1, CurrentWeight(0));
    SumZero(s.callers, WokenWeight);
  }

  // ----- A latch closed while a worker runs ----------------------------------------------------

  /** `reboot` is past all its waits, the latch included, although a worker is running a task.  No call
      of `try_submit` was in flight when `release` was called, and none is now: a worker that had taken
      `running` to zero before the last call was served closed the latch. */
  lemma RebootMayMissAWorker() returns (s: State)
    ensures Reachable(s) && s.admin.AReopen? && s.latch in s.closed && s.running == 1
    ensures 1 in s.threads && s.threads[1] == Run(1) && forall c :: c in s.callers ==> s.callers[c].Accepted?
  {
    hide Reachable;
    ReachableInitially(CFG);
    var s1 := GrowsWith(Initial(CFG), 0, true);
    var s2 := RetiresToZero(s1, 0);
    var s3 := GrowsWith(s2, 1, false);
    var s4 := ClosesUnseen(s3, 0);
    s := RebootWaitsNotFor(s4);
  }

  lemma RebootWaitsNotFor(s: State) returns (s': State)
    requires Reachable(s) && s.admin == AStopPurge && s.lock == None && s.queue == [] && s.cond.parked == 0 && s.running > 0
    requires s.latch in s.closed && s.tick.TWait? && s.cfg.disablePurge
    ensures Reachable(s') && s' == s.(admin := AReopen, purgeCancelled := true, tickCancelled := true, tick := TGone, tickDone := true)
  {
    hide Reachable;
    ReachesZeroTest(s);
    var s5 := AtZeroTest(s).(admin := AReleased);
    AdminReadsOn(AtZeroTest(s), true, s5);
    TickStops(s5);
    var s6 := s5.(tick := TGone, tickDone := true);
    PassesWaits(s6);
    s' := s6.(admin := AReopen);
  }

  /** The only worker runs a stop sentinel and leaves `running`. */
  lemma RetiresToZero(s: State, w: WorkerId) returns (s': State)
    requires Reachable(s) && s.running == 1
    requires w in s.threads && s.threads[w].Run? && s.threads[w].task in s.stops
    ensures Reachable(s') && s' == s.(threads := s'.threads, finished := s'.finished, running := 0)
    ensures s'.threads == s.threads[w := ExitZero]
  {
    hide Reachable;
    var s1 := s.(threads := s.threads[w := Exit], finished := s.finished + multiset{s.threads[w].task});
    WorkerSteps(s, Complete(w, false), s1);
    s' := s1.(threads := s1.threads[w := ExitZero], running := 0);
    WorkerSteps(s1, Retire(w), s');
  }

  /** After the closing of the pool it finds it closed and closes the latch. */
  lemma ClosesUnseen(s: State, w: WorkerId) returns (s': State)
    requires Reachable(s) && s.admin.AIdle? && s.open && w in s.threads && s.threads[w] == ExitZero
    ensures Reachable(s')
    ensures s' == s.(threads := s'.threads, closed := s.closed + {s.latch}, admin := AStopPurge, open := false)
    ensures s'.threads == s.threads[w := Recycle]
  {
    hide Reachable;
    var s1 := s.(admin := AStopPurge, open := false);
    AdminSteps(s, Close, s1);
    s' := ClosesTheLatch(s1, w);
  }

  /** From the closed test of the epilogue on a closed pool to the close of the latch. */
  lemma ClosesTheLatch(s: State, w: WorkerId) returns (s': State)
    requires Reachable(s) && !s.open && w in s.threads && s.threads[w] == ExitZero
    ensures Reachable(s') && s' == s.(threads := s'.threads, closed := s.closed + {s.latch})
    ensures s'.threads == s.threads[w := Recycle]
  {
    hide Reachable;
    var s2 := Reads(s, w, 0, ExitLoad);
    var s3 := Reads(s2, w, 0, ExitClose(s.latch));
    s' := s3.(threads := s3.threads[w := Recycle], closed := s3.closed + {s.latch});
    WorkerSteps(s3, CloseLatch(w), s');
  }

  lemma PassesWaits(s: State)
    requires Reachable(s) && s.admin == AReleased && s.latch in s.closed && s.tickDone && s.cfg.disablePurge
    ensures Reachable(s.(admin := AReopen))
  {
    hide Reachable;
    AdminReadsOn(s, true, s.(admin := AWaitLatch));
    AdminReadsOn(s.(admin := AWaitLatch), true, s.(admin := AWaitPurge));
    AdminReadsOn(s.(admin := AWaitPurge), true, s.(admin := AWaitTick));
    AdminReadsOn(s.(admin := AWaitTick), true, s.(admin := AReopen));
  }

  // ----- A caller asleep on a released pool ----------------------------------------------------

  /** `release_context` has answered `Ok`, no worker is left, and a caller sleeps in the wait with nothing
      to let it go but a reopening or `tune`: it passed the closed check before `release` and entered the
      wait after the broadcast, when the last signal of the last worker had been sent. */
  lemma CallerMaySleepAfterRelease() returns (s: State)
    ensures Reachable(s) && !s.open && s.admin.AQuiet? && s.latch in s.closed && s.running == 0 && AtRest(s)
    ensures 1 in s.callers && Asleep(s.callers[1], s.cond.generation) && !LetGo(s, 1)
    ensures forall c :: c in s.callers ==> c == 1 || s.callers[c].Accepted?
  {
    hide Reachable, LetGo, AtRest;
    ReachableInitially(CFG);
    var s1 := GrowsWith(Initial(CFG), 0, true);
    var s2 := ReleasedUnder(s1, 1);
    var s3 := ReadsFull(s2, 1);
    var s4 := EndsUnheardClosed(s3, 0);
    var s5 := GoesToSleep(s4, 1);
    TickStops(s5);
    s := ContextReturns(s5.(tick := TGone, tickDone := true));
    SleeperIsAtRest(s);
    LetGoExactly(s, 1);
  }

  lemma SleeperIsAtRest(s: State)
    requires s.threads == map[] && s.signallers == 0 && s.purge.PGone? && s.tick.TGone? && s.admin.AQuiet?
    requires s.cond == Waiters(1, 0, 0) && 1 in s.callers && s.callers[1] == Parked(0, false)
    requires forall c :: c in s.callers ==> c == 1 || s.callers[c].Accepted?
    ensures AtRest(s)
  {
  }

  /** A call passes the closed check; then `release` runs until it returns, and the call takes the lock. */
  lemma ReleasedUnder(s: State, c: CallerId) returns (s': State)
    requires Reachable(s) && s.open && s.admin.AIdle? && s.lock == None && s.queue == [] && s.cond.parked == 0 && s.running > 0
    requires c !in s.callers
    ensures Reachable(s') && s'.callers == s.callers[c := Loop(false)]
    ensures s' == s.(callers := s'.callers, open := false, admin := AReleased, purgeCancelled := true, tickCancelled := true,
                     lock := Some(ByCaller(c)))
  {
    hide Reachable;
    var s2 := PassesCheck(s, c);
    var s4 := ReleasedBusy(s2);
    s' := s4.(callers := s4.callers[c := Loop(false)], lock := Some(ByCaller(c)));
    CallerSteps(s4, CallerLock(c), s');
    assert s'.callers == s.callers[c := Loop(false)];
  }

  lemma PassesCheck(s: State, c: CallerId) returns (s': State)
    requires Reachable(s) && s.open && c !in s.callers
    ensures Reachable(s') && s' == s.(callers := s.callers[c := Ready])
  {
    hide Reachable;
    var s1 := s.(callers := s.callers[c := Start]);
    CallerSteps(s, Submit(c, false), s1);
    s' := s.(callers := s.callers[c := Ready]);
    CallerSteps(s1, CallerMove(c), s');
  }

  /** `release` on a pool with a worker running, undisturbed. */
  lemma ReleasedBusy(s: State) returns (s': State)
    requires Reachable(s) && s.open && s.admin.AIdle? && s.lock == None && s.queue == [] && s.cond.parked == 0 && s.running > 0
    ensures Reachable(s')
    ensures s' == s.(open := false, admin := AReleased, purgeCancelled := true, tickCancelled := true)
  {
    hide Reachable;
    var s3 := s.(admin := AStopPurge, open := false);
    AdminSteps(s, Close, s3);
    ReachesZeroTest(s3);
    s' := AtZeroTest(s3).(admin := AReleased);
    AdminReadsOn(AtZeroTest(s3), true, s');
  }

  /** The only worker of a closed pool runs a stop sentinel, closes the latch and ends; nobody is
      registered to hear its signal. */
  lemma EndsUnheardClosed(s: State, w: WorkerId) returns (s': State)
    requires Reachable(s) && !s.open && s.running == 1 && s.signallers == 0 && s.cond == NO_WAITERS
    requires w in s.threads && s.threads[w].Run? && s.threads[w].task in s.stops
    ensures Reachable(s') && s' == s.(threads := s'.threads, finished := s'.finished, cache := s'.cache, running := 0,
                                      closed := s.closed + {s.latch})
    ensures s'.threads == s.threads - {w}
  {
    hide Reachable;
    var s2 := RetiresToZero(s, w);
    var s3 := ClosesTheLatch(s2, w);
    s' := SignalsToNobody(s3, w);
  }
}
