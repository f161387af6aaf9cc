/** Blocked callers and whatever may still wake them.  Before `release`, and whatever `tune` does, a
    caller that waits is left without hope exactly by a registration that finds no worker and no
    wake-up under way. */
module PoolHope {
  import opened Wrappers
  import opened Sums
  import opened PoolModel
  import opened PoolInvariant
  import opened PoolFrames
  import opened PoolFootprints
  import opened PoolRuns
  import opened PoolOwnership
  import opened PoolSpare

  /** A live worker will insert itself or retire, and signal either way; anything else under way is a
      wake-up already. */
  ghost predicate Helped(s: State) {
    s.running > 0 || UnderWay(s.cond, s.callers, s.threads, s.signallers) > 0
  }

  /** Whoever waits without a token has a live worker, a wake-up under way, or a lock holder who will
      start a worker or signal. */
  ghost predicate Hopeful(s: State) {
    Waiting(s.open, s.cond, s.callers) ==> Helped(s) || Seeking(s.lock, s.callers, s.threads)
  }

  /** The same as a bound on room: pretend that there is room for just one worker. */
  function Bare(s: State): State {
    s.(queue := [], capacity := 1)
  }

  lemma HopefulIsBound(s: State)
    requires s.running >= 0
    ensures Hopeful(s) <==> NothingStranded(Bare(s))
    ensures Helped(s) <==> ParkFits(Bare(s))
  {
  }

  lemma LiveMeansRunning(s: State, w: WorkerId)
    requires LiveInv(s.running, s.threads) && w in s.threads && Live(s.threads[w])
    ensures s.running > 0
  {
    SumAtLeast(s.threads, w, LiveWeight);
  }

  lemma IdleMeansRunning(s: State)
    requires LiveInv(s.running, s.threads) && CustodyInv(s.queue, s.callers, s.chan, s.purge, s.threads)
    requires s.queue != []
    ensures s.running > 0
  {
    var w := s.queue[0].id;
    assert Custody(s.queue, s.callers, s.chan, s.purge, w) <= 1;
    LiveMeansRunning(s, w);
  }

  // ----- Callers -------------------------------------------------------------------------------

  /** The parts of the invariant that count here, with no worker running. */
  ghost predicate Empty(s: State) {
    && LockInv(s.lock, s.callers, s.threads, s.purge, s.admin) && CondInv(s.cond, s.callers)
    && RegistryInv(s.made, s.cache, s.callers, s.threads)
    && s.running == 0 && s.queue == [] && s.open
    && forall c :: c in s.callers && s.callers[c].Sized? ==> s.callers[c].cap == -1 || s.callers[c].cap > 0
  }

  /** With no worker running, a caller that seeks goes on seeking until it has started one. */
  lemma RetrievalHopes(s: State, e: Event, s': State)
    requires Empty(s) && Hopeful(s) && CallerEvent(s, e, s')
    requires e.Submit? || e.CallerMove? || e.Fetch? || e.Bail? || e.Queue? || e.Deliver?
    ensures Hopeful(s')
  {
    HopefulIsBound(s);
    var c := e.c;
    CallerMovesOnly(s, e, s');
    CallerSums(s.callers, c, s'.callers[c], s.cond.generation);
  }

  lemma CallerMovesOnly(s: State, e: Event, s': State)
    requires Empty(s) && CallerEvent(s, e, s')
    requires e.Submit? || e.CallerMove? || e.Fetch? || e.Bail? || e.Queue? || e.Deliver?
    ensures e.c in s'.callers && s'.callers == s.callers[e.c := s'.callers[e.c]]
    ensures s'.running == s.running && s'.cond == s.cond && s'.threads == s.threads && s'.signallers == s.signallers
    ensures s'.open == s.open && (s'.lock == s.lock || (s'.lock == None && s.lock == Some(ByCaller(e.c)) && s.callers[e.c].Full?))
    ensures !s'.callers[e.c].Parked? && !s'.callers[e.c].Woken?
    ensures e.c in s.callers ==> !s.callers[e.c].Parked? && !s.callers[e.c].Woken?
    ensures e.c in s.callers && Seeks(s.callers[e.c]) ==> Seeks(s'.callers[e.c])
  {
  }

  lemma TakesLockHopes(s: State, s': State, c: CallerId)
    requires Empty(s) && Hopeful(s) && CallerTakesLock(s, s', c)
    ensures Hopeful(s')
  {
  }

  lemma WaitHopes(s: State, e: Event, s': State)
    requires Empty(s) && Hopeful(s) && CallerEvent(s, e, s')
    requires e.Sleep? || e.Leave? || e.Uncount? || e.Resume? || e.Spurious?
    ensures Hopeful(s')
  {
    HopefulIsBound(s);
    HopefulIsBound(s');
    if e.Sleep? || e.Spurious? {
      SleepSpare(Bare(s), Bare(s'), e.c);
    } else if e.Leave? {
      LeaveSpare(Bare(s), Bare(s'), e.c);
    } else {
      AfterWaitSpare(Bare(s), Bare(s'), e.c);
    }
  }

  /** A registration leaves whoever waits with hope exactly if it finds a worker or a wake-up. */
  lemma ParkHopes(s: State, s': State, c: CallerId)
    requires s.running >= 0 && s.open && CondInv(s.cond, s.callers) && Parks(s, s', c)
    ensures Hopeful(s') <==> Helped(s)
  {
    HopefulIsBound(s);
    HopefulIsBound(s');
    ParkSpare(Bare(s), Bare(s'), c);
  }

  // ----- Workers -------------------------------------------------------------------------------

  lemma ReaderHopes(s: State, s': State, w: WorkerId, now: int)
    requires Empty(s) && Hopeful(s) && WorkerMoves(s, s', w, now) && Retired(s.threads[w])
    ensures Hopeful(s')
  {
    HopefulIsBound(s);
    HopefulIsBound(s');
    ThreadSpare(Bare(s), w, s'.threads[w], s.lock);
  }

  lemma CloserHopes(s: State, s': State, w: WorkerId)
    requires Empty(s) && Hopeful(s) && ClosesLatch(s, s', w)
    ensures Hopeful(s')
  {
    HopefulIsBound(s);
    HopefulIsBound(s');
    CloseLatchSpare(Bare(s), Bare(s'), w);
  }

  lemma RecyclerHopes(s: State, s': State, w: WorkerId)
    requires Empty(s) && Hopeful(s) && Recycles(s, s', w)
    ensures Hopeful(s')
  {
    HopefulIsBound(s);
    HopefulIsBound(s');
    RecycleSpare(Bare(s), Bare(s'), w);
  }

  lemma SignallerHopes(s: State, s': State, wake: Option<CallerId>)
    requires Empty(s) && Hopeful(s) && SignalsLate(s, s', wake)
    ensures Hopeful(s')
  {
    hide MayNotify, Notified;
    HopefulIsBound(s);
    HopefulIsBound(s');
    LateSignalSpare(Bare(s), Bare(s'), wake);
  }

  /** The last worker to leave `running` will signal. */
  lemma RetireHopes(s: State, s': State, w: WorkerId)
    requires Retires(s, s', w)
    ensures Hopeful(s')
  {
    SumAtLeast(s'.threads, w, RetiredWeight);
  }

  /** Any other step of a worker is one of a live worker. */
  lemma LiveWorkersMove(s: State, e: Event, s': State)
    requires LiveInv(s.running, s.threads) && WorkerEvent(s, e, s') && !e.LateSignal?
    requires !e.CloseLatch? && !e.RecycleWorker? && !(e.WorkerMove? && e.w in s.threads && Retired(s.threads[e.w]))
    ensures s.running > 0
  {
    LiveMeansRunning(s, e.w);
  }

  lemma WorkersHope(s: State, e: Event, s': State)
    requires Inv(s) && Hopeful(s) && WorkerEvent(s, e, s') && (s.running == 0 ==> Empty(s))
    ensures s'.running > 0 || Hopeful(s')
  {
    hide Inv, Empty, Hopeful, WorkerMoves, Receives, Completes, GivesUp, WorkerTakesLock, IsRefused, Inserts, Announces, Retires, ClosesLatch, Recycles, SignalsLate;
    Running(s);
    if e.Retire? {
      RetireHopes(s, s', e.w);
    } else if s.running > 0 {
      OnlyRetireLowers(s, e, s');
    } else if e.CloseLatch? {
      CloserHopes(s, s', e.w);
    } else if e.RecycleWorker? {
      RecyclerHopes(s, s', e.w);
    } else if e.LateSignal? {
      SignallerHopes(s, s', e.wake);
    } else {
      if !(e.WorkerMove? && e.w in s.threads && Retired(s.threads[e.w])) {
        LiveWorkersMove(s, e, s');
      }
      ReaderHopes(s, s', e.w, e.now);
    }
  }

  lemma Running(s: State)
    requires Inv(s)
    ensures s.running >= 0 && LiveInv(s.running, s.threads)
  {
    hide LockInv, CondInv, WaitInv, LimitInv, CustodyInv, RegistryInv, CapacityInv, TaskInv, WakeInv, ResetInv, PurgeInv, TickInv, LatchInv;
  }

  // ----- The purge thread and tune -------------------------------------------------------------

  lemma ServicesHope(s: State, e: Event, s': State)
    requires Empty(s) && Hopeful(s) && ServiceEvent(s, e, s')
    ensures Hopeful(s')
  {
    ServicesTouch(s, e, s');
    hide ServiceTouches;
    HopefulIsBound(s);
    HopefulIsBound(s');
    if e.PurgeBroadcast? {
      hide LockInv, NothingStranded;
      BroadcastSpare(Bare(s), Bare(s'));
    } else {
      ServicesOnlyShrink(s, e, s');
      hide ServiceEvent, NothingStranded;
      FewerIdleSpare(Bare(s), Bare(s'));
    }
  }

  lemma TunersHope(s: State, e: Event, s': State)
    requires Empty(s) && Hopeful(s) && TuneEvent(s, e, s')
    ensures Hopeful(s')
  {
    HopefulIsBound(s);
    HopefulIsBound(s');
    hide MayNotify, Notified;
    if e.TuneBroadcast? {
      hide NothingStranded;
      BroadcastSpare(Bare(s), Bare(s'));
    } else if e.TuneSignalEvent? {
      hide NothingStranded;
      SignalSpare(Bare(s), Bare(s'), e.wake, 0);
    }
  }

  // ----- Whole runs ----------------------------------------------------------------------------

  lemma CallersHope(s: State, e: Event, s': State)
    requires Empty(s) && Hopeful(s) && CallerEvent(s, e, s') && (e.Park? ==> Helped(s)) && !e.Spawn?
    ensures Hopeful(s')
  {
    hide Empty, Hopeful, Helped, Submits, CallerMoves, CallerTakesLock, Fetches, Bails, Queues, Parks, Sleeps, Leaves, Uncounts, Resumes, Delivers, WakesSpuriously;
    if e.CallerLock? {
      TakesLockHopes(s, s', e.c);
    } else if e.Park? {
      EmptyParks(s, s', e.c);
    } else if e.DetachWorker? {
      NobodyDetaches(s, s', e.c);
    } else if e.Sleep? || e.Leave? || e.Uncount? || e.Resume? || e.Spurious? {
      WaitHopes(s, e, s');
    } else {
      RetrievalHopes(s, e, s');
    }
  }

  lemma NobodyDetaches(s: State, s': State, c: CallerId)
    requires Empty(s)
    ensures !Detaches(s, s', c)
  {
  }

  lemma EmptyParks(s: State, s': State, c: CallerId)
    requires Empty(s) && Parks(s, s', c) && Helped(s)
    ensures Hopeful(s')
  {
    ParkHopes(s, s', c);
  }

  lemma EmptyParts(s: State)
    requires Inv(s) && s.admin.AIdle? && s.running == 0
    ensures Empty(s)
  {
    hide LockInv, LiveInv, CondInv, WaitInv, LimitInv, CustodyInv, RegistryInv, TaskInv, WakeInv, PurgeInv, TickInv, LatchInv;
    if s.queue != [] {
      IdleMeansRunning(s);
    }
  }

  lemma HopeStep(s: State, e: Event, s': State)
    requires Inv(s) && s.admin.AIdle? && Hopeful(s) && Step(s, e, s') && !e.Close? && (e.Park? ==> Helped(s))
    ensures Hopeful(s')
  {
    hide Inv, Empty, Hopeful, Helped, CallerEvent, WorkerEvent, ServiceEvent, AdminEvent, TuneEvent;
    StepKeeps(s, e, s');
    Running(s');
    Running(s);
    if s'.running > 0 {
      RunningIsHope(s');
    } else if WorkerEvent(s, e, s') {
      if s.running == 0 {
        EmptyParts(s);
      }
      WorkersHope(s, e, s');
    } else if AdminEvent(s, e, s') {
      AdminsTouch(s, e, s');
    } else {
      OthersKeepRunning(s, e, s');
      EmptyParts(s);
      if CallerEvent(s, e, s') {
        CallersHope(s, e, s');
      } else if ServiceEvent(s, e, s') {
        ServicesHope(s, e, s');
      } else {
        TunersHope(s, e, s');
      }
    }
  }

  lemma RunningIsHope(s: State)
    requires s.running > 0
    ensures Hopeful(s)
  {
  }

  /** Callers, service threads and `tune` do not lower `running`; only a spawn raises it. */
  lemma OthersKeepRunning(s: State, e: Event, s': State)
    requires CallerEvent(s, e, s') || ServiceEvent(s, e, s') || TuneEvent(s, e, s')
    requires s.running >= 0 && s'.running <= 0
    ensures s.running == 0 && !(CallerEvent(s, e, s') && e.Spawn?)
  {
    hide CallerEvent, ServiceEvent, TuneEvent;
    if CallerEvent(s, e, s') {
      CallersTouch(s, e, s');
    } else if ServiceEvent(s, e, s') {
      ServicesTouch(s, e, s');
    } else {
      TunersTouch(s, e, s');
    }
  }

  /** Every caller that registers to wait finds a live worker or a wake-up under way. */
  ghost predicate ParksHelped(states: seq<State>, events: seq<Event>, j: nat)
    requires |states| == |events| + 1 && j <= |events|
  {
    forall i :: 0 <= i < j && events[i].Park? ==> Helped(states[i])
  }

  lemma {:induction false} HopeRun(cfg: Config, states: seq<State>, events: seq<Event>, j: nat)
    requires IsPoolRun(cfg, states, events) && j < |states|
    requires forall i :: 0 <= i < j ==> !events[i].Close?
    ensures Inv(states[j]) && states[j].admin.AIdle?
    ensures ParksHelped(states, events, j) ==> Hopeful(states[j])
    decreases j
  {
    hide Step, Inv, Hopeful, Helped;
    if j == 0 {
      InitialInv(cfg);
      InitiallyHopeful(cfg);
    } else {
      HopeRun(cfg, states, events, j - 1);
      StaysInService(states[j - 1], events[j - 1], states[j]);
      StepKeeps(states[j - 1], events[j - 1], states[j]);
      if ParksHelped(states, events, j) {
        HopeStep(states[j - 1], events[j - 1], states[j]);
      }
    }
  }

  lemma InitiallyHopeful(cfg: Config)
    ensures Hopeful(Initial(cfg))
  {
  }

  /** Over every run before `release`, whatever `tune` does: whoever waits without a token has a live
      worker or a wake-up under way in every state if and only if every caller that registered found
      one. */
  lemma HopeIsLostExactly(cfg: Config, states: seq<State>, events: seq<Event>, j: nat)
    requires IsPoolRun(cfg, states, events) && j < |states|
    requires forall i :: 0 <= i < j ==> !events[i].Close?
    ensures ParksHelped(states, events, j) <==> forall i :: 0 <= i <= j ==> Hopeful(states[i])
  {
    hide Step, Inv, Hopeful, Helped;
    if ParksHelped(states, events, j) {
      forall i | 0 <= i <= j ensures Hopeful(states[i]) {
        HopeRun(cfg, states, events, i);
      }
    }
    if forall i :: 0 <= i <= j ==> Hopeful(states[i]) {
      forall i | 0 <= i < j && events[i].Park? ensures Helped(states[i]) {
        HopeRun(cfg, states, events, i);
        ParkIsStep(states[i], events[i], states[i + 1]);
        ParkInService(states[i], states[i + 1], events[i].c);
      }
    }
  }

  lemma ParkInService(s: State, s': State, c: CallerId)
    requires Inv(s) && s.admin.AIdle? && Parks(s, s', c)
    ensures Hopeful(s') <==> Helped(s)
  {
    hide Parks, Hopeful, Helped, LockInv, WaitInv, LimitInv, CustodyInv, RegistryInv, CapacityInv, TaskInv, WakeInv, PurgeInv, TickInv, LatchInv;
    ParkHopes(s, s', c);
  }

  /** In numbers, with the lock free: a worker is running, or tokens, callers already woken, late
      signals and retired workers are not all zero. */
  lemma HopeInNumbers(s: State, c: CallerId)
    requires Hopeful(s) && s.open && s.lock == None && s.cond.parked > s.cond.tokens
    requires c in s.callers && s.callers[c].Parked? && s.callers[c].since == s.cond.generation
    ensures s.running > 0 || s.cond.tokens + |Where(s.callers, IsWoken)| + s.signallers + |Where(s.threads, Retired)| > 0
  {
    SumAtLeast(s.callers, c, CurrentWeight(s.cond.generation));
    UnderWayCounts(s);
  }

  // ----- Hope lost for good --------------------------------------------------------------------

  /** An open pool without workers, late signals, purge thread or calls on their way, and without tokens. */
  ghost predicate Lost(s: State) {
    && s.open && s.admin.AIdle? && s.threads == map[] && s.signallers == 0 && s.purge.PGone? && s.cond.tokens == 0
    && forall c :: c in s.callers ==>
         if s.callers[c].Parked? then s.callers[c].since == s.cond.generation
         else s.callers[c].Accepted? || s.callers[c].Rejected?
  }

  /** No new call, no `release`, and no wake-up by `tune`. */
  predicate NoHelp(e: Event) {
    !e.Submit? && !e.Close? && !e.TuneSignalEvent? && !e.TuneBroadcast?
  }

  lemma RetrievalIsLost(s: State, e: Event, s': State)
    requires Lost(s) && (e.CallerMove? || e.CallerLock? || e.DetachWorker? || e.Fetch? || e.Spawn? || e.Bail?)
    ensures !CallerEvent(s, e, s')
  {
  }

  lemma WaitIsLost(s: State, e: Event, s': State)
    requires Lost(s) && CallerEvent(s, e, s')
    requires e.Queue? || e.Park? || e.Sleep? || e.Leave? || e.Uncount? || e.Resume? || e.Deliver? || e.Spurious?
    ensures Lost(s') && forall c :: c in s.callers && s.callers[c].Parked? ==> c in s'.callers && s'.callers[c].Parked?
  {
  }

  lemma LostStep(s: State, e: Event, s': State)
    requires Lost(s) && Step(s, e, s') && NoHelp(e)
    ensures Lost(s') && forall c :: c in s.callers && s.callers[c].Parked? ==> c in s'.callers && s'.callers[c].Parked?
  {
    hide CallerEvent, WorkerEvent, ServiceEvent, AdminEvent, TuneEvent;
    if CallerEvent(s, e, s') {
      LostCallers(s, e, s');
    } else if WorkerEvent(s, e, s') {
      NoWorkerLeft(s, e, s');
    } else if ServiceEvent(s, e, s') {
      LostServices(s, e, s');
    } else if AdminEvent(s, e, s') {
      AdminsTouch(s, e, s');
    } else {
      LostTuners(s, e, s');
    }
  }

  lemma LostCallers(s: State, e: Event, s': State)
    requires Lost(s) && CallerEvent(s, e, s') && !e.Submit?
    ensures Lost(s') && forall c :: c in s.callers && s.callers[c].Parked? ==> c in s'.callers && s'.callers[c].Parked?
  {
    hide Lost, CallerMoves, CallerTakesLock, Detaches, Fetches, Spawns, Bails, Queues, Parks, Sleeps, Leaves, Uncounts, Resumes, Delivers, WakesSpuriously;
    if e.CallerMove? || e.CallerLock? || e.DetachWorker? || e.Fetch? || e.Spawn? || e.Bail? {
      RetrievalIsLost(s, e, s');
    } else {
      WaitIsLost(s, e, s');
    }
  }

  lemma LostServices(s: State, e: Event, s': State)
    requires Lost(s) && ServiceEvent(s, e, s')
    ensures Lost(s') && s'.callers == s.callers
  {
  }

  lemma LostTuners(s: State, e: Event, s': State)
    requires Lost(s) && TuneEvent(s, e, s') && NoHelp(e)
    ensures Lost(s') && s'.callers == s.callers
  {
  }

  /** Nobody gets out of the wait of such a pool until somebody calls `try_submit` or `release`, or `tune`
      wakes callers up. */
  lemma {:induction false} LostForGood(states: seq<State>, events: seq<Event>, j: nat, c: CallerId)
    requires IsRun(states, events) && j < |states| && Lost(states[0])
    requires forall i :: 0 <= i < j ==> NoHelp(events[i])
    requires c in states[0].callers && states[0].callers[c].Parked?
    ensures Lost(states[j]) && c in states[j].callers && states[j].callers[c].Parked?
    decreases j
  {
    hide Step, Lost;
    if j > 0 {
      LostForGood(states, events, j - 1, c);
      LostStep(states[j - 1], events[j - 1], states[j]);
    }
  }
}
