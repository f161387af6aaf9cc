/** A closed pool comes to its end, from the moment `release` has swapped the state. */
module PoolClosing {
  import opened Wrappers
  import opened WorkerQueue
  import opened CondVar
  import opened Sums
  import opened PoolModel
  import opened PoolInvariant
  import opened PoolFrames
  import opened PoolFootprints
  import opened PoolRuns

  // ----- The measure ---------------------------------------------------------------------------

  /** How many steps at most separate a worker thread of a closed pool from its end; an insertion adds
      an idle worker, which counts for one. */
  function Rank(t: Thread): nat {
    match t
    case RevInsert(_) => 17
    case RevSignal => 15
    case Recv => 14
    case Run(_) => 13
    case RevCap => 12
    case RevRun(_) => 11
    case RevClosed => 10
    case RevStamp => 9
    case RevLock(_) => 8
    case RevCheck(_) => 7
    case RevBcast => 7
    case Exit => 6
    case ExitZero => 5
    case ExitLoad => 4
    case ExitClose(_) => 3
    case Recycle => 2
  }

  /** The same for a caller that has passed the closed check, the worker it may spawn included. */
  function CallerRank(p: Caller): nat {
    match p
    case Start => 0
    case Ready => 21
    case Loop(_) => 20
    case Empty(_) => 19
    case Sized(_, _) => 18
    case Spawning(_, _) => 17
    case Fetched(_, _) => 16
    case Full(_) => 6
    case Queuing => 5
    case Parked(_, _) => 4
    case Woken => 3
    case Relocked => 2
    case Uncounted => 1
    case Holding(_) => 1
    case Accepted(_) => 0
    case Rejected(_) => 0
  }

  function PurgeRank(p: Purge): nat {
    match p
    case PLocking => 8
    case PRefreshing => 7
    case PCounting(stale) => 6 + |stale|
    case PFinishing(stale, _) => 5 + |stale|
    case PBroadcasting => 4
    case PWait => 3
    case PChecking => 2
    case PLeaving => 1
    case PGone => 0
  }

  function TickRank(t: Ticktock): nat {
    match t
    case TWait => 2
    case TLeaving => 1
    case TGone => 0
  }

  /** What `release` still has to do. */
  function AdminRank(a: Admin): nat {
    if a.AStopPurge? then 7 else if a.AStopTick? then 6 else if a.AResetLock? then 5 else if a.AResetting? then 4
    else if a.AWaking? then 3 else if a.AZero? then 2 else if a.AClosing? then 1 else 0
  }

  ghost function Measure(s: State): nat {
    Sum(s.threads, Rank) + Sum(s.callers, CallerRank) + |s.queue| + s.signallers
    + PurgeRank(s.purge) + TickRank(s.tick) + AdminRank(s.admin)
  }

  /** A step of a worker thread, of the purge thread or of the ticktock thread. */
  ghost predicate Works(s: State, e: Event, s': State) {
    WorkerEvent(s, e, s') || ServiceEvent(s, e, s')
  }

  /** A step that brings a closed pool closer to its end: any step of a worker or of a service thread,
      any step of `release`, and any step of a call that has passed the closed check, except that a
      blocked caller may look and go to sleep again. */
  ghost predicate Progress(s: State, e: Event, s': State) {
    || Works(s, e, s')
    || (CallerEvent(s, e, s') && Counted(s, e))
    || (AdminEvent(s, e, s') && AdminRank(s.admin) > 0)
  }

  predicate Counted(s: State, e: Event) {
    !e.Submit? && !e.Sleep? && !e.Spurious? && !(e.CallerMove? && e.c in s.callers && s.callers[e.c].Start?)
  }

  // ----- Callers -------------------------------------------------------------------------------

  /** One caller goes to a lower rank, and nothing else counts for more. */
  ghost predicate CallerStepsDown(s: State, s': State, c: CallerId) {
    && c in s.callers && c in s'.callers && s'.callers == s.callers[c := s'.callers[c]]
    && CallerRank(s'.callers[c]) < CallerRank(s.callers[c]) && |s'.queue| <= |s.queue|
  }

  lemma RetrievalStepsDown(s: State, e: Event, s': State)
    requires CallerEvent(s, e, s') && !s.open && Counted(s, e)
    requires e.CallerMove? || e.CallerLock? || e.DetachWorker? || e.Fetch? || e.Bail?
    ensures CallerStepsDown(s, s', e.c)
  {
  }

  lemma WaitStepsDown(s: State, e: Event, s': State)
    requires CallerEvent(s, e, s') && !s.open
    requires e.Queue? || e.Park? || e.Leave? || e.Uncount? || e.Resume? || e.Deliver?
    ensures CallerStepsDown(s, s', e.c)
  {
  }

  lemma CallerProgress(s: State, e: Event, s': State)
    requires CallerEvent(s, e, s') && !s.open && Counted(s, e) && !e.Spawn?
    ensures Measure(s') < Measure(s)
  {
    hide Submits, CallerMoves, CallerTakesLock, Detaches, Fetches, Spawns, Bails, Queues, Parks, Sleeps, Leaves, Uncounts, Resumes, Delivers, WakesSpuriously;
    CallersTouch(s, e, s');
    if e.Queue? || e.Park? || e.Leave? || e.Uncount? || e.Resume? || e.Deliver? {
      WaitStepsDown(s, e, s');
    } else {
      RetrievalStepsDown(s, e, s');
    }
    SumPut(s.callers, e.c, s'.callers[e.c], CallerRank);
  }

  lemma SpawnProgress(s: State, s': State, c: CallerId)
    requires RegistryInv(s.made, s.cache, s.callers, s.threads)
    requires Spawns(s, s', c)
    ensures Measure(s') < Measure(s)
  {
    SpawnIsNew(s, c);
    SpawnRanks(s, s', c, s.callers[c].w);
    hide Sum, RegistryInv;
  }

  lemma SpawnRanks(s: State, s': State, c: CallerId, w: WorkerId)
    requires c in s.callers && s.callers[c].Fetched? && w !in s.threads
    requires s'.callers == s.callers[c := Holding(w)] && s'.threads == s.threads[w := Recv]
    ensures Sum(s'.callers, CallerRank) + Sum(s'.threads, Rank) < Sum(s.callers, CallerRank) + Sum(s.threads, Rank)
  {
    SumPut(s.callers, c, Holding(w), CallerRank);
    SumPut(s.threads, w, Recv, Rank);
  }

  /** The steps of a caller that do not count change no rank. */
  ghost predicate SameRank(s: State, s': State, c: CallerId) {
    && c in s'.callers && s'.callers == s.callers[c := s'.callers[c]] && s'.queue == s.queue
    && CallerRank(s'.callers[c]) == if c in s.callers then CallerRank(s.callers[c]) else 0
  }

  lemma StartsAreIdle(s: State, e: Event, s': State)
    requires CallerEvent(s, e, s') && !s.open && !Counted(s, e) && !e.Sleep? && !e.Spurious?
    ensures SameRank(s, s', e.c)
  {
  }

  lemma IdleCallerSteps(s: State, e: Event, s': State)
    requires CallerEvent(s, e, s') && !s.open && !Counted(s, e)
    ensures Measure(s') == Measure(s)
  {
    hide Submits, CallerMoves;
    CallersTouch(s, e, s');
    if e.Sleep? || e.Spurious? {
      assert SameRank(s, s', e.c);
    } else {
      StartsAreIdle(s, e, s');
    }
    hide CallerEvent;
    SumPut(s.callers, e.c, s'.callers[e.c], CallerRank);
  }

  // ----- Workers -------------------------------------------------------------------------------

  ghost predicate StepsDown(s: State, s': State, w: WorkerId) {
    && w in s.threads && w in s'.threads && s'.threads == s.threads[w := s'.threads[w]]
    && Rank(s'.threads[w]) < Rank(s.threads[w])
    && s'.signallers == s.signallers && s'.queue == s.queue && s'.callers == s.callers
  }

  lemma ReadersStepDown(s: State, s': State, w: WorkerId, now: int)
    requires WorkerMoves(s, s', w, now) && !s.open
    ensures StepsDown(s, s', w)
  {
  }

  lemma WorkersStepDown(s: State, e: Event, s': State)
    requires WorkerEvent(s, e, s')
    requires e.Receive? || e.Complete? || e.GiveUp? || e.WorkerLock? || e.Refuse? || e.Retire? || e.CloseLatch?
    ensures StepsDown(s, s', e.w)
  {
  }

  lemma StepDownMeasure(s: State, s': State, w: WorkerId)
    requires StepsDown(s, s', w) && s'.purge == s.purge && s'.tick == s.tick && s'.admin == s.admin
    ensures Measure(s') < Measure(s)
  {
    SumPut(s.threads, w, s'.threads[w], Rank);
  }

  lemma InsertMeasure(s: State, s': State, w: WorkerId)
    requires Inserts(s, s', w)
    ensures Measure(s') < Measure(s)
  {
    SumPut(s.threads, w, s'.threads[w], Rank);
  }

  lemma NotifiedMeasure(s: State, wake: Option<CallerId>)
    requires MayNotify(s.cond, s.callers, wake)
    ensures Sum(Notified(s.cond, s.callers, wake), CallerRank) == Sum(s.callers, CallerRank)
  {
    if wake.Some? {
      SumPut(s.callers, wake.value, Parked(s.cond.generation, true), CallerRank);
    }
  }

  lemma AnnounceMeasure(s: State, s': State, w: WorkerId, wake: Option<CallerId>)
    requires Announces(s, s', w, wake)
    ensures Measure(s') < Measure(s)
  {
    NotifiedMeasure(s, wake);
    SumPut(s.threads, w, s'.threads[w], Rank);
  }

  lemma RecycleMeasure(s: State, s': State, w: WorkerId)
    requires Recycles(s, s', w)
    ensures Measure(s') < Measure(s)
  {
    SumRemove(s.threads, w, Rank);
  }

  lemma LateSignalMeasure(s: State, s': State, wake: Option<CallerId>)
    requires SignalsLate(s, s', wake)
    ensures Measure(s') < Measure(s)
  {
    NotifiedMeasure(s, wake);
  }

  lemma WorkerProgress(s: State, e: Event, s': State)
    requires !s.open && WorkerEvent(s, e, s')
    ensures Measure(s') < Measure(s)
  {
    hide Measure, StepsDown;
    hide WorkerMoves, Receives, Completes, GivesUp, WorkerTakesLock, IsRefused, Inserts, Announces, Retires, ClosesLatch, Recycles, SignalsLate;
    if e.RecycleWorker? {
      RecycleMeasure(s, s', e.w);
    } else if e.LateSignal? {
      LateSignalMeasure(s, s', e.wake);
    } else if e.InsertWorker? {
      InsertMeasure(s, s', e.w);
    } else if e.Announce? {
      AnnounceMeasure(s, s', e.w, e.wake);
    } else {
      WorkersTouch(s, e, s');
      if e.WorkerMove? {
        ReadersStepDown(s, s', e.w, e.now);
      } else {
        WorkersStepDown(s, e, s');
      }
      StepDownMeasure(s, s', e.w);
    }
  }

  // ----- Service threads, `release` and `tune` -------------------------------------------------

  lemma ServiceProgress(s: State, e: Event, s': State)
    requires !s.open && ServiceEvent(s, e, s')
    ensures PurgeRank(s'.purge) + TickRank(s'.tick) + |s'.queue| < PurgeRank(s.purge) + TickRank(s.tick) + |s.queue|
  {
    hide Sent, Expired, Handed;
    if e.RefreshQueue? {
      RefreshProgress(s, s', e.split, e.expiry);
    }
  }

  /** What leaves the queue goes to the list of the purge thread. */
  lemma RefreshProgress(s: State, s': State, split: nat, expiry: int)
    requires Refreshes(s, s', split, expiry)
    ensures PurgeRank(s'.purge) + |s'.queue| < PurgeRank(s.purge) + |s.queue| && s'.tick == s.tick
  {
  }

  lemma ServiceMeasure(s: State, e: Event, s': State)
    requires !s.open && ServiceEvent(s, e, s')
    ensures Measure(s') < Measure(s)
  {
    hide ServiceEvent;
    ServicesTouch(s, e, s');
    ServiceProgress(s, e, s');
  }

  ghost predicate ReleaseStep(s: State, s': State) {
    && AdminRank(s'.admin) + |s'.queue| <= AdminRank(s.admin) + |s.queue|
    && (AdminRank(s.admin) > 0 ==> AdminRank(s'.admin) + |s'.queue| < AdminRank(s.admin) + |s.queue|)
  }

  lemma ReleaseReads(s: State, s': State, onward: bool)
    requires AdminMoves(s, s', onward)
    ensures ReleaseStep(s, s')
  {
  }

  lemma ReleaseActs(s: State, e: Event, s': State)
    requires AdminEvent(s, e, s')
    requires e.CancelPurge? || e.CancelTick? || e.ResetLock? || e.ResetOne? || e.ResetEnd? || e.ReleaseBroadcast? || e.ReleaseLatch?
    ensures ReleaseStep(s, s')
  {
    hide Sent, CanSend, Broadcasted;
  }

  lemma ReleaseStepsDown(s: State, e: Event, s': State)
    requires AdminEvent(s, e, s') && Closed(s.admin) && !e.Reopen?
    ensures ReleaseStep(s, s')
  {
    hide ReleaseStep, AdminMoves, CancelsPurge, CancelsTick, ResetTakesLock, ResetsOne, ResetEnds, ReleaseBroadcasts, ReleaseClosesLatch;
    if e.AdminMove? {
      ReleaseReads(s, s', e.onward);
    } else {
      ReleaseActs(s, e, s');
    }
  }

  lemma AdminMeasure(s: State, e: Event, s': State)
    requires AdminEvent(s, e, s') && Closed(s.admin) && !e.Reopen?
    ensures Measure(s') <= Measure(s) && (AdminRank(s.admin) > 0 ==> Measure(s') < Measure(s))
  {
    hide AdminEvent;
    AdminsTouch(s, e, s');
    ReleaseStepsDown(s, e, s');
  }

  lemma TunersKeepQueue(s: State, e: Event, s': State)
    requires TuneEvent(s, e, s')
    ensures s'.queue == s.queue
    ensures if e.TuneSignalEvent? then MayNotify(s.cond, s.callers, e.wake) && s'.callers == Notified(s.cond, s.callers, e.wake)
            else s'.callers == s.callers
  {
    hide MayNotify, Notified;
  }

  lemma TuneMeasure(s: State, e: Event, s': State)
    requires TuneEvent(s, e, s')
    ensures Measure(s') == Measure(s)
  {
    hide TuneEvent;
    TunersTouch(s, e, s');
    TunersKeepQueue(s, e, s');
    if e.TuneSignalEvent? {
      NotifiedMeasure(s, e.wake);
    }
  }

  // ----- Every step ----------------------------------------------------------------------------

  lemma OnlyReopenOpens(s: State, e: Event, s': State)
    requires Step(s, e, s') && !s.open && !e.Reopen?
    ensures !s'.open
  {
    hide CallerEvent, WorkerEvent, ServiceEvent, AdminEvent, TuneEvent;
    if CallerEvent(s, e, s') {
      CallersTouch(s, e, s');
    } else if WorkerEvent(s, e, s') {
      WorkersTouch(s, e, s');
    } else if ServiceEvent(s, e, s') {
      ServicesTouch(s, e, s');
    } else if AdminEvent(s, e, s') {
      AdminsTouch(s, e, s');
    } else {
      TunersTouch(s, e, s');
    }
  }

  lemma CallerMeasure(s: State, e: Event, s': State)
    requires Inv(s) && !s.open && CallerEvent(s, e, s')
    ensures Measure(s') <= Measure(s) && (Counted(s, e) ==> Measure(s') < Measure(s))
  {
    hide LockInv, LiveInv, CondInv, WaitInv, LimitInv, CustodyInv, RegistryInv, CapacityInv, TaskInv, WakeInv, ResetInv, PurgeInv, TickInv, LatchInv;
    hide Measure, CallerEvent, Counted;
    if !Counted(s, e) {
      IdleCallerSteps(s, e, s');
    } else if e.Spawn? {
      CallersTouch(s, e, s');
      SpawnProgress(s, s', e.c);
    } else {
      CallerProgress(s, e, s');
    }
  }

  /** Until `reboot` reopens it, no step raises the measure of a closed pool, and every step that is
      progress lowers it. */
  lemma ClosedStep(s: State, e: Event, s': State)
    requires Inv(s) && !s.open && Step(s, e, s') && !e.Reopen?
    ensures !s'.open && Measure(s') <= Measure(s)
    ensures Progress(s, e, s') ==> Measure(s') < Measure(s)
  {
    hide Measure, Counted, CallerEvent, WorkerEvent, ServiceEvent, AdminEvent, TuneEvent;
    hide LockInv, LiveInv, CondInv, WaitInv, LimitInv, CustodyInv, RegistryInv, CapacityInv, TaskInv, WakeInv, PurgeInv, TickInv, LatchInv;
    OnlyReopenOpens(s, e, s');
    if WorkerEvent(s, e, s') {
      WorkerProgress(s, e, s');
    } else if ServiceEvent(s, e, s') {
      ServiceMeasure(s, e, s');
    } else if CallerEvent(s, e, s') && Counted(s, e) {
      CallerMeasure(s, e, s');
    } else if AdminEvent(s, e, s') && AdminRank(s.admin) > 0 {
      AdminMeasure(s, e, s');
    } else if CallerEvent(s, e, s') {
      CallerMeasure(s, e, s');
    } else if AdminEvent(s, e, s') {
      AdminMeasure(s, e, s');
    } else {
      TuneMeasure(s, e, s');
    }
  }

  /** The number of steps in a stretch of a run that are progress. */
  ghost function ProgressMade(states: seq<State>, events: seq<Event>, i: nat, j: nat): nat
    requires |states| == |events| + 1 && i <= j < |states|
    decreases j - i
  {
    if i == j then 0
    else ProgressMade(states, events, i, j - 1) + if Progress(states[j - 1], events[j - 1], states[j]) then 1 else 0
  }

  /** Over every run from a closed state, as long as nobody reopens the pool, the steps of workers,
      service threads, `release` and callers on their way through are bounded by the measure. */
  lemma {:induction false} ClosedPoolTakesBoundedSteps(states: seq<State>, events: seq<Event>, i: nat, j: nat)
    requires IsRun(states, events) && i <= j < |states|
    requires Inv(states[i]) && !states[i].open
    requires forall k :: i <= k < j ==> !events[k].Reopen?
    ensures Inv(states[j]) && !states[j].open
    ensures Measure(states[j]) + ProgressMade(states, events, i, j) <= Measure(states[i])
    decreases j - i
  {
    hide Step, Measure, Progress, Inv;
    if i < j {
      ClosedPoolTakesBoundedSteps(states, events, i, j - 1);
      ClosedStep(states[j - 1], events[j - 1], states[j]);
      StepKeeps(states[j - 1], events[j - 1], states[j]);
    }
  }
}
