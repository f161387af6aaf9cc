/** Calls that come too late for the broadcast of `release`: when one of them can be left asleep. */
module PoolLate {
  import opened Wrappers
  import opened CondVar
  import opened Sums
  import opened PoolModel
  import opened PoolInvariant
  import opened PoolFootprints
  import opened PoolRuns
  import opened PoolDelivery
  import opened PoolWaiting
  import opened PoolCapacity
  import opened PoolSpare
  import opened PoolClosing
  import opened PoolRest
  import opened PoolPaths
  import opened PoolReach
  import opened PoolAsleep

  predicate IsLate(p: Caller) {
    p.Ready?
  }

  /** The calls that have passed the closed check and not gone for the lock. */
  ghost function Latecomers(s: State): set<CallerId> {
    Where(s.callers, IsLate)
  }

  /** Holds the lock on its way to a worker or into the wait. */
  predicate Inside(p: Caller) {
    p.Loop? || p.Empty? || p.Sized? || p.Spawning? || p.Fetched? || p.Full? || p.Queuing?
  }

  ghost predicate NobodyInside(s: State) {
    forall c :: c in s.callers ==> !Inside(s.callers[c])
  }

  /** Every caller in the wait has been let go by a broadcast, as just after that of `release`. */
  ghost predicate NobodyCurrent(s: State) {
    forall c :: c in s.callers && s.callers[c].Parked? ==> s.callers[c].since < s.cond.generation
  }

  predicate MayBlock(cfg: Config) {
    !cfg.nonblocking && cfg.maxBlocking >= 0
  }

  /** Some run from here, without a reopening and without any effect of `tune`, ends with a caller in the
      wait and nobody left to let it go. */
  ghost predicate Strands(s: State) {
    exists t :: Reaches(s, t, Untuned) && Forsaken(t) && exists c :: c in t.callers && t.callers[c].Parked?
  }

  ghost predicate Poised(s: State) {
    Reachable(s) && !s.open && NobodyInside(s) && NobodyCurrent(s)
  }

  // ----- Everybody but the latecomers goes as far as possible ----------------------------------

  ghost predicate SameStakes(s: State, s': State) {
    s'.cfg == s.cfg && s'.capacity == s.capacity && s'.running == s.running && Latecomers(s') == Latecomers(s)
  }

  lemma AdvancesAreUntuned(s: State, e: Event, s': State)
    requires Advances(s, e, s')
    ensures Untuned(e)
  {
    hide CallerEvent, WorkerEvent, ServiceEvent, AdminEvent;
    if CallerEvent(s, e, s') {
      CallersAreUntuned(s, e, s');
    } else if WorkerEvent(s, e, s') {
      WorkersAreUntuned(s, e, s');
    } else if ServiceEvent(s, e, s') {
      ServicesAreUntuned(s, e, s');
    } else {
      ReleaseIsUntuned(s, e, s');
    }
  }

  lemma ServicesAreUntuned(s: State, e: Event, s': State)
    requires ServiceEvent(s, e, s')
    ensures Untuned(e)
  {
  }

  lemma ReleaseIsUntuned(s: State, e: Event, s': State)
    requires AdminEvent(s, e, s') && AdminRank(s.admin) > 0
    ensures Untuned(e)
  {
  }

  /** What becomes of a single caller. */
  lemma AdvanceMovesCaller(s: State, e: Event, s': State, c: CallerId)
    requires !s.open && NobodyInside(s) && NobodyCurrent(s) && Step(s, e, s') && Advances(s, e, s') && c in s'.callers
    ensures !Inside(s'.callers[c])
    ensures s'.callers[c].Parked? ==> s'.callers[c].since < s'.cond.generation
    ensures s'.callers[c].Ready? <==> c in s.callers && s.callers[c].Ready?
  {
    hide Step, Advances;
    StepStart(s, e, s');
    StepGenerationGrows(s, e, s');
    if c in s.callers {
      StepFollows(s, e, s', c);
      if s.callers[c].Ready? {
        AdvanceLeavesReady(s, e, s', c);
      }
    }
  }

  lemma AdvanceKeepsRunning(s: State, e: Event, s': State)
    requires NobodyInside(s) && Advances(s, e, s') && !e.Retire?
    ensures s'.running == s.running
  {
    hide CallerEvent, WorkerEvent, ServiceEvent, AdminEvent;
    if CallerEvent(s, e, s') {
      CallersTouch(s, e, s');
    } else if WorkerEvent(s, e, s') {
      OnlyRetireLowers(s, e, s');
    } else if ServiceEvent(s, e, s') {
      ServicesTouch(s, e, s');
    } else {
      AdminsTouch(s, e, s');
    }
  }

  lemma GatherStep(s: State, e: Event, s': State)
    requires Poised(s) && Advances(s, e, s') && !e.Retire?
    ensures Poised(s') && SameStakes(s, s') && Measure(s') < Measure(s) && Step(s, e, s') && Untuned(e)
  {
    hide Reachable, Advances, Progress, Step, Inv, Measure, Inside;
    ReachableInv(s);
    AdvanceIsStep(s, e, s');
    AdvancesAreUntuned(s, e, s');
    ReachableStep(s, e, s');
    AdvanceIsProgress(s, e, s');
    ClosedStep(s, e, s');
    AdvanceKeepsRunning(s, e, s');
    StepSized(s, e, s');
    forall c | c in s'.callers
      ensures !Inside(s'.callers[c]) && (s'.callers[c].Parked? ==> s'.callers[c].since < s'.cond.generation)
      ensures s'.callers[c].Ready? <==> c in s.callers && s.callers[c].Ready?
    {
      AdvanceMovesCaller(s, e, s', c);
    }
    forall c | c in s.callers && s.callers[c].Ready? ensures c in s'.callers {
      AdvanceLeavesReady(s, e, s', c);
    }
  }

  lemma AdvanceIsProgress(s: State, e: Event, s': State)
    requires Advances(s, e, s')
    ensures Progress(s, e, s')
  {
  }

  lemma {:induction false} Gathering(s: State) returns (g: State)
    requires Poised(s)
    ensures Reaches(s, g, Untuned) && Poised(g) && Gathered(g) && SameStakes(s, g)
    decreases Measure(s)
  {
    hide Poised, Gathered, Reaches, Advances, Step, Measure, CanGather, SameStakes;
    if Gathered(s) {
      g := s;
      ReachesItself(s, Untuned);
      StakesAreSame(s);
    } else {
      PoisedCanGather(s);
      var e, s' := NextGathering(s);
      GatherStep(s, e, s');
      ReachesItself(s, Untuned);
      ReachesOn(s, s, e, s', Untuned);
      g := Gathering(s');
      ReachesTrans(s, s', g, Untuned);
      StakesStaySame(s, s', g);
    }
  }

  lemma NextGathering(s: State) returns (e: Event, s': State)
    requires CanGather(s)
    ensures Advances(s, e, s') && !e.Retire?
  {
    hide Advances;
    e, s' :| Advances(s, e, s') && !e.Retire?;
  }

  lemma PoisedCanGather(s: State)
    requires Poised(s) && !Gathered(s)
    ensures CanGather(s)
  {
    hide Reachable, CanGather, Gathered;
    GatheringIsNotStuck(s);
  }

  lemma StakesAreSame(s: State)
    ensures SameStakes(s, s)
  {
  }

  lemma StakesStaySame(s: State, t: State, u: State)
    requires SameStakes(s, t) && SameStakes(t, u)
    ensures SameStakes(s, u)
  {
  }

  // ----- One latecomer fewer, or one worker fewer ----------------------------------------------

  predicate Outside(p: Caller) {
    p.Start? || p.Ready? || p.Accepted? || p.Rejected?
  }

  ghost predicate AllOutside(s: State) {
    forall c :: c in s.callers ==> Outside(s.callers[c])
  }

  lemma GatheredCallers(g: State)
    requires NobodyInside(g) && NobodyCurrent(g) && Gathered(g)
    ensures AllOutside(g)
  {
  }

  /** Whoever holds the lock has a program counter that says so. */
  lemma HolderIsKnown(s: State)
    requires LockInv(s.lock, s.callers, s.threads, s.purge, s.admin)
    ensures
      || s.lock == None || PurgeLocks(s.purge) || s.admin.AResetting?
      || (exists c :: c in s.callers && CallerLocks(s.callers[c]))
      || (exists w :: w in s.threads && ThreadLocks(s.threads[w]))
  {
    match s.lock
    case None =>
    case Some(ByCaller(c)) => assert c in s.callers && CallerLocks(s.callers[c]);
    case Some(ByWorker(w)) => assert w in s.threads && ThreadLocks(s.threads[w]);
    case Some(ByPurge) => assert PurgeLocks(s.purge);
    case Some(ByAdmin) => assert s.admin.AResetting?;
  }

  lemma GatheredLock(g: State)
    requires LockInv(g.lock, g.callers, g.threads, g.purge, g.admin) && AllOutside(g) && Gathered(g)
    ensures g.lock == None
  {
    hide LockInv;
    HolderIsKnown(g);
    forall c | c in g.callers ensures !CallerLocks(g.callers[c]) {
      assert Outside(g.callers[c]);
    }
  }

  lemma NobodyWaits(g: State)
    requires CondInv(g.cond, g.callers) && WaitInv(g.waiting, g.callers) && AllOutside(g)
    ensures g.cond.parked == 0 && g.cond.tokens == 0 && g.waiting == 0
  {
    SumZero(g.callers, ParkedWeight);
    SumZero(g.callers, WaitingWeight);
    SumCompare(g.callers, AwakeWeight(g.cond.generation), ParkedWeight);
  }

  lemma SomebodyRuns(g: State)
    requires LiveInv(g.running, g.threads) && g.running > 0
    ensures g.threads != map[]
  {
  }

  /** What a gathered pool with nobody current in the wait looks like. */
  lemma GatheredPool(g: State)
    requires Poised(g) && Gathered(g)
    ensures g.lock == None && g.queue == [] && Closed(g.admin) && AllOutside(g)
    ensures g.cond.parked == 0 && g.cond.tokens == 0 && g.waiting == 0
    ensures g.running > 0 ==> g.threads != map[]
  {
    hide Reachable, AllOutside, LockInv, CondInv, WaitInv, LiveInv, CustodyInv, LimitInv, CapacityInv, RegistryInv, TaskInv, WakeInv, PurgeInv, TickInv, LatchInv;
    ReachableInv(g);
    GatheredCallers(g);
    GatheredLock(g);
    NobodyWaits(g);
    ClosedParts(g);
    if g.running > 0 {
      SomebodyRuns(g);
    }
  }

  lemma LatecomerServed(g: State, d: CallerId) returns (s': State)
    requires Poised(g) && Gathered(g) && d in g.callers && g.callers[d].Ready? && Roomy(g)
    ensures Reaches(g, s', Untuned) && Poised(s') && s'.cfg == g.cfg && s'.capacity == g.capacity
    ensures s'.running == g.running + 1 && Latecomers(s') == Latecomers(g) - {d}
  {
    hide Reachable, Reaches, Gathered, Started;
    GatheredPool(g);
    s' := StartsWorker(g, d);
    StartedTells(g, s', Fresh(g));
    ReachesStaysReachable(g, s', Untuned);
  }

  lemma StartedTells(s: State, s': State, w: WorkerId)
    requires Started(s, s', w)
    ensures s' == s.(callers := s'.callers, threads := s'.threads, running := s.running + 1, lock := None,
                     cache := s'.cache, made := s'.made)
  {
  }

  lemma WorkerRetired(g: State) returns (s': State)
    requires Poised(g) && Gathered(g) && g.running > 0
    ensures Reaches(g, s', Untuned) && Poised(s') && s'.cfg == g.cfg && s'.capacity == g.capacity
    ensures s'.running == g.running - 1 && Latecomers(s') == Latecomers(g)
  {
    hide Reachable, Reaches;
    GatheredPool(g);
    var w :| w in g.threads;
    ReachesItself(g, Untuned);
    s' := RetirerGoesOn(g, g, w);
    ReachesStaysReachable(g, s', Untuned);
  }

  // ----- The last latecomer --------------------------------------------------------------------

  /** A call has found the pool full, and nobody but the workers at their end can still do anything. */
  ghost predicate Alone(s: State, c: CallerId) {
    && !s.open && Closed(s.admin) && AdminRank(s.admin) == 0 && s.purge.PGone? && s.tick.TGone?
    && s.cond.parked == 0 && s.cond.tokens == 0 && s.waiting == 0 && MayBlock(s.cfg)
    && c in s.callers && s.callers[c].Full? && s.lock == Some(ByCaller(c))
    && (forall d :: d in s.callers && d != c ==> s.callers[d].Start? || s.callers[d].Accepted? || s.callers[d].Rejected?)
    && (forall w :: w in s.threads ==> Going(s.threads[w]))
  }

  ghost function Ends(s: State): nat {
    Sum(s.threads, Rank) + s.signallers
  }

  /** The workers end and signal; there is nobody yet to hear it. */
  lemma {:induction false} WorkersEnd(r: State, s: State, c: CallerId) returns (s': State)
    requires Reaches(r, s, Untuned) && Alone(s, c)
    ensures Reaches(r, s', Untuned) && Alone(s', c) && s'.threads == map[] && s'.signallers == 0
    decreases Ends(s)
  {
    hide Reaches;
    if s.signallers > 0 {
      var s1 := s.(signallers := s.signallers - 1);
      WorkerOn(r, s, LateSignal(None), s1);
      s' := WorkersEnd(r, s1, c);
    } else if s.threads != map[] {
      var w :| w in s.threads;
      var s1 := WorkerStepsDown(r, s, w);
      s' := WorkersEnd(r, s1, c);
    } else {
      s' := s;
    }
  }

  lemma WorkerStepsDown(r: State, s: State, w: WorkerId) returns (s': State)
    requires Reaches(r, s, Untuned) && !s.open && w in s.threads && Going(s.threads[w])
    requires forall v :: v in s.threads ==> Going(s.threads[v])
    ensures Reaches(r, s', Untuned) && Ends(s') < Ends(s)
    ensures s' == s.(threads := s'.threads, running := s'.running, closed := s'.closed, cache := s'.cache, signallers := s'.signallers)
    ensures forall v :: v in s'.threads ==> Going(s'.threads[v])
  {
    hide Reaches;
    if s.threads[w].Recycle? {
      s' := s.(threads := s.threads - {w}, cache := s.cache + [w], signallers := s.signallers + 1);
      WorkerOn(r, s, RecycleWorker(w), s');
      SumRemove(s.threads, w, Rank);
    } else {
      s' := GoesOn(r, s, w);
      SumPut(s.threads, w, s'.threads[w], Rank);
    }
  }

  /** Then the call registers and goes to sleep. */
  lemma SleepsForGood(r: State, s: State, c: CallerId) returns (t: State)
    requires Reaches(r, s, Untuned) && Alone(s, c) && s.threads == map[] && s.signallers == 0
    ensures Reaches(r, t, Untuned) && Forsaken(t) && c in t.callers && t.callers[c].Parked?
  {
    hide Reaches;
    var g := s.cond.generation;
    var s1 := s.(callers := s.callers[c := Queuing], waiting := 1);
    CallerOn(r, s, Event.Queue(c), s1);
    var s2 := s1.(callers := s1.callers[c := Parked(g, true)], cond := Registered(s1.cond), lock := None);
    CallerOn(r, s1, Park(c), s2);
    t := s2.(callers := s2.callers[c := Parked(g, false)]);
    CallerOn(r, s2, Event.Sleep(c), t);
  }

  lemma LastLatecomerSleeps(g: State, c: CallerId) returns (t: State)
    requires Poised(g) && Gathered(g) && Latecomers(g) == {c} && 0 < g.capacity <= g.running && MayBlock(g.cfg)
    ensures Reaches(g, t, Untuned) && Forsaken(t) && c in t.callers && t.callers[c].Parked?
  {
    hide Reaches, Reachable;
    GatheredPool(g);
    assert c in Latecomers(g);
    var s := ReadsOn(g, c);
    assert forall d :: d in g.callers && g.callers[d].Ready? ==> d in Latecomers(g);
    var s1 := WorkersEnd(g, s, c);
    t := SleepsForGood(g, s1, c);
  }

  lemma StrandsVia(s: State, t: State)
    requires Reaches(s, t, Untuned) && Strands(t)
    ensures Strands(s)
  {
    hide Reaches, Forsaken;
    var u :| Reaches(t, u, Untuned) && Forsaken(u) && exists c :: c in u.callers && u.callers[c].Parked?;
    ReachesTrans(s, t, u, Untuned);
  }

  /** More latecomers than room: they are served, or workers retired, until one latecomer finds the pool
      full and all workers end unheard. */
  lemma {:induction false} LatecomersStrand(s: State)
    requires Poised(s) && s.capacity > 0 && MayBlock(s.cfg)
    requires |Latecomers(s)| > 0 && |Latecomers(s)| > s.capacity - s.running
    ensures Strands(s)
    decreases |Latecomers(s)|, s.running
  {
    hide Poised, Reaches, Gathered, Latecomers, Strands, Forsaken;
    var g := Gathering(s);
    GatheringKeepsLatecomers(s, g);
    if |Latecomers(g)| == 1 {
      var c := OnlyLatecomer(g);
      var t := LastLatecomerSleeps(g, c);
      StrandedThere(g, t, c);
    } else if g.running < g.capacity {
      var d := SomeLatecomer(g);
      var s' := LatecomerServed(g, d);
      LatecomersStrand(s');
      StrandsVia(g, s');
    } else {
      var s' := WorkerRetired(g);
      LatecomersStrand(s');
      StrandsVia(g, s');
    }
    StrandsVia(s, g);
  }

  lemma GatheringKeepsLatecomers(s: State, g: State)
    ensures SameStakes(s, g) ==> |Latecomers(g)| == |Latecomers(s)|
  {
  }

  lemma StrandedThere(g: State, t: State, c: CallerId)
    requires Reaches(g, t, Untuned) && Forsaken(t) && c in t.callers && t.callers[c].Parked?
    ensures Strands(g)
  {
  }

  lemma SomeLatecomer(s: State) returns (d: CallerId)
    requires |Latecomers(s)| > 0
    ensures d in s.callers && s.callers[d].Ready? && d in Latecomers(s)
  {
    d :| d in Latecomers(s);
  }

  lemma OnlyLatecomer(s: State) returns (c: CallerId)
    requires |Latecomers(s)| == 1
    ensures Latecomers(s) == {c}
  {
    c :| c in Latecomers(s);
    assert |Latecomers(s) - {c}| == 0;
  }

  // ----- Room for all of them ------------------------------------------------------------------

  function PendingWeight(p: Caller): nat {
    if p.Ready? || p.Loop? || p.Empty? || p.Sized? || p.Spawning? || p.Fetched? then 1 else 0
  }

  /** Every call under way to a worker will find room for one, and nobody is on the way into the wait. */
  ghost predicate Calm(s: State) {
    && !s.open && NobodyCurrent(s) && s.capacity > 0
    && (forall c :: c in s.callers ==> !s.callers[c].Full? && !s.callers[c].Queuing?
                                       && (s.callers[c].Sized? ==> s.callers[c].cap == s.capacity))
    && (Sum(s.callers, PendingWeight) > 0 ==> Sum(s.callers, PendingWeight) <= s.capacity - s.running)
  }

  /** One caller goes where calm lets it, and does not add to what is pending. */
  ghost predicate CalmMove(s: State, s': State, c: CallerId) {
    && c in s'.callers && s'.callers == s.callers[c := s'.callers[c]]
    && !s'.callers[c].Full? && !s'.callers[c].Queuing?
    && (s'.callers[c].Sized? ==> s'.callers[c].cap == s.capacity)
    && (s'.callers[c].Parked? ==> s'.callers[c].since < s'.cond.generation)
    && PendingWeight(s'.callers[c]) <= if c in s.callers then PendingWeight(s.callers[c]) else 0
  }

  lemma RetrievalStaysCalm(s: State, e: Event, s': State)
    requires Calm(s) && CallerEvent(s, e, s') && !e.Spawn?
    requires e.Submit? || e.CallerMove? || e.CallerLock? || e.DetachWorker? || e.Fetch? || e.Bail?
    ensures CalmMove(s, s', e.c)
  {
    if e.CallerMove? && e.c in s.callers {
      SumAtLeast(s.callers, e.c, PendingWeight);
    }
  }

  lemma WaitStaysCalm(s: State, e: Event, s': State)
    requires Calm(s) && CallerEvent(s, e, s')
    requires e.Queue? || e.Park? || e.Uncount? || e.Resume? || e.Deliver?
    ensures CalmMove(s, s', e.c)
  {
  }

  lemma ParkedStaysCalm(s: State, e: Event, s': State)
    requires Calm(s) && CallerEvent(s, e, s')
    requires e.Sleep? || e.Leave? || e.Spurious?
    ensures CalmMove(s, s', e.c)
  {
  }

  lemma CallersStayCalm(s: State, e: Event, s': State)
    requires Calm(s) && CallerEvent(s, e, s') && !e.Spawn?
    ensures Calm(s')
  {
    hide CalmMove, Submits, CallerMoves, CallerTakesLock, Detaches, Fetches, Bails, Queues, Parks, Sleeps, Leaves, Uncounts, Resumes, Delivers, WakesSpuriously;
    CallersTouch(s, e, s');
    if e.Queue? || e.Park? || e.Uncount? || e.Resume? || e.Deliver? {
      WaitStaysCalm(s, e, s');
    } else if e.Sleep? || e.Leave? || e.Spurious? {
      ParkedStaysCalm(s, e, s');
    } else {
      RetrievalStaysCalm(s, e, s');
    }
    hide CallerEvent;
    MoveStaysCalm(s, s', e.c);
  }

  lemma MoveStaysCalm(s: State, s': State, c: CallerId)
    requires Calm(s) && CalmMove(s, s', c)
    requires s'.open == s.open && s'.capacity == s.capacity && s'.running == s.running && s'.cond.generation == s.cond.generation
    ensures Calm(s')
  {
    SumPut(s.callers, c, s'.callers[c], PendingWeight);
  }

  lemma SpawnStaysCalm(s: State, s': State, c: CallerId)
    requires Calm(s) && Spawns(s, s', c)
    ensures Calm(s')
  {
    SumPut(s.callers, c, s'.callers[c], PendingWeight);
  }

  /** Nobody but a caller adds to what is pending. */
  lemma OthersStayCalm(s: State, s': State)
    requires Calm(s) && OnlyNotifies(s, s')
    requires !s'.open && s'.capacity == s.capacity && s'.running <= s.running && s'.cond.generation >= s.cond.generation
    ensures Calm(s')
  {
    if s'.callers != s.callers {
      var wake :| MayNotify(s.cond, s.callers, wake) && s'.callers == Notified(s.cond, s.callers, wake);
      if wake.Some? {
        SumPut(s.callers, wake.value, Parked(s.cond.generation, true), PendingWeight);
      }
    }
  }

  lemma CalmStep(s: State, e: Event, s': State)
    requires Calm(s) && Step(s, e, s') && Untuned(e)
    ensures Calm(s')
  {
    hide OnlyNotifies, CallerEvent, WorkerEvent, ServiceEvent, AdminEvent, TuneEvent;
    OnlyReopenOpens(s, e, s');
    StepSized(s, e, s');
    StepGenerationGrows(s, e, s');
    if CallerEvent(s, e, s') {
      if e.Spawn? {
        SpawnIsStep(s, e, s');
        SpawnStaysCalm(s, s', e.c);
      } else {
        CallersStayCalm(s, e, s');
      }
    } else {
      OnlyCallersSpawn(s, e, s');
      if WorkerEvent(s, e, s') {
        WorkersOnlyNotify(s, e, s');
      } else if ServiceEvent(s, e, s') {
        ServicesOnlyNotify(s, e, s');
      } else if AdminEvent(s, e, s') {
        AdminOnlyNotifies(s, e, s');
      } else {
        TunersOnlyNotify(s, e, s');
      }
      OthersStayCalm(s, s');
    }
  }

  lemma OnlyCallersSpawn(s: State, e: Event, s': State)
    requires WorkerEvent(s, e, s') || ServiceEvent(s, e, s') || AdminEvent(s, e, s') || TuneEvent(s, e, s')
    ensures !e.Spawn?
  {
  }

  lemma {:induction false} CalmRun(states: seq<State>, events: seq<Event>, j: nat)
    requires IsRun(states, events) && j < |states| && OnlyAllowed(events, Untuned) && Calm(states[0])
    ensures Calm(states[j])
    decreases j
  {
    hide Step, Calm;
    if j > 0 {
      CalmRun(states, events, j - 1);
      CalmStep(states[j - 1], events[j - 1], states[j]);
    }
  }

  /** With room for every call under way to a worker and none on the way into the wait, whoever holds the
      lock, nobody is left asleep. */
  lemma CalmStrandsNobody(s: State)
    requires Calm(s)
    ensures !Strands(s)
  {
    hide Step, Calm, Forsaken;
    if Strands(s) {
      var t :| Reaches(s, t, Untuned) && Forsaken(t) && exists c :: c in t.callers && t.callers[c].Parked?;
      var states, events :| IsRun(states, events) && states[0] == s && states[|events|] == t && OnlyAllowed(events, Untuned);
      CalmRun(states, events, |events|);
      CalmIsNotForsaken(t);
    }
  }

  lemma CalmIsNotForsaken(t: State)
    requires Calm(t) && Forsaken(t)
    ensures forall c :: c in t.callers ==> !t.callers[c].Parked?
  {
  }

  // ----- The condition -------------------------------------------------------------------------

  /** A pool that does not block, or has no capacity, leaves nobody asleep. */
  lemma UnblockingStrandsNobody(s: State)
    requires Reachable(s) && (!MayBlock(s.cfg) || s.capacity == -1)
    ensures !Strands(s)
  {
    hide Step, Reachable, Forsaken, Reaches;
    if Strands(s) {
      var t :| Reaches(s, t, Untuned) && Forsaken(t) && exists c :: c in t.callers && t.callers[c].Parked?;
      var c :| c in t.callers && t.callers[c].Parked?;
      ReachesStaysReachable(s, t, Untuned);
      ReachesKeepsConfig(s, t);
      CapacityTells(s);
      CapacityTells(t);
      if s.capacity == -1 {
        UnlimitedIsUnblocked(t, c);
      }
    }
  }

  lemma CapacityTells(s: State)
    requires Reachable(s)
    ensures (s.cfg.size == -1 <==> s.capacity == -1) && (s.capacity != -1 ==> s.capacity > 0)
    ensures forall c :: c in s.callers && s.callers[c].Parked? ==> MayBlock(s.cfg)
  {
    hide Reachable, LockInv, LiveInv, CondInv, WaitInv, CustodyInv, RegistryInv, TaskInv, WakeInv, ResetInv, PurgeInv, TickInv, LatchInv;
    ReachableInv(s);
  }

  lemma UnlimitedIsUnblocked(s: State, c: CallerId)
    requires Reachable(s) && s.cfg.size == -1 && c in s.callers
    ensures Unblocked(s.callers[c])
  {
    hide Step, Unblocked;
    var cfg, states, events :| IsPoolRun(cfg, states, events) && s in states;
    var j :| 0 <= j < |states| && states[j] == s;
    SameConfig(cfg, states, events, j);
    UnlimitedNeverBlocks(cfg, states, events, j, c);
  }

  lemma {:induction false} RunKeepsConfig(states: seq<State>, events: seq<Event>, j: nat)
    requires IsRun(states, events) && j < |states|
    ensures states[j].cfg == states[0].cfg
    decreases j
  {
    hide Step;
    if j > 0 {
      RunKeepsConfig(states, events, j - 1);
      StepSized(states[j - 1], events[j - 1], states[j]);
    }
  }

  lemma ReachesKeepsConfig(s: State, t: State)
    requires Reaches(s, t, Untuned)
    ensures t.cfg == s.cfg
  {
    hide Step;
    var states, events :| IsRun(states, events) && states[0] == s && states[|events|] == t && OnlyAllowed(events, Untuned);
    RunKeepsConfig(states, events, |events|);
  }

  lemma PoisedIsCalm(s: State)
    requires Poised(s) && s.capacity > 0
    requires |Latecomers(s)| > 0 ==> |Latecomers(s)| <= s.capacity - s.running
    ensures Calm(s)
  {
    hide Reachable;
    SumCounts(s.callers, PendingWeight, IsLate);
  }

  /** On a closed pool with nobody current in the wait and no call holding the lock, as after the
      broadcast of `release`: some run without a reopening and without any effect of `tune` leaves a
      caller asleep with nobody to wake it if and only if the pool blocks and has a capacity, and more
      calls have passed the closed check without going for the lock than there is room for workers. */
  lemma StrandsExactly(s: State)
    requires Poised(s)
    ensures Strands(s) <==>
      && s.capacity > 0 && MayBlock(s.cfg)
      && |Latecomers(s)| > 0 && |Latecomers(s)| > s.capacity - s.running
  {
    hide Poised, Reachable, Strands, Latecomers, Calm;
    PoisedIsReachable(s);
    CapacityTells(s);
    if s.capacity == -1 || !MayBlock(s.cfg) {
      UnblockingStrandsNobody(s);
    } else if |Latecomers(s)| > 0 && |Latecomers(s)| > s.capacity - s.running {
      LatecomersStrand(s);
    } else {
      PoisedIsCalm(s);
      CalmStrandsNobody(s);
    }
  }

  lemma PoisedIsReachable(s: State)
    requires Poised(s)
    ensures Reachable(s)
  {
  }

  lemma BroadcastPoises(s: State, e: Event, s': State)
    requires CondInv(s.cond, s.callers) && Step(s, e, s') && e.ReleaseBroadcast?
    ensures NobodyCurrent(s') && s'.open == s.open && s'.callers == s.callers
  {
    forall c | c in s.callers && s.callers[c].Parked? ensures s.callers[c].since < s'.cond.generation {
      SumAtLeast(s.callers, c, ParkedWeight);
    }
  }

  /** What the broadcast of `release` is worth: if no call holds the lock then, it can leave a caller to
      sleep for ever exactly if more calls are late than there is room for. */
  lemma BroadcastStrandsExactly(s: State, e: Event, s': State)
    requires Reachable(s) && Step(s, e, s') && e.ReleaseBroadcast? && NobodyInside(s)
    ensures Strands(s') <==>
      && s.capacity > 0 && MayBlock(s.cfg)
      && |Latecomers(s)| > 0 && |Latecomers(s)| > s.capacity - s.running
  {
    hide Reachable, Step, Strands, LockInv, LiveInv, WaitInv, LimitInv, CustodyInv, RegistryInv, CapacityInv, TaskInv, WakeInv, PurgeInv, TickInv, LatchInv, CondInv;
    ReachableInv(s);
    BroadcastPoises(s, e, s');
    BroadcastIsClosed(s, e, s');
    ReachableStep(s, e, s');
    StrandsExactly(s');
  }

  lemma BroadcastIsClosed(s: State, e: Event, s': State)
    requires ResetInv(s.open, s.admin, s.queue, s.threads) && Step(s, e, s') && e.ReleaseBroadcast?
    ensures !s.open && s'.cfg == s.cfg && s'.capacity == s.capacity && s'.running == s.running
  {
  }
}
