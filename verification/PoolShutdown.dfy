/** What `release`, `release_context` and `reboot` can rely on: the tasks that are over, the workers
    that may still appear, and the two service threads. */
module PoolShutdown {
  import opened Wrappers
  import opened WorkerQueue
  import opened CondVar
  import opened Sums
  import opened PoolModel
  import opened PoolInvariant
  import opened PoolRuns
  import opened PoolDelivery
  import opened PoolCapacity
  import opened PoolFootprints
  import opened PoolClosing
  import opened PoolRest
  import opened PoolDrain

  // ----- An empty pool has run everything ------------------------------------------------------

  lemma NobodyLives(s: State, w: WorkerId)
    requires LiveInv(s.running, s.threads) && s.running == 0 && w in s.threads
    ensures !Live(s.threads[w])
  {
    SumAtLeast(s.threads, w, LiveWeight);
  }

  /** When no worker is running, every accepted task is over, no worker is idle, nobody is about to
      send to a worker and no message is waiting. */
  lemma EmptyPoolHasRunEverything(s: State, c: CallerId)
    requires Reachable(s) && s.running == 0
    ensures s.queue == [] && Stale(s.purge) == []
    ensures c in s.callers && s.callers[c].Accepted? ==> s.finished[c] == 1
    ensures c in s.callers ==> !s.callers[c].Holding?
    ensures forall w :: w in s.chan ==> s.chan[w] == []
  {
    hide Reachable, LockInv, CondInv, WaitInv, LimitInv, RegistryInv, CapacityInv, WakeInv, ResetInv, PurgeInv, TickInv, LatchInv;
    ReachableInv(s);
    forall w: nat
      ensures !AtReceive(s.threads, w) && !Runs(s.threads, w, c)
      ensures Mail(s.chan, w) == 0 && Occurs(s.queue, w) == 0 && Occurs(Stale(s.purge), w) == 0
      ensures Sum(s.callers, HoldsWeight(w)) == 0
    {
      if w in s.threads {
        NobodyLives(s, w);
      }
      assert Custody(s.queue, s.callers, s.chan, s.purge, w) == 0;
    }
    if s.queue != [] {
      OccursAt(s.queue, 0);
    }
    if Stale(s.purge) != [] {
      OccursAt(Stale(s.purge), 0);
    }
    forall w | w in s.chan ensures s.chan[w] == [] {
      assert Mail(s.chan, w) == 0;
    }
    if c in s.callers && s.callers[c].Holding? {
      SumAtLeast(s.callers, c, HoldsWeight(s.callers[c].w));
    }
  }

  /** From any quiet state the workers and service threads alone bring the pool to its end, in at
      most as many steps as the measure says, and every task that was accepted has then been run. */
  lemma ReleaseLosesNoTask(s: State) returns (states: seq<State>, events: seq<Event>)
    requires Reachable(s) && Quiet(s)
    ensures IsRun(states, events) && states[0] == s && |events| <= Measure(s)
    ensures forall i :: 0 <= i < |events| ==> Works(states[i], events[i], states[i + 1])
    ensures Drained(states[|events|]) && states[|events|].running == 0
    ensures forall c :: c in s.callers && s.callers[c].Accepted? ==> states[|events|].finished[c] == 1
  {
    hide Reachable, Step, Works, Quiet, Measure, LockInv, CondInv, WaitInv, LimitInv, CustodyInv, RegistryInv, CapacityInv, TaskInv, WakeInv, ResetInv, PurgeInv, TickInv, LatchInv;
    states, events := QuietPoolCanDrain(s);
    var last := states[|events|];
    RunStaysReachable(states, events, |events|);
    ReachableInv(last);
    assert Sum(last.threads, LiveWeight) == 0;
    forall c | c in s.callers && s.callers[c].Accepted? ensures last.finished[c] == 1 {
      OutcomeIsFinal(states, events, 0, |events|, c);
      EmptyPoolHasRunEverything(last, c);
    }
  }

  /** The same from any closed state, whatever is in flight: the pool can come to its end without any
      caller that has not gone for the lock yet, and every task accepted until then has been run. */
  lemma ClosedPoolLosesNoTask(s: State) returns (states: seq<State>, events: seq<Event>)
    requires Reachable(s) && !s.open
    ensures IsRun(states, events) && states[0] == s && |events| <= Measure(s)
    ensures forall i :: 0 <= i < |events| ==> Advances(states[i], events[i], states[i + 1]) && !events[i].Reopen?
    ensures AtRest(states[|events|]) && states[|events|].running == 0
    ensures forall c :: c in states[|events|].callers && states[|events|].callers[c].Accepted? ==>
      states[|events|].finished[c] == 1
    ensures forall c :: c in s.callers && s.callers[c].Accepted? ==>
      c in states[|events|].callers && states[|events|].callers[c] == s.callers[c]
  {
    hide Reachable, Step, Advances, Measure, LockInv, CondInv, WaitInv, LimitInv, CustodyInv, RegistryInv, CapacityInv, TaskInv, WakeInv, ResetInv, PurgeInv, TickInv, LatchInv;
    states, events := ClosedPoolComesToRest(s);
    var last := states[|events|];
    ReachableInv(last);
    assert Sum(last.threads, LiveWeight) == 0;
    forall c | c in last.callers && last.callers[c].Accepted? ensures last.finished[c] == 1 {
      EmptyPoolHasRunEverything(last, c);
    }
    forall c | c in s.callers && s.callers[c].Accepted? ensures c in last.callers && last.callers[c] == s.callers[c] {
      OutcomeIsFinal(states, events, 0, |events|, c);
    }
  }

  // ----- When an empty closed pool stays empty -------------------------------------------------

  /** Passed the closed check of `try_submit` and may still spawn a worker. */
  predicate MaySpawn(p: Caller) {
    p.Ready? || p.Loop? || p.Empty? || p.Sized? || p.Spawning? || p.Fetched?
  }

  ghost predicate Emptied(s: State) {
    !s.open && WasReset(s.admin) && s.running == 0 && NoSpawner(s)
  }

  ghost predicate NoSpawner(s: State) {
    forall c :: c in s.callers ==> !MaySpawn(s.callers[c])
  }

  lemma NoNewSpawners(s: State, e: Event, s': State)
    requires Step(s, e, s') && !s.open && NoSpawner(s)
    ensures NoSpawner(s')
  {
    hide Step;
    StepStart(s, e, s');
    forall c | c in s'.callers ensures !MaySpawn(s'.callers[c]) {
      if c in s.callers {
        StepFollows(s, e, s', c);
      }
    }
  }

  lemma EmptiedStep(s: State, e: Event, s': State)
    requires Inv(s) && Emptied(s) && Step(s, e, s') && !e.Reopen?
    ensures Emptied(s')
  {
    hide Step, WasReset, LockInv, CondInv, WaitInv, LimitInv, CustodyInv, RegistryInv, CapacityInv, TaskInv, WakeInv, ResetInv, PurgeInv, TickInv, LatchInv;
    NoNewSpawners(s, e, s');
    StaysClosed(s, e, s');
    StepKeeps(s, e, s');
    StepSized(s, e, s');
    if e.Spawn? {
      SpawnIsStep(s, e, s');
    }
  }

  lemma {:induction false} EmptiedRun(states: seq<State>, events: seq<Event>, i: nat, j: nat)
    requires IsRun(states, events) && i <= j < |states| && Inv(states[i]) && Emptied(states[i])
    requires forall k :: i <= k < j ==> !events[k].Reopen?
    ensures Inv(states[j]) && Emptied(states[j])
    decreases j - i
  {
    hide Step, Inv, Emptied;
    if i < j {
      EmptiedRun(states, events, i, j - 1);
      EmptiedStep(states[j - 1], events[j - 1], states[j]);
      StepKeeps(states[j - 1], events[j - 1], states[j]);
    }
  }

  /** Some run from here, without a reopening, brings up a worker. */
  ghost predicate WorkerAppears(s: State) {
    exists states: seq<State>, events: seq<Event> ::
      && IsRun(states, events) && states[0] == s && states[|events|].running > 0
      && forall i :: 0 <= i < |events| ==> !events[i].Reopen?
  }

  lemma AppearsNow(s: State)
    requires s.running > 0
    ensures WorkerAppears(s)
  {
    var states, events: seq<Event> := [s], [];
    assert IsRun(states, events);
  }

  lemma AppearsAfter(s: State, e: Event, s': State)
    requires CallerEvent(s, e, s') || ServiceEvent(s, e, s')
    requires WorkerAppears(s')
    ensures WorkerAppears(s)
  {
    hide CallerEvent, ServiceEvent, WorkerEvent, AdminEvent, TuneEvent;
    NotReopening(s, e, s');
    AppearsAfterStep(s, e, s');
  }

  lemma NotReopening(s: State, e: Event, s': State)
    requires CallerEvent(s, e, s') || ServiceEvent(s, e, s')
    ensures !e.Reopen?
  {
  }

  lemma AppearsAfterStep(s: State, e: Event, s': State)
    requires Step(s, e, s') && !e.Reopen? && WorkerAppears(s')
    ensures WorkerAppears(s)
  {
    hide Step;
    var rest: seq<State>, more: seq<Event> :|
      && IsRun(rest, more) && rest[0] == s' && rest[|more|].running > 0
      && forall i :: 0 <= i < |more| ==> !more[i].Reopen?;
    var states, events := [s] + rest, [e] + more;
    forall i | 0 <= i < |events| ensures Step(states[i], events[i], states[i + 1]) && !events[i].Reopen? {
      if i > 0 {
        assert states[i] == rest[i - 1] && states[i + 1] == rest[i] && events[i] == more[i - 1];
      }
    }
    assert IsRun(states, events) && states[0] == s && states[|events|] == rest[|more|];
  }

  lemma FetchedAppears(s: State, c: CallerId)
    requires c in s.callers && s.callers[c].Fetched? && s.running >= 0
    ensures WorkerAppears(s)
  {
    hide WorkerAppears;
    var w := s.callers[c].w;
    var s' := s.(callers := s.callers[c := Holding(w)], threads := s.threads[w := Recv],
                 running := s.running + 1, lock := None);
    AppearsNow(s');
    AppearsAfter(s, Spawn(c), s');
  }

  lemma SpawningAppears(s: State, c: CallerId)
    requires c in s.callers && s.callers[c].Spawning? && s.running >= 0
    ensures WorkerAppears(s)
  {
    hide WorkerAppears;
    var w := if s.cache != [] then s.cache[|s.cache| - 1] else s.made;
    var s' := s.(callers := s.callers[c := Fetched(s.callers[c].cap, w)],
                 cache := if s.cache != [] then s.cache[..|s.cache| - 1] else [],
                 made := if s.cache != [] then s.made else s.made + 1);
    FetchedAppears(s', c);
    AppearsAfter(s, Fetch(c), s');
  }

  predicate HasRoom(s: State) {
    s.running == 0 && s.queue == [] && (s.capacity == -1 || s.capacity > 0)
  }

  lemma ReaderAppears(s: State, c: CallerId)
    requires HasRoom(s) && c in s.callers && (s.callers[c].Loop? || s.callers[c].Empty? || s.callers[c].Sized?)
    requires s.callers[c].Sized? ==> s.callers[c].cap == -1 || s.callers[c].cap > 0
    ensures WorkerAppears(s)
    decreases if s.callers[c].Loop? then 2 else if s.callers[c].Empty? then 1 else 0
  {
    hide WorkerAppears;
    var s' := s.(callers := s.callers[c := CallerGoes(s.callers[c], s)]);
    if s.callers[c].Sized? {
      SpawningAppears(s', c);
    } else {
      ReaderAppears(s', c);
    }
    AppearsAfter(s, CallerMove(c), s');
  }

  /** A caller that holds the lock and may spawn does so. */
  lemma LockedAppears(s: State, c: CallerId)
    requires HasRoom(s) && c in s.callers && MaySpawn(s.callers[c]) && !s.callers[c].Ready?
    requires s.callers[c].Sized? ==> s.callers[c].cap == -1 || s.callers[c].cap > 0
    ensures WorkerAppears(s)
  {
    hide WorkerAppears;
    if s.callers[c].Fetched? {
      FetchedAppears(s, c);
    } else if s.callers[c].Spawning? {
      SpawningAppears(s, c);
    } else {
      ReaderAppears(s, c);
    }
  }

  /** A caller that finds the lock free takes it and does the same. */
  lemma FreeAppears(s: State, c: CallerId)
    requires HasRoom(s) && s.lock == None && c in s.callers && s.callers[c].Ready?
    ensures WorkerAppears(s)
  {
    hide WorkerAppears;
    var s' := s.(callers := s.callers[c := Loop(false)], lock := Some(ByCaller(c)));
    LockedAppears(s', c);
    AppearsAfter(s, CallerLock(c), s');
  }

  /** Any other caller that holds the lock will let go of it ... */
  lemma BehindCaller(s: State, c: CallerId, d: CallerId)
    requires HasRoom(s) && !s.open && c in s.callers && s.callers[c].Ready?
    requires d in s.callers && (s.callers[d].Full? || s.callers[d].Queuing? || s.callers[d].Relocked? || s.callers[d].Uncounted?)
    ensures WorkerAppears(s)
  {
    hide WorkerAppears;
    if s.callers[d].Relocked? {
      var s' := s.(callers := s.callers[d := Uncounted], waiting := s.waiting - 1);
      BehindUncounted(s', c, d);
      AppearsAfter(s, Uncount(d), s');
    } else if s.callers[d].Uncounted? {
      BehindUncounted(s, c, d);
    } else if s.callers[d].Queuing? {
      BehindParking(s, c, d);
    } else if Overloaded(s) {
      var s' := s.(callers := s.callers[d := Rejected(PoolOverload)], lock := None);
      FreeAppears(s', c);
      AppearsAfter(s, Bail(d), s');
    } else {
      var s' := s.(callers := s.callers[d := Queuing], waiting := s.waiting + 1);
      BehindParking(s', c, d);
      AppearsAfter(s, Queue(d), s');
    }
  }

  lemma BehindUncounted(s: State, c: CallerId, d: CallerId)
    requires HasRoom(s) && !s.open && c in s.callers && s.callers[c].Ready?
    requires d in s.callers && s.callers[d].Uncounted?
    ensures WorkerAppears(s)
  {
    hide WorkerAppears;
    var s' := s.(callers := s.callers[d := Rejected(PoolClosed)], lock := None);
    FreeAppears(s', c);
    AppearsAfter(s, Resume(d), s');
  }

  lemma BehindParking(s: State, c: CallerId, d: CallerId)
    requires HasRoom(s) && c in s.callers && s.callers[c].Ready?
    requires d in s.callers && s.callers[d].Queuing?
    ensures WorkerAppears(s)
  {
    hide WorkerAppears;
    var s' := s.(callers := s.callers[d := Parked(s.cond.generation, true)], cond := Registered(s.cond), lock := None);
    FreeAppears(s', c);
    AppearsAfter(s, Park(d), s');
  }

  /** ... and so will the purge thread. */
  lemma BehindPurge(s: State, c: CallerId)
    requires HasRoom(s) && c in s.callers && s.callers[c].Ready? && PurgeLocks(s.purge)
    ensures WorkerAppears(s)
    decreases if s.purge.PRefreshing? then 1 else 0
  {
    hide WorkerAppears;
    if s.purge.PRefreshing? {
      var s' := s.(purge := PCounting(Handed(s.queue, 0, 0)), queue := s.queue[0..]);
      BehindPurge(s', c);
      AppearsAfter(s, RefreshQueue(0, 0), s');
    } else {
      var stale := s.purge.stale;
      var s' := s.(purge := PFinishing(stale, s.running == 0 || s.running == |stale|), lock := None);
      FreeAppears(s', c);
      AppearsAfter(s, PurgeCount, s');
    }
  }

  lemma SpawnerAppears(s: State, c: CallerId)
    requires LockInv(s.lock, s.callers, s.threads, s.purge, s.admin) && LiveInv(s.running, s.threads)
    requires CapacityInv(s.cfg, s.capacity, s.running, s.peak, s.callers, s.tuners)
    requires HasRoom(s) && !s.open && WasReset(s.admin) && c in s.callers && MaySpawn(s.callers[c])
    ensures WorkerAppears(s)
  {
    hide WorkerAppears;
    if !s.callers[c].Ready? {
      LockedAppears(s, c);
    } else {
      match s.lock
      case None => FreeAppears(s, c);
      case Some(ByCaller(d)) =>
        if MaySpawn(s.callers[d]) {
          LockedAppears(s, d);
        } else {
          BehindCaller(s, c, d);
        }
      case Some(ByWorker(w)) => NobodyLives(s, w);
      case Some(ByPurge) => BehindPurge(s, c);
      case Some(ByAdmin) =>
    }
  }

  /** A closed pool without workers whose queue was reset stays without workers until it is reopened
      exactly when no call of `try_submit` passed its closed check early enough to be still on its
      way to the queue. */
  lemma EmptyPoolStaysEmpty(s: State)
    requires Reachable(s) && !s.open && WasReset(s.admin) && s.running == 0
    ensures WorkerAppears(s) <==> exists c :: c in s.callers && MaySpawn(s.callers[c])
  {
    hide Reachable, Step, MaySpawn, WasReset, WakeInv;
    ReachableInv(s);
    if c :| c in s.callers && MaySpawn(s.callers[c]) {
      RoomIsThere(s);
      SpawnerAppears(s, c);
    } else if WorkerAppears(s) {
      var states: seq<State>, events: seq<Event> :|
        && IsRun(states, events) && states[0] == s && states[|events|].running > 0
        && forall i :: 0 <= i < |events| ==> !events[i].Reopen?;
      EmptiedRun(states, events, 0, |events|);
    }
  }

  lemma RoomIsThere(s: State)
    requires Inv(s) && !s.open && WasReset(s.admin) && s.running == 0
    ensures HasRoom(s)
  {
    hide LockInv, LiveInv, CondInv, WaitInv, LimitInv, CustodyInv, RegistryInv, TaskInv, WakeInv, PurgeInv, TickInv, LatchInv;
  }

  /** `release_context` has just found no worker running. */
  predicate FoundEmpty(s: State, s': State) {
    s.admin.APollRunning? && s'.admin.APollPurge?
  }

  lemma FoundEmptyIsEmpty(s: State, e: Event, s': State)
    requires Step(s, e, s') && FoundEmpty(s, s')
    ensures s.running == 0 && AdminEvent(s, e, s')
  {
    hide CallerEvent, WorkerEvent, ServiceEvent, AdminEvent, TuneEvent;
    if CallerEvent(s, e, s') {
      CallersTouch(s, e, s');
    } else if WorkerEvent(s, e, s') {
      WorkersTouch(s, e, s');
    } else if ServiceEvent(s, e, s') {
      ServicesTouch(s, e, s');
    } else if TuneEvent(s, e, s') {
      TunersTouch(s, e, s');
    } else {
      AdminFindsEmpty(s, e, s');
    }
  }

  lemma AdminFindsEmpty(s: State, e: Event, s': State)
    requires AdminEvent(s, e, s') && FoundEmpty(s, s')
    ensures s.running == 0
  {
    hide AdminMoves;
    assert e.AdminMove? && AdminMoves(s, s', e.onward);
    MoveFindsEmpty(s, s', e.onward);
  }

  lemma MoveFindsEmpty(s: State, s': State, onward: bool)
    requires AdminMoves(s, s', onward) && FoundEmpty(s, s')
    ensures s.running == 0
  {
  }

  /** Once `release_context` has found no worker running while no caller could still spawn one, the
      pool has no worker and no idle queue until it is reopened, every accepted task is over, and
      when the call returns `Ok` both service threads are gone. */
  lemma ReleaseContextIsConclusive(cfg: Config, states: seq<State>, events: seq<Event>, i: nat, j: nat, c: CallerId)
    requires IsPoolRun(cfg, states, events) && i < j < |states|
    requires FoundEmpty(states[i], states[i + 1])
    requires forall d :: d in states[i].callers ==> !MaySpawn(states[i].callers[d])
    requires forall k :: i <= k < j ==> !events[k].Reopen?
    ensures states[j].running == 0 && states[j].queue == []
    ensures c in states[j].callers && states[j].callers[c].Accepted? ==> states[j].finished[c] == 1
    ensures states[j].admin.AQuiet? ==> states[j].purge.PGone? && states[j].tick.TGone?
  {
    hide Step, MaySpawn, LockInv, LiveInv, CondInv, WaitInv, LimitInv, CustodyInv, RegistryInv, CapacityInv, TaskInv, WakeInv, LatchInv;
    InitialInv(cfg);
    RunKeeps(states, events, 0, i);
    FoundEmptyIsEmpty(states[i], events[i], states[i + 1]);
    EmptiedRun(states, events, i, j);
    assert Reachable(states[j]);
    EmptyPoolHasRunEverything(states[j], c);
  }

  /** `release_context` has made its test for zero workers and not gone back to waiting. */
  predicate PastTest(a: Admin) {
    a.APollPurge? || a.APollTick? || a.AQuiet?
  }

  ghost predicate TestStands(s: State, e: Event, s': State) {
    PastTest(s'.admin) ==> !e.Reopen? && (PastTest(s.admin) || (FoundEmpty(s, s') && s.running == 0))
  }

  lemma MoveTests(s: State, s': State, onward: bool)
    requires AdminMoves(s, s', onward)
    ensures PastTest(s'.admin) ==> PastTest(s.admin) || (FoundEmpty(s, s') && s.running == 0)
  {
  }

  lemma OthersTestNothing(s: State, e: Event, s': State)
    requires AdminEvent(s, e, s') && !e.AdminMove?
    ensures !PastTest(s'.admin)
  {
  }

  lemma AdminTests(s: State, e: Event, s': State)
    requires AdminEvent(s, e, s')
    ensures TestStands(s, e, s')
  {
    hide AdminMoves, PastTest, FoundEmpty;
    if e.AdminMove? {
      MoveTests(s, s', e.onward);
    } else {
      OthersTestNothing(s, e, s');
    }
  }

  lemma OnlyAdminReopens(s: State, e: Event, s': State)
    requires Step(s, e, s') && e.Reopen?
    ensures AdminEvent(s, e, s')
  {
  }

  lemma TestStandsStep(s: State, e: Event, s': State)
    requires Step(s, e, s')
    ensures TestStands(s, e, s')
  {
    hide CallerEvent, WorkerEvent, ServiceEvent, AdminEvent, TuneEvent, FoundEmpty;
    if AdminEvent(s, e, s') {
      AdminTests(s, e, s');
    } else {
      if e.Reopen? {
        OnlyAdminReopens(s, e, s');
      }
      if CallerEvent(s, e, s') {
        CallersTouch(s, e, s');
      } else if WorkerEvent(s, e, s') {
        WorkersTouch(s, e, s');
      } else if ServiceEvent(s, e, s') {
        ServicesTouch(s, e, s');
      } else {
        TunersTouch(s, e, s');
      }
    }
  }

  lemma {:induction false} TestWasMade(states: seq<State>, events: seq<Event>, j: nat) returns (i: nat)
    requires IsRun(states, events) && j < |states| && PastTest(states[j].admin) && !PastTest(states[0].admin)
    ensures i < j && FoundEmpty(states[i], states[i + 1]) && states[i].running == 0
    ensures forall k :: i <= k < j ==> !events[k].Reopen?
    decreases j
  {
    hide Step, PastTest, FoundEmpty;
    assert j > 0;
    TestStandsStep(states[j - 1], events[j - 1], states[j]);
    if PastTest(states[j - 1].admin) {
      i := TestWasMade(states, events, j - 1);
    } else {
      i := j - 1;
    }
  }

  /** `release_context` answers `Ok` only after it has found no worker running since the pool was last
      reopened; and if no call could still spawn one then, the `Ok` is true from then on until the next
      reopening: no worker, every accepted task over, both service threads gone. */
  lemma OkFoundNobody(cfg: Config, states: seq<State>, events: seq<Event>, j: nat) returns (i: nat)
    requires IsPoolRun(cfg, states, events) && j < |states| && states[j].admin.AQuiet?
    ensures i < j && states[i].running == 0 && !states[i].open
    ensures forall k :: i <= k < j ==> !events[k].Reopen?
    ensures (forall d :: d in states[i].callers ==> !MaySpawn(states[i].callers[d])) ==>
      && states[j].running == 0 && states[j].queue == [] && states[j].purge.PGone? && states[j].tick.TGone?
      && forall c :: c in states[j].callers && states[j].callers[c].Accepted? ==> states[j].finished[c] == 1
  {
    hide Step, MaySpawn, Inv;
    i := TestWasMade(states, events, j);
    assert Reachable(states[i]);
    ReachableInv(states[i]);
    PolledIsClosed(states[i]);
    if forall d :: d in states[i].callers ==> !MaySpawn(states[i].callers[d]) {
      ReleaseContextIsConclusive(cfg, states, events, i, j, 0);
      forall c | c in states[j].callers && states[j].callers[c].Accepted? ensures states[j].finished[c] == 1 {
        ReleaseContextIsConclusive(cfg, states, events, i, j, c);
      }
    }
  }

  lemma PolledIsClosed(s: State)
    requires Inv(s) && s.admin.APollRunning?
    ensures !s.open
  {
    hide LockInv, LiveInv, CondInv, WaitInv, LimitInv, CustodyInv, RegistryInv, CapacityInv, TaskInv, WakeInv, PurgeInv, TickInv, LatchInv;
  }

  // ----- The service threads -------------------------------------------------------------------

  /** Whenever a purge or ticktock thread is started the one before it is gone, so there is never
      more than one of each; and from start-up on, except inside `reboot` between clearing a flag and
      starting the thread, the flag says exactly whether the thread has finished. */
  lemma OneServiceThreadEach(s: State, s': State)
    requires Reachable(s)
    ensures StartsPurge(s, s') && !s.cfg.disablePurge ==> s.purge.PGone? && s'.purge.PWait?
    ensures StartsTick(s, s') ==> s.tick.TGone? && s'.tick.TWait?
    ensures !s.cfg.disablePurge && !s.admin.AGoPurge? ==> (s.purgeDone <==> s.purge.PGone?)
    ensures !s.admin.AGoTick? ==> (s.tickDone <==> s.tick.TGone?)
    ensures s.cfg.disablePurge ==> s.purge.PGone?
    ensures s.admin.AIdle? ==> s.tick.TWait? && !s.tickCancelled && (s.cfg.disablePurge || !s.purge.PGone?)
  {
    hide Reachable, LockInv, LiveInv, CondInv, WaitInv, LimitInv, CustodyInv, RegistryInv, CapacityInv, TaskInv, WakeInv, ResetInv, LatchInv;
    ReachableInv(s);
  }
}
