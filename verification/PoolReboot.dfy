/** What `reboot` has waited for when it reopens the pool. */
module PoolReboot {
  import opened PoolModel
  import opened PoolInvariant
  import opened PoolFootprints
  import opened PoolRuns
  import opened PoolReach
  import opened PoolClosing
  import opened PoolRest
  import opened PoolShutdown
  import opened PoolLatch
  import opened PoolHeld

  // ----- It waits for the latch ----------------------------------------------------------------

  /** Neither does `reboot` go on to the service threads, nor `release_context` to its tests, before the
      latch is closed. */
  lemma RebootWaitsForTheLatch(s: State)
    requires Reachable(s)
    ensures s.admin.AWaitPurge? || s.admin.AWaitTick? || s.admin.AReopen? ==> s.latch in s.closed
    ensures s.admin.APollRunning? || s.admin.APollPurge? || s.admin.APollTick? || s.admin.AQuiet? ==> s.latch in s.closed
  {
    hide Reachable, LockInv, LiveInv, CondInv, WaitInv, LimitInv, CustodyInv, RegistryInv, CapacityInv, TaskInv, WakeInv, ResetInv, PurgeInv, TickInv;
    ReachableInv(s);
  }

  /** From a state of a closed pool in which no call may still spawn and the latch is not ahead: when
      `reboot` has waited for the latch no worker is left and every task that was ever accepted is over;
      when it has made all its waits both service threads are gone too. */
  lemma RebootFindsNoWorkers(cfg: Config, states: seq<State>, events: seq<Event>, i: nat, j: nat)
    requires IsPoolRun(cfg, states, events) && i <= j < |states|
    requires !states[i].open && NoSpawner(states[i]) && !LatchAhead(states[i])
    requires forall k :: i <= k < j ==> !events[k].Reopen?
    requires states[j].admin.AWaitPurge? || states[j].admin.AWaitTick? || states[j].admin.AReopen?
    ensures states[j].running == 0 && states[j].queue == []
    ensures forall c :: c in states[j].callers && states[j].callers[c].Accepted? ==> states[j].finished[c] == 1
    ensures states[j].admin.AReopen? ==> states[j].purge.PGone? && states[j].tick.TGone?
  {
    hide Step, LatchAhead, NoSpawner;
    hide LockInv, LiveInv, CondInv, WaitInv, LimitInv, CustodyInv, RegistryInv, CapacityInv, TaskInv, WakeInv, ResetInv, LatchInv;
    assert Reachable(states[j]);
    RebootWaitsForTheLatch(states[j]);
    ClosedLatchMeansNoWorkers(cfg, states, events, i, j);
    ReachableInv(states[j]);
    EmptyPoolHasRunEverything(states[j], 0);
    forall c | c in states[j].callers && states[j].callers[c].Accepted? ensures states[j].finished[c] == 1 {
      EmptyPoolHasRunEverything(states[j], c);
    }
  }

  // ----- When it misses a worker ---------------------------------------------------------------

  predicate NotReopen(e: Event) {
    !e.Reopen?
  }

  /** Some run from here brings `reboot` past all its waits with a worker still running. */
  ghost predicate RebootMisses(s: State) {
    exists t :: Reaches(s, t, NotReopen) && t.admin.AReopen? && t.running > 0
  }

  /** Closed, with the latch closed although a worker is running. */
  ghost predicate Deceived(s: State) {
    !s.open && s.latch in s.closed && s.running > 0
  }

  lemma AdvanceKeepsWorkers(s: State, e: Event, s': State)
    requires Advances(s, e, s') && !e.Retire?
    ensures s'.running >= s.running
  {
    hide CallerEvent, WorkerEvent, ServiceEvent, AdminEvent;
    if CallerEvent(s, e, s') {
      CallersTouch(s, e, s');
    } else if WorkerEvent(s, e, s') {
      OnlyRetireLowers(s, e, s');
    } else if ServiceEvent(s, e, s') {
      ServicesTouch(s, e, s');
    } else {
      AdminsTouch(s, e, s');
    }
  }

  lemma DeceivedStep(s: State, e: Event, s': State)
    requires Reachable(s) && Deceived(s) && Advances(s, e, s') && !e.Retire?
    ensures Step(s, e, s') && !e.Reopen? && Reachable(s') && Deceived(s') && Measure(s') < Measure(s)
  {
    hide Reachable, Advances, Progress, Step, Inv, Measure;
    ReachableInv(s);
    AdvanceIsStep(s, e, s');
    ReachableStep(s, e, s');
    AdvanceProgresses(s, e, s');
    ClosedStep(s, e, s');
    AdvanceKeepsWorkers(s, e, s');
    LatchStaysStep(s, e, s');
    OnlyReopenOpens(s, e, s');
  }

  lemma AdvanceProgresses(s: State, e: Event, s': State)
    requires Advances(s, e, s')
    ensures Progress(s, e, s')
  {
  }

  /** Everything but the workers comes to its end, and no worker leaves. */
  lemma {:induction false} DeceivedGathers(r: State, s: State) returns (g: State)
    requires Reaches(r, s, NotReopen) && Reachable(s) && Deceived(s)
    ensures Reaches(r, g, NotReopen) && Reachable(g) && Deceived(g) && Gathered(g)
    decreases Measure(s)
  {
    hide Reachable, Reaches, Deceived, Gathered, Advances, Step, Measure;
    if Gathered(s) {
      g := s;
    } else {
      DeceivedCanGather(s);
      var e, s' :| Advances(s, e, s') && !e.Retire?;
      DeceivedStep(s, e, s');
      ReachesOn(r, s, e, s', NotReopen);
      g := DeceivedGathers(r, s');
    }
  }

  lemma DeceivedCanGather(s: State)
    requires Reachable(s) && Deceived(s) && !Gathered(s)
    ensures CanGather(s)
  {
    hide Reachable, CanGather, Gathered;
    GatheringIsNotStuck(s);
  }

  /** `release` has returned, and `reboot` has nothing to wait for. */
  predicate Unhindered(s: State) {
    && Closed(s.admin) && AdminRank(s.admin) == 0 && s.latch in s.closed && s.running > 0
    && (s.cfg.disablePurge || s.purgeDone) && s.tickDone
  }

  lemma GatheredIsUnhindered(g: State)
    requires Reachable(g) && Deceived(g) && Gathered(g)
    ensures Unhindered(g)
  {
    hide Reachable, LockInv, LiveInv, CondInv, WaitInv, LimitInv, CustodyInv, RegistryInv, CapacityInv, TaskInv, WakeInv, LatchInv;
    ReachableInv(g);
  }

  /** How far the reopening is, if `release_context` gives up. */
  function Ahead(a: Admin): nat {
    if a.AReopen? then 0 else if a.AWaitTick? then 1 else if a.AWaitPurge? then 2 else if a.AWaitLatch? then 3
    else if a.AReleased? || a.AQuiet? then 4 else if a.APollTick? then 5 else 6
  }

  lemma {:induction false} UnhinderedReopens(r: State, s: State) returns (t: State)
    requires Reaches(r, s, NotReopen) && Unhindered(s)
    ensures Reaches(r, t, NotReopen) && t.admin.AReopen? && t.running > 0
    decreases Ahead(s.admin)
  {
    hide Reaches, Step;
    if s.admin.AReopen? {
      t := s;
    } else {
      var s' := UnhinderedStep(s);
      ReachesOn(r, s, AdminMove(s.admin.AReleased?), s', NotReopen);
      t := UnhinderedReopens(r, s');
    }
  }

  lemma UnhinderedStep(s: State) returns (s': State)
    requires Unhindered(s) && !s.admin.AReopen?
    ensures Step(s, AdminMove(s.admin.AReleased?), s') && Unhindered(s') && Ahead(s'.admin) < Ahead(s.admin)
  {
    s' := s.(admin := AdminGoes(s, s.admin.AReleased?));
    assert AdminEvent(s, AdminMove(s.admin.AReleased?), s');
  }

  lemma MisleadingLatchReboots(s: State)
    requires Reachable(s) && !s.open && LatchMisleads(s)
    ensures RebootMisses(s)
  {
    hide Reachable, Step, Inv, Reaches;
    var states, events :| IsRun(states, events) && Misled(s, states, events);
    var last := states[|events|];
    ReachableInv(s);
    LatchStaysRun(states, events, |events|);
    RunStaysReachable(states, events, |events|);
    ReachesItself(s, NotReopen);
    ReachesAlong(s, states, events, |events|, NotReopen);
    var g := DeceivedGathers(s, last);
    GatheredIsUnhindered(g);
    var t := UnhinderedReopens(s, g);
  }

  lemma MissedWorkerIsMisleading(s: State)
    requires Reachable(s) && !s.open && RebootMisses(s)
    ensures LatchMisleads(s)
  {
    hide Reachable, Step, Inv;
    var t :| Reaches(s, t, NotReopen) && t.admin.AReopen? && t.running > 0;
    var states, events :| IsRun(states, events) && states[0] == s && states[|events|] == t && OnlyAllowed(events, NotReopen);
    ReachableInv(s);
    RunStaysReachable(states, events, |events|);
    RebootWaitsForTheLatch(t);
    LatchStaysRun(states, events, |events|);
    assert Misled(s, states, events);
  }

  /** From a reachable closed state `reboot` can come past all its waits with a worker still running if
      and only if the latch is ahead of the workers already, or some call has passed the closed check and
      not gone for the lock, or a call that holds the lock will spawn and all live workers can end before. */
  lemma RebootMissesExactly(s: State)
    requires Reachable(s) && !s.open
    ensures RebootMisses(s) <==>
      || LatchAhead(s)
      || (exists c :: c in s.callers && s.callers[c].Ready?)
      || (HolderSpawns(s) && CanEmptyFirst(s))
  {
    hide Reachable, RebootMisses, LatchMisleads, LatchAhead, HolderSpawns, CanEmptyFirst;
    LatchMisleadsIff(s);
    if LatchMisleads(s) {
      MisleadingLatchReboots(s);
    }
    if RebootMisses(s) {
      MissedWorkerIsMisleading(s);
    }
  }
}
