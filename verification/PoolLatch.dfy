/** What the latch `all_done` says, and when it can be trusted. */
module PoolLatch {
  import opened Sums
  import opened PoolModel
  import opened PoolInvariant
  import opened PoolFootprints
  import opened PoolRuns
  import opened PoolCapacity
  import opened PoolClosing
  import opened PoolRest
  import opened PoolDrain
  import opened PoolShutdown

  // ----- No workers, so closed -----------------------------------------------------------------

  /** After `release` has returned: with no worker running and none between its decrement and its
      close of the latch, the latch is closed, so the wait of `reboot` is over. */
  lemma LatchIsClosed(s: State)
    requires Reachable(s) && ReleaseReturned(s.admin) && s.running == 0
    requires forall w :: w in s.threads ==> !AboutToClose(s.threads[w], s.latch)
    ensures s.latch in s.closed
    ensures s.admin.AWaitLatch? ==> AdminMoves(s, s.(admin := AWaitPurge), true)
  {
    hide Reachable, LockInv, LiveInv, CondInv, WaitInv, LimitInv, CustodyInv, RegistryInv, CapacityInv, TaskInv, WakeInv, ResetInv, PurgeInv, TickInv;
    ReachableInv(s);
  }

  /** The pool is in service and nobody is on the way to close the current latch. */
  ghost predicate Unlatched(s: State) {
    && s.admin.AIdle? && s.open && s.latch !in s.closed
    && forall w :: w in s.threads ==> !s.threads[w].ExitLoad? && s.threads[w] != ExitClose(s.latch)
  }

  lemma WorkersKeepUnlatched(s: State, e: Event, s': State)
    requires WorkerEvent(s, e, s') && Unlatched(s)
    ensures Unlatched(s')
  {
    hide WorkerEvent;
    WorkersTouch(s, e, s');
    forall w | w in s'.threads ensures !s'.threads[w].ExitLoad? && s'.threads[w] != ExitClose(s'.latch) {
      NobodyLoadsLatch(s, e, s', w);
    }
  }

  /** Only a worker that tests `closed` can go on to load the latch, and the pool is open. */
  lemma NobodyLoadsLatch(s: State, e: Event, s': State, w: WorkerId)
    requires WorkerEvent(s, e, s') && Unlatched(s) && w in s'.threads
    ensures !s'.threads[w].ExitLoad? && s'.threads[w] != ExitClose(s.latch)
  {
    hide WorkerMoves, Receives, Completes, GivesUp, WorkerTakesLock, IsRefused, Inserts, Announces, Retires, ClosesLatch, Recycles, SignalsLate;
    if e.WorkerMove? {
      MoverLoadsNoLatch(s, s', e.w, e.now, w);
    } else if e.Receive? || e.Complete? || e.GiveUp? || e.WorkerLock? || e.Refuse? {
      OthersLoadNoLatch(s, e, s', w);
    } else {
      EndLoadsNoLatch(s, e, s', w);
    }
  }

  lemma MoverLoadsNoLatch(s: State, s': State, v: WorkerId, now: int, w: WorkerId)
    requires WorkerMoves(s, s', v, now) && Unlatched(s) && w in s'.threads
    ensures !s'.threads[w].ExitLoad? && s'.threads[w] != ExitClose(s.latch)
  {
  }

  lemma OthersLoadNoLatch(s: State, e: Event, s': State, w: WorkerId)
    requires WorkerEvent(s, e, s') && Unlatched(s) && w in s'.threads
    requires e.Receive? || e.Complete? || e.GiveUp? || e.WorkerLock? || e.Refuse?
    ensures !s'.threads[w].ExitLoad? && s'.threads[w] != ExitClose(s.latch)
  {
  }

  lemma EndLoadsNoLatch(s: State, e: Event, s': State, w: WorkerId)
    requires WorkerEvent(s, e, s') && Unlatched(s) && w in s'.threads
    requires e.InsertWorker? || e.Announce? || e.Retire? || e.CloseLatch? || e.RecycleWorker? || e.LateSignal?
    ensures !s'.threads[w].ExitLoad? && s'.threads[w] != ExitClose(s.latch)
  {
  }

  lemma UnlatchedStep(s: State, e: Event, s': State)
    requires Step(s, e, s') && Unlatched(s) && !e.Close?
    ensures Unlatched(s')
  {
    hide CallerEvent, WorkerEvent, ServiceEvent, AdminEvent, TuneEvent;
    if CallerEvent(s, e, s') {
      CallersTouch(s, e, s');
    } else if WorkerEvent(s, e, s') {
      WorkersKeepUnlatched(s, e, s');
    } else if ServiceEvent(s, e, s') {
      ServicesTouch(s, e, s');
    } else if AdminEvent(s, e, s') {
      AdminsTouch(s, e, s');
    } else {
      TunersTouch(s, e, s');
    }
  }

  lemma {:induction false} UnlatchedRun(states: seq<State>, events: seq<Event>, j: nat)
    requires IsRun(states, events) && j < |states| && Unlatched(states[0])
    requires forall k :: 0 <= k < j ==> !events[k].Close?
    ensures Unlatched(states[j])
    decreases j
  {
    hide Step, Unlatched;
    if j > 0 {
      UnlatchedRun(states, events, j - 1);
      UnlatchedStep(states[j - 1], events[j - 1], states[j]);
    }
  }

  /** Some run from here closes the current latch although nobody calls `release`. */
  ghost predicate ClosesEarly(s: State) {
    exists states: seq<State>, events: seq<Event> ::
      && IsRun(states, events) && states[0] == s && states[|events|].latch == s.latch
      && s.latch in states[|events|].closed
      && forall i :: 0 <= i < |events| ==> !events[i].Close?
  }

  lemma LatecomerClosesLatch(s: State, w: WorkerId)
    requires w in s.threads && s.threads[w].ExitLoad?
    ensures ClosesEarly(s)
  {
    var s1 := s.(threads := s.threads[w := WorkerGoes(s.threads[w], s, 0)]);
    var s2 := s1.(threads := s1.threads[w := Recycle], closed := s1.closed + {s.latch});
    var e1, e2 := WorkerMove(w, 0), CloseLatch(w);
    assert WorkerEvent(s, e1, s1) && WorkerEvent(s1, e2, s2);
    hide WorkerEvent, CallerEvent, ServiceEvent, AdminEvent, TuneEvent;
    var states, events := [s, s1, s2], [e1, e2];
    assert IsRun(states, events);
  }

  /** The latch that `reboot` installs stays open until the next `release` exactly when no worker
      that saw the pool closed is still about to load the latch. */
  lemma FreshLatchStaysOpen(s: State, s': State)
    requires Reachable(s) && RenewsLatch(s, s')
    ensures s'.latch !in s'.closed
    ensures ClosesEarly(s') <==> exists w :: w in s'.threads && s'.threads[w].ExitLoad?
  {
    hide Reachable, Step, LockInv, LiveInv, CondInv, WaitInv, LimitInv, CustodyInv, RegistryInv, CapacityInv, TaskInv, WakeInv, PurgeInv, TickInv;
    ReachableInv(s);
    if w :| w in s'.threads && s'.threads[w].ExitLoad? {
      LatecomerClosesLatch(s', w);
    } else if ClosesEarly(s') {
      var states: seq<State>, events: seq<Event> :|
        && IsRun(states, events) && states[0] == s' && states[|events|].latch == s'.latch
        && s'.latch in states[|events|].closed
        && forall i :: 0 <= i < |events| ==> !events[i].Close?;
      UnlatchedRun(states, events, |events|);
    }
  }

  // ----- Closed, so no workers -----------------------------------------------------------------

  /** Workers are running although the latch is closed, or will be closed by somebody who is already
      on the way: a worker that took `running` to zero before, or `release` after its zero test. */
  ghost predicate LatchAhead(s: State) {
    && s.running > 0
    && (|| s.latch in s.closed || s.admin.AClosing?
        || exists w :: w in s.threads && AboutToClose(s.threads[w], s.latch))
  }

  /** A closed pool in which the latch, once closed, says that all workers are done. */
  ghost predicate Sound(s: State) {
    !s.open && NoSpawner(s) && !LatchAhead(s)
  }

  lemma CallersKeepBehind(s: State, e: Event, s': State)
    requires CallerEvent(s, e, s') && !LatchAhead(s) && (e.Spawn? ==> s.running > 0)
    ensures !LatchAhead(s')
  {
    hide CallerEvent;
    CallersTouch(s, e, s');
  }

  /** With workers left, no worker sets out to close the latch. */
  lemma NobodySetsOut(s: State, e: Event, s': State, w: WorkerId)
    requires WorkerEvent(s, e, s') && !s.open && s'.running > 0 && w in s'.threads
    ensures AboutToClose(s'.threads[w], s.latch) ==> w in s.threads && AboutToClose(s.threads[w], s.latch)
  {
    hide WorkerMoves, Receives, Completes, GivesUp, WorkerTakesLock, IsRefused, Inserts, Announces, Retires, ClosesLatch, Recycles, SignalsLate;
    if e.WorkerMove? {
      MoverSetsNotOut(s, s', e.w, e.now, w);
    } else if e.Receive? || e.Complete? || e.GiveUp? || e.WorkerLock? || e.Refuse? {
      OthersSetNotOut(s, e, s', w);
    } else {
      EndSetsNotOut(s, e, s', w);
    }
  }

  lemma MoverSetsNotOut(s: State, s': State, v: WorkerId, now: int, w: WorkerId)
    requires WorkerMoves(s, s', v, now) && w in s'.threads
    ensures AboutToClose(s'.threads[w], s.latch) ==> w in s.threads && AboutToClose(s.threads[w], s.latch)
  {
  }

  lemma OthersSetNotOut(s: State, e: Event, s': State, w: WorkerId)
    requires WorkerEvent(s, e, s') && w in s'.threads
    requires e.Receive? || e.Complete? || e.GiveUp? || e.WorkerLock? || e.Refuse?
    ensures AboutToClose(s'.threads[w], s.latch) ==> w in s.threads && AboutToClose(s.threads[w], s.latch)
  {
  }

  lemma EndSetsNotOut(s: State, e: Event, s': State, w: WorkerId)
    requires WorkerEvent(s, e, s') && s'.running > 0 && w in s'.threads
    requires e.InsertWorker? || e.Announce? || e.Retire? || e.CloseLatch? || e.RecycleWorker? || e.LateSignal?
    ensures AboutToClose(s'.threads[w], s.latch) ==> w in s.threads && AboutToClose(s.threads[w], s.latch)
  {
  }

  lemma WorkersKeepBehind(s: State, e: Event, s': State)
    requires WorkerEvent(s, e, s') && !s.open && !LatchAhead(s)
    ensures !LatchAhead(s')
  {
    hide WorkerEvent;
    WorkersTouch(s, e, s');
    if s'.running > 0 {
      forall w | w in s'.threads ensures !AboutToClose(s'.threads[w], s'.latch) {
        NobodySetsOut(s, e, s', w);
      }
    }
  }

  lemma ServicesKeepBehind(s: State, e: Event, s': State)
    requires ServiceEvent(s, e, s') && !LatchAhead(s)
    ensures !LatchAhead(s')
  {
    hide ServiceEvent;
    ServicesTouch(s, e, s');
  }

  /** `release` sets out to close the latch only when it finds nobody running. */
  lemma AdminSetsNotOut(s: State, e: Event, s': State)
    requires AdminEvent(s, e, s') && Closed(s.admin)
    ensures s'.latch == s.latch
    ensures s'.admin.AClosing? ==> s.running == 0
    ensures s'.closed == s.closed || s.admin.AClosing?
  {
    hide AdminMoves;
    if e.AdminMove? {
      MoveSetsNotOut(s, s', e.onward);
    }
  }

  lemma MoveSetsNotOut(s: State, s': State, onward: bool)
    requires AdminMoves(s, s', onward)
    ensures s'.latch == s.latch && s'.closed == s.closed && (s'.admin.AClosing? ==> s.running == 0)
  {
  }

  lemma AdminKeepsBehind(s: State, e: Event, s': State)
    requires AdminEvent(s, e, s') && Closed(s.admin) && !LatchAhead(s)
    ensures !LatchAhead(s')
  {
    hide AdminEvent;
    AdminsTouch(s, e, s');
    AdminSetsNotOut(s, e, s');
  }

  lemma TunersKeepBehind(s: State, e: Event, s': State)
    requires TuneEvent(s, e, s') && !LatchAhead(s)
    ensures !LatchAhead(s')
  {
    hide TuneEvent;
    TunersTouch(s, e, s');
  }

  /** The latch does not get ahead of the workers but by a spawn when none is running. */
  lemma BehindStep(s: State, e: Event, s': State)
    requires Inv(s) && !s.open && !LatchAhead(s) && Step(s, e, s') && !e.Reopen? && (e.Spawn? ==> s.running > 0)
    ensures !LatchAhead(s')
  {
    hide LatchAhead, CallerEvent, WorkerEvent, ServiceEvent, AdminEvent, TuneEvent;
    hide LockInv, LiveInv, CondInv, WaitInv, LimitInv, CustodyInv, RegistryInv, CapacityInv, TaskInv, WakeInv, PurgeInv, TickInv, LatchInv;
    if CallerEvent(s, e, s') {
      CallersKeepBehind(s, e, s');
    } else if WorkerEvent(s, e, s') {
      WorkersKeepBehind(s, e, s');
    } else if ServiceEvent(s, e, s') {
      ServicesKeepBehind(s, e, s');
    } else if AdminEvent(s, e, s') {
      AdminKeepsBehind(s, e, s');
    } else {
      TunersKeepBehind(s, e, s');
    }
  }

  lemma SoundStep(s: State, e: Event, s': State)
    requires Inv(s) && Sound(s) && Step(s, e, s') && !e.Reopen?
    ensures Sound(s')
  {
    hide LatchAhead, Step, Inv;
    OnlyReopenOpens(s, e, s');
    NoNewSpawners(s, e, s');
    if e.Spawn? {
      SpawnIsStep(s, e, s');
    }
    BehindStep(s, e, s');
  }

  lemma {:induction false} SoundRun(states: seq<State>, events: seq<Event>, j: nat)
    requires IsRun(states, events) && j < |states| && Inv(states[0]) && Sound(states[0])
    requires forall k :: 0 <= k < j ==> !events[k].Reopen?
    ensures Inv(states[j]) && Sound(states[j])
    decreases j
  {
    hide Step, Inv, Sound;
    if j > 0 {
      SoundRun(states, events, j - 1);
      SoundStep(states[j - 1], events[j - 1], states[j]);
      StepKeeps(states[j - 1], events[j - 1], states[j]);
    }
  }

  /** Some run from here, without a reopening, closes the current latch while a worker is running:
      `reboot` then goes on although not all workers are done. */
  ghost predicate LatchMisleads(s: State) {
    exists states: seq<State>, events: seq<Event> :: IsRun(states, events) && Misled(s, states, events)
  }

  ghost predicate Misled(s: State, states: seq<State>, events: seq<Event>)
    requires |states| == |events| + 1
  {
    && states[0] == s && states[|events|].running > 0 && s.latch in states[|events|].closed
    && forall i :: 0 <= i < |events| ==> !events[i].Reopen?
  }

  lemma MisleadsNow(s: State)
    requires s.running > 0 && s.latch in s.closed
    ensures LatchMisleads(s)
  {
    var states, events: seq<Event> := [s], [];
    assert IsRun(states, events) && Misled(s, states, events);
  }

  lemma MisleadsAfter(s: State, e: Event, s': State)
    requires Step(s, e, s') && !e.Reopen? && s'.latch == s.latch && LatchMisleads(s')
    ensures LatchMisleads(s)
  {
    hide Step;
    var rest: seq<State>, more: seq<Event> :| IsRun(rest, more) && Misled(s', rest, more);
    var states, events := [s] + rest, [e] + more;
    forall i | 0 <= i < |events| ensures Step(states[i], events[i], states[i + 1]) && !events[i].Reopen? {
      if i > 0 {
        assert states[i] == rest[i - 1] && states[i + 1] == rest[i] && events[i] == more[i - 1];
      }
    }
    assert IsRun(states, events) && states[|events|] == rest[|more|];
    assert Misled(s, states, events);
  }

  lemma CloserMisleads(s: State, w: WorkerId)
    requires !s.open && s.running > 0 && w in s.threads && s.threads[w] == ExitClose(s.latch)
    ensures LatchMisleads(s)
  {
    hide LatchMisleads;
    var s' := s.(threads := s.threads[w := Recycle], closed := s.closed + {s.latch});
    MisleadsNow(s');
    assert WorkerEvent(s, CloseLatch(w), s');
    hide WorkerEvent;
    MisleadsAfter(s, CloseLatch(w), s');
  }

  /** A worker on its way to close the latch needs neither the lock nor anybody's help. */
  lemma LatecomerMisleads(s: State, w: WorkerId)
    requires !s.open && s.running > 0 && w in s.threads && AboutToClose(s.threads[w], s.latch)
    ensures LatchMisleads(s)
    decreases if s.threads[w].ExitZero? then 2 else if s.threads[w].ExitLoad? then 1 else 0
  {
    hide LatchMisleads;
    if s.threads[w].ExitClose? {
      CloserMisleads(s, w);
    } else {
      var s' := s.(threads := s.threads[w := WorkerGoes(s.threads[w], s, 0)]);
      LatecomerMisleads(s', w);
      assert WorkerEvent(s, WorkerMove(w, 0), s');
      hide WorkerEvent;
      MisleadsAfter(s, WorkerMove(w, 0), s');
    }
  }

  lemma ReleaseMisleads(s: State)
    requires s.running > 0 && s.admin.AClosing?
    ensures LatchMisleads(s)
  {
    hide LatchMisleads;
    var s' := s.(admin := AReleased, closed := s.closed + {s.latch});
    MisleadsNow(s');
    assert AdminEvent(s, ReleaseLatch, s');
    hide AdminEvent;
    MisleadsAfter(s, ReleaseLatch, s');
  }

  lemma AheadMisleads(s: State)
    requires !s.open && LatchAhead(s)
    ensures LatchMisleads(s)
  {
    hide LatchMisleads;
    if s.latch in s.closed {
      MisleadsNow(s);
    } else if s.admin.AClosing? {
      ReleaseMisleads(s);
    } else {
      var w :| w in s.threads && AboutToClose(s.threads[w], s.latch);
      LatecomerMisleads(s, w);
    }
  }

  // ----- A call still on its way ---------------------------------------------------------------

  /** The latch is replaced by `reboot` only, and a closed latch stays closed. */
  ghost predicate LatchStays(s: State, s': State) {
    s'.latch == s.latch && s.closed <= s'.closed
  }

  lemma AdminLatchStays(s: State, e: Event, s': State)
    requires AdminEvent(s, e, s') && Closed(s.admin)
    ensures LatchStays(s, s')
  {
    hide AdminMoves;
    if e.AdminMove? {
      MoveSetsNotOut(s, s', e.onward);
    }
  }

  lemma LatchStaysStep(s: State, e: Event, s': State)
    requires Inv(s) && !s.open && Step(s, e, s')
    ensures LatchStays(s, s')
  {
    hide CallerEvent, WorkerEvent, ServiceEvent, AdminEvent, TuneEvent;
    hide LockInv, LiveInv, CondInv, WaitInv, LimitInv, CustodyInv, RegistryInv, CapacityInv, TaskInv, WakeInv, PurgeInv, TickInv, LatchInv;
    if CallerEvent(s, e, s') {
      CallersTouch(s, e, s');
    } else if WorkerEvent(s, e, s') {
      WorkersTouch(s, e, s');
    } else if ServiceEvent(s, e, s') {
      ServicesTouch(s, e, s');
    } else if AdminEvent(s, e, s') {
      AdminLatchStays(s, e, s');
    } else {
      TunersTouch(s, e, s');
    }
  }

  lemma {:induction false} LatchStaysRun(states: seq<State>, events: seq<Event>, j: nat)
    requires IsRun(states, events) && j < |states| && Inv(states[0]) && !states[0].open
    requires forall k :: 0 <= k < j ==> !events[k].Reopen?
    ensures Inv(states[j]) && !states[j].open && LatchStays(states[0], states[j])
    decreases j
  {
    hide Step, Inv;
    if j > 0 {
      LatchStaysRun(states, events, j - 1);
      LatchStaysStep(states[j - 1], events[j - 1], states[j]);
      OnlyReopenOpens(states[j - 1], events[j - 1], states[j]);
      StepKeeps(states[j - 1], events[j - 1], states[j]);
    }
  }

  lemma {:induction false} MisleadsAfterRun(states: seq<State>, events: seq<Event>, j: nat)
    requires IsRun(states, events) && j < |states| && Inv(states[0]) && !states[0].open
    requires forall k :: 0 <= k < |events| ==> !events[k].Reopen?
    requires LatchMisleads(states[|events|])
    ensures LatchMisleads(states[j])
    decreases |events| - j
  {
    hide Step, Inv, LatchMisleads;
    if j < |events| {
      MisleadsAfterRun(states, events, j + 1);
      LatchStaysRun(states, events, j);
      LatchStaysStep(states[j], events[j], states[j + 1]);
      MisleadsAfter(states[j], events[j], states[j + 1]);
    }
  }

  lemma AppearingMisleads(s: State)
    requires Inv(s) && !s.open && s.latch in s.closed && WorkerAppears(s)
    ensures LatchMisleads(s)
  {
    hide Step, Inv;
    var states: seq<State>, events: seq<Event> :|
      && IsRun(states, events) && states[0] == s && states[|events|].running > 0
      && forall i :: 0 <= i < |events| ==> !events[i].Reopen?;
    LatchStaysRun(states, events, |events|);
    assert Misled(s, states, events);
  }

  lemma RestingLatch(s: State)
    requires Reachable(s) && !s.open && AtRest(s)
    ensures s.running == 0 && s.latch in s.closed && WasReset(s.admin) && ReleaseReturned(s.admin)
  {
    hide Reachable, LockInv, CondInv, WaitInv, LimitInv, CustodyInv, RegistryInv, CapacityInv, TaskInv, WakeInv, PurgeInv, TickInv;
    ReachableInv(s);
    assert Sum(s.threads, LiveWeight) == 0;
  }

  /** A call that has passed the closed check and not gone for the lock can wait until everything else
      has come to its end, the latch included, and start a worker then. */
  lemma LatecallMisleads(s: State, c: CallerId)
    requires Reachable(s) && !s.open && c in s.callers && s.callers[c].Ready?
    ensures LatchMisleads(s)
  {
    hide Reachable, Step, Inv, Measure, Advances, AtRest, LatchMisleads, WorkerAppears;
    var states, events := ClosedPoolComesToRest(s);
    var last := states[|events|];
    RestingLatch(last);
    EmptyPoolStaysEmpty(last);
    assert MaySpawn(last.callers[c]);
    ReachableInv(last);
    AppearingMisleads(last);
    ReachableInv(s);
    MisleadsAfterRun(states, events, 0);
  }

  // ----- The condition -------------------------------------------------------------------------

  /** As long as no call may still spawn, the latch of a closed pool misleads exactly if it is ahead
      already. */
  lemma LatchMisleadsExactly(s: State)
    requires Reachable(s) && !s.open && NoSpawner(s)
    ensures LatchMisleads(s) <==> LatchAhead(s)
  {
    hide Reachable, Step, NoSpawner, LatchInv, Inv;
    ReachableInv(s);
    if LatchAhead(s) {
      AheadMisleads(s);
    } else if LatchMisleads(s) {
      var states: seq<State>, events: seq<Event> :| IsRun(states, events) && Misled(s, states, events);
      SoundRun(states, events, |events|);
      LatchStaysRun(states, events, |events|);
    }
  }

  /** What `reboot` may rely on: from a state of a closed pool in which no call may still spawn and the
      latch is not ahead, whenever the latch is found closed before the reopening, all workers are done. */
  lemma ClosedLatchMeansNoWorkers(cfg: Config, states: seq<State>, events: seq<Event>, i: nat, j: nat)
    requires IsPoolRun(cfg, states, events) && i <= j < |states|
    requires !states[i].open && NoSpawner(states[i]) && !LatchAhead(states[i])
    requires forall k :: i <= k < j ==> !events[k].Reopen?
    ensures states[j].latch in states[j].closed ==> states[j].running == 0
  {
    hide Step, LatchAhead, NoSpawner, Inv;
    InitialInv(cfg);
    RunKeeps(states, events, 0, i);
    forall k | 0 <= k < |events[i..]| ensures Step(states[i..][k], events[i..][k], states[i..][k + 1]) {
      assert states[i..][k] == states[i + k] && states[i..][k + 1] == states[i + k + 1];
    }
    SoundRun(states[i..], events[i..], j - i);
    SoundLatch(states[j]);
  }

  lemma SoundLatch(s: State)
    requires Inv(s) && Sound(s)
    ensures s.latch in s.closed ==> s.running == 0
  {
    hide LockInv, CondInv, WaitInv, LimitInv, CustodyInv, RegistryInv, CapacityInv, TaskInv, WakeInv, ResetInv, PurgeInv, TickInv, LatchInv;
  }
}
