/** How many workers there can be, over every run and every use of `tune`. */
module PoolCapacity {
  import opened PoolModel
  import opened PoolInvariant
  import opened PoolRuns
  import opened PoolDelivery
  import opened PoolFootprints

  /** Only `tune` stores a capacity, and the peak follows; only a spawn raises `running`. */
  ghost predicate CapacityMoves(s: State, e: Event, s': State) {
    && s'.cfg == s.cfg
    && (!e.StoreCapacity? ==> s'.capacity == s.capacity && s'.peak == s.peak)
    && (e.StoreCapacity? ==> s'.peak == s.peak || s'.peak == s'.capacity)
    && (!e.Spawn? ==> s'.running <= s.running)
  }

  lemma StepSized(s: State, e: Event, s': State)
    requires Step(s, e, s')
    ensures CapacityMoves(s, e, s')
  {
    hide CallerEvent, WorkerEvent, ServiceEvent, AdminEvent, TuneEvent;
    if CallerEvent(s, e, s') {
      CallersTouch(s, e, s');
    } else if WorkerEvent(s, e, s') {
      WorkersTouch(s, e, s');
    } else if ServiceEvent(s, e, s') {
      ServicesTouch(s, e, s');
    } else if AdminEvent(s, e, s') {
      AdminsTouch(s, e, s');
    } else {
      TunersTouch(s, e, s');
    }
  }

  /** The peak was in force at some time. */
  lemma {:induction false} PeakWasInForce(cfg: Config, states: seq<State>, events: seq<Event>, j: nat) returns (k: nat)
    requires IsPoolRun(cfg, states, events) && j < |states|
    ensures k <= j && states[k].capacity == states[j].peak && states[j].cfg == cfg
    decreases j
  {
    hide Step;
    if j == 0 {
      k := 0;
    } else {
      StepSized(states[j - 1], events[j - 1], states[j]);
      if states[j].peak == states[j].capacity {
        k := j;
        var k' := PeakWasInForce(cfg, states, events, j - 1);
      } else {
        k := PeakWasInForce(cfg, states, events, j - 1);
      }
    }
  }

  /** In a pool with a capacity, `running` never exceeds the largest capacity ever in force. */
  lemma RunningWithinSomeCapacity(cfg: Config, states: seq<State>, events: seq<Event>, j: nat)
    requires IsPoolRun(cfg, states, events) && j < |states| && cfg.size != -1
    ensures exists k :: 0 <= k <= j && states[j].running <= states[k].capacity
  {
    hide Step, LockInv, LiveInv, CondInv, WaitInv, LimitInv, CustodyInv, RegistryInv, TaskInv, WakeInv, ResetInv, PurgeInv, TickInv, LatchInv;
    var k := PeakWasInForce(cfg, states, events, j);
    InitialInv(cfg);
    RunKeeps(states, events, 0, j);
    assert states[j].running <= states[k].capacity;
  }

  lemma {:induction false} CapacityStays(states: seq<State>, events: seq<Event>, i: nat, j: nat)
    requires IsRun(states, events) && i <= j < |states|
    requires forall k :: i <= k < j ==> !events[k].StoreCapacity?
    ensures states[j].capacity == states[i].capacity
    decreases j - i
  {
    hide Step;
    if i < j {
      CapacityStays(states, events, i, j - 1);
      StepSized(states[j - 1], events[j - 1], states[j]);
    }
  }

  /** Without a call of `tune` that takes effect, `running` never exceeds the size of the pool. */
  lemma RunningWithinSize(cfg: Config, states: seq<State>, events: seq<Event>, j: nat)
    requires IsPoolRun(cfg, states, events) && j < |states| && cfg.size != -1
    requires forall k :: 0 <= k < j ==> !events[k].StoreCapacity?
    ensures states[j].running <= cfg.size == states[j].capacity
  {
    hide Step;
    RunningWithinSomeCapacity(cfg, states, events, j);
    var k :| 0 <= k <= j && states[j].running <= states[k].capacity;
    CapacityStays(states, events, 0, k);
    CapacityStays(states, events, 0, j);
  }

  /** `running` is within the capacity and no spawn under way relies on an older, larger one. */
  ghost predicate Settled(s: State) {
    && s.capacity > 0 && s.running <= s.capacity
    && forall c :: c in s.callers && (s.callers[c].Sized? || s.callers[c].Spawning? || s.callers[c].Fetched?) ==>
         s.callers[c].cap <= s.capacity
  }

  lemma SpawnBelow(s: State, s': State, c: CallerId)
    requires CapacityInv(s.cfg, s.capacity, s.running, s.peak, s.callers, s.tuners)
    requires Spawns(s, s', c) && Settled(s)
    ensures s'.running <= s.capacity
  {
  }

  ghost predicate NewCallersStart(s: State, s': State) {
    forall c :: c in s'.callers && c !in s.callers ==> s'.callers[c].Start?
  }

  lemma StepStart(s: State, e: Event, s': State)
    requires Step(s, e, s')
    ensures NewCallersStart(s, s')
  {
    hide CallerEvent, WorkerEvent, ServiceEvent, AdminEvent, TuneEvent;
    if CallerEvent(s, e, s') {
      CallersTouch(s, e, s');
    } else if WorkerEvent(s, e, s') {
      WorkersOnlyNotify(s, e, s');
    } else if ServiceEvent(s, e, s') {
      ServicesOnlyNotify(s, e, s');
    } else if AdminEvent(s, e, s') {
      AdminOnlyNotifies(s, e, s');
    } else {
      TunersOnlyNotify(s, e, s');
    }
  }

  lemma SettledStep(s: State, e: Event, s': State)
    requires CapacityInv(s.cfg, s.capacity, s.running, s.peak, s.callers, s.tuners)
    requires Step(s, e, s') && Settled(s) && !e.StoreCapacity?
    ensures Settled(s')
  {
    hide Step, CapacityInv;
    StepSized(s, e, s');
    StepStart(s, e, s');
    forall c | c in s'.callers && (s'.callers[c].Sized? || s'.callers[c].Spawning? || s'.callers[c].Fetched?)
      ensures s'.callers[c].cap <= s.capacity
    {
      StepFollows(s, e, s', c);
    }
    if e.Spawn? {
      SpawnIsStep(s, e, s');
      SpawnBelow(s, s', e.c);
    }
  }

  lemma SpawnIsStep(s: State, e: Event, s': State)
    requires Step(s, e, s') && e.Spawn?
    ensures Spawns(s, s', e.c)
  {
    hide Spawns;
  }

  /** After the last `tune` that takes effect: once `running` is within the new capacity and no
      spawn holds an older one, it stays within it for the rest of the run. */
  lemma {:induction false} RunningStaysWithinCapacity(cfg: Config, states: seq<State>, events: seq<Event>, i: nat, j: nat)
    requires IsPoolRun(cfg, states, events) && i <= j < |states|
    requires Settled(states[i])
    requires forall k :: i <= k < j ==> !events[k].StoreCapacity?
    ensures states[j].running <= states[j].capacity == states[i].capacity
    ensures Settled(states[j])
    decreases j - i
  {
    hide Step, LockInv, LiveInv, CondInv, WaitInv, LimitInv, CustodyInv, RegistryInv, CapacityInv, TaskInv, WakeInv, ResetInv, PurgeInv, TickInv, LatchInv;
    CapacityStays(states, events, i, j);
    if i < j {
      RunningStaysWithinCapacity(cfg, states, events, i, j - 1);
      InitialInv(cfg);
      RunKeeps(states, events, 0, j - 1);
      SettledStep(states[j - 1], events[j - 1], states[j]);
    }
  }
}
