/** Blocked callers: when they are woken, how many there are, and how they leave. */
module PoolWaiting {
  import opened Wrappers
  import opened CondVar
  import opened Sums
  import opened PoolModel
  import opened PoolInvariant
  import opened PoolRuns
  import opened PoolOwnership
  import opened PoolDelivery
  import opened PoolFootprints

  // ----- Nobody sleeps beside an idle worker ---------------------------------------------------

  /** Whenever the lock is free and the pool is open: if some caller sleeps in the current generation
      and not every parked caller has a token, then every idle worker has a wake-up under way, a
      token or a caller that has left the wait and wants the lock. */
  lemma NoIdleWorkerIsStranded(s: State, c: CallerId)
    requires Reachable(s) && s.lock == None && s.open
    requires c in s.callers && s.callers[c].Parked? && s.callers[c].since == s.cond.generation
    requires s.cond.parked > s.cond.tokens
    ensures |s.queue| <= s.cond.tokens + |Where(s.callers, IsWoken)|
  {
    hide Reachable, LockInv, LiveInv, CondInv, WaitInv, LimitInv, CustodyInv, RegistryInv, CapacityInv, TaskInv, ResetInv, PurgeInv, TickInv, LatchInv;
    ReachableInv(s);
    SumAtLeast(s.callers, c, CurrentWeight(s.cond.generation));
    SumCounts(s.callers, WokenWeight, IsWoken);
  }

  /** So a caller that sleeps with no wake-up pending anywhere sees an empty queue. */
  lemma SleepersSeeAnEmptyQueue(s: State, c: CallerId)
    requires Reachable(s) && s.lock == None && s.open
    requires c in s.callers && s.callers[c].Parked? && s.callers[c].since == s.cond.generation
    requires s.cond.tokens == 0 && forall d :: d in s.callers ==> !s.callers[d].Woken?
    ensures s.queue == []
  {
    hide Reachable, LockInv, LiveInv, WaitInv, LimitInv, CustodyInv, RegistryInv, CapacityInv, TaskInv, WakeInv, ResetInv, PurgeInv, TickInv, LatchInv;
    ReachableInv(s);
    SumAtLeast(s.callers, c, ParkedWeight);
    NoIdleWorkerIsStranded(s, c);
    assert Where(s.callers, IsWoken) == {};
  }

  /** A sleeper that wakes up for no reason, which it may, looks, and is asleep again with nothing changed. */
  lemma SpuriousWakeUpChangesNothing(s: State, c: CallerId)
    requires c in s.callers && Asleep(s.callers[c], s.cond.generation) && !MayLeave(s.cond, s.callers[c].since)
    ensures exists mid :: Step(s, Spurious(c), mid) && mid != s && Step(mid, Sleep(c), s)
  {
    hide WorkerEvent, ServiceEvent, AdminEvent, TuneEvent;
    var mid := s.(callers := s.callers[c := Parked(s.callers[c].since, true)]);
    assert CallerEvent(s, Spurious(c), mid) && mid.callers[c].awake;
    assert mid.callers[c := s.callers[c]] == s.callers;
    assert CallerEvent(mid, Sleep(c), s);
    hide CallerEvent;
    assert Step(s, Spurious(c), mid) && Step(mid, Sleep(c), s);
  }

  // ----- The limit on blocked callers ----------------------------------------------------------

  lemma WaitingRespectsTheLimit(s: State)
    requires Reachable(s)
    ensures 0 <= s.waiting
    ensures s.cfg.maxBlocking > 0 ==> s.waiting <= s.cfg.maxBlocking
    ensures s.cfg.nonblocking ==> s.waiting == 0
    ensures s.lock == None ==> s.waiting == s.cond.parked + |Where(s.callers, IsWoken)|
  {
    hide Reachable;
    ReachableInv(s);
    SumCounts(s.callers, WokenWeight, IsWoken);
    if s.lock == None {
      WaitingSplits(s);
    }
  }

  /** A call that found the pool full is turned away exactly in nonblocking mode, with a negative limit,
      or when as many callers as a positive limit allows are counted as waiting; otherwise it waits too. */
  lemma TurnedAwayExactly(s: State, c: CallerId)
    requires Reachable(s) && c in s.callers && s.callers[c].Full?
    ensures (exists s' :: Bails(s, s', c)) <==>
      || s.cfg.nonblocking || s.cfg.maxBlocking < 0
      || (s.cfg.maxBlocking > 0 && |Where(s.callers, CountedWaiting)| == s.cfg.maxBlocking)
    ensures (exists s' :: Queues(s, s', c)) <==> !exists s' :: Bails(s, s', c)
  {
    hide Reachable, Where, Bails, Queues;
    WaitingCounts(s);
    WaitingRespectsTheLimit(s);
    OverloadBails(s, c);
  }

  lemma OverloadBails(s: State, c: CallerId)
    requires c in s.callers && s.callers[c].Full?
    ensures (exists s' :: Bails(s, s', c)) <==> Overloaded(s)
    ensures (exists s' :: Queues(s, s', c)) <==> !Overloaded(s)
  {
    if Overloaded(s) {
      assert Bails(s, s.(callers := s.callers[c := Rejected(PoolOverload)], lock := None), c);
    } else {
      assert Queues(s, s.(callers := s.callers[c := Queuing], waiting := s.waiting + 1), c);
    }
  }

  lemma {:induction false} SumAdds(m: map<CallerId, Caller>)
    requires forall c :: c in m ==> !CallerLocks(m[c])
    ensures Sum(m, WaitingWeight) == Sum(m, ParkedWeight) + Sum(m, WokenWeight)
    decreases |m|
  {
    if m != map[] {
      var c :| c in m;
      SumRemove(m, c, WaitingWeight);
      SumRemove(m, c, ParkedWeight);
      SumRemove(m, c, WokenWeight);
      SumAdds(m - {c});
    }
  }

  lemma WaitingSplits(s: State)
    requires LockInv(s.lock, s.callers, s.threads, s.purge, s.admin) && s.lock == None
    requires CondInv(s.cond, s.callers) && WaitInv(s.waiting, s.callers)
    ensures s.waiting == s.cond.parked + Sum(s.callers, WokenWeight)
  {
    SumAdds(s.callers);
  }

  /** Was admitted to wait at some time. */
  predicate Admitted(p: Caller) {
    || p.Queuing? || p.Parked? || p.Woken? || p.Relocked? || Again(p)
    || p.Fetched? || p.Holding? || p.Accepted? || p == Rejected(PoolClosed)
  }

  lemma AdmittedStep(s: State, e: Event, s': State, c: CallerId)
    requires LimitInv(s.cfg, s.waiting, s.callers)
    requires Step(s, e, s') && c in s.callers && Admitted(s.callers[c])
    ensures c in s'.callers && Admitted(s'.callers[c])
  {
    hide Step;
    StepFollows(s, e, s', c);
  }

  /** A caller that has been admitted to wait is never turned away with `PoolOverload`: it gets a
      worker or learns that the pool is closed. */
  lemma {:induction false} AdmittedIsNeverOverloaded(cfg: Config, states: seq<State>, events: seq<Event>, i: nat, j: nat, c: CallerId)
    requires IsPoolRun(cfg, states, events) && i <= j < |states|
    requires c in states[i].callers && states[i].callers[c].Parked?
    ensures c in states[j].callers && states[j].callers[c] != Rejected(PoolOverload)
    ensures Admitted(states[j].callers[c])
    decreases j - i
  {
    hide Step, LockInv, LiveInv, CondInv, WaitInv, LimitInv, CustodyInv, RegistryInv, CapacityInv, TaskInv, WakeInv, ResetInv, PurgeInv, TickInv, LatchInv;
    if i < j {
      AdmittedIsNeverOverloaded(cfg, states, events, i, j - 1, c);
      InitialInv(cfg);
      RunKeeps(states, events, 0, j - 1);
      AdmittedStep(states[j - 1], events[j - 1], states[j], c);
    }
  }

  // ----- Broadcasts ----------------------------------------------------------------------------

  ghost predicate GenerationGrows(s: State, s': State) {
    s'.cond.generation >= s.cond.generation
  }

  lemma StepGenerationGrows(s: State, e: Event, s': State)
    requires Step(s, e, s')
    ensures GenerationGrows(s, s')
  {
    hide CallerEvent, WorkerEvent, ServiceEvent, AdminEvent, TuneEvent;
    if CallerEvent(s, e, s') {
      CallersTouch(s, e, s');
    } else if WorkerEvent(s, e, s') {
      WorkersTouch(s, e, s');
    } else if ServiceEvent(s, e, s') {
      ServicesTouch(s, e, s');
    } else if AdminEvent(s, e, s') {
      AdminsTouch(s, e, s');
    } else {
      TunersTouch(s, e, s');
    }
  }

  /** Released by a broadcast, or past that: on the way out of a closed pool. */
  predicate Leaving(s: State, c: CallerId) {
    && c in s.callers
    && match s.callers[c]
       case Parked(since, _) => since < s.cond.generation
       case Woken => true
       case Relocked => true
       case Uncounted => true
       case Rejected(error) => error == PoolClosed
       case _ => false
  }

  function StepsToLeave(p: Caller): nat {
    if p.Parked? then 4 else if p.Woken? then 3 else if p.Relocked? then 2 else if p.Uncounted? then 1 else 0
  }

  /** On a closed pool such a caller stays on its way out and never goes back. */
  lemma LeavingStep(s: State, e: Event, s': State, c: CallerId)
    requires Step(s, e, s') && Leaving(s, c) && !s.open
    ensures Leaving(s', c)
    ensures s'.callers[c] == s.callers[c] || StepsToLeave(s'.callers[c]) < StepsToLeave(s.callers[c])
            || (s.callers[c].Parked? && s'.callers[c].Parked? && s'.callers[c].awake)
  {
    hide Step;
    StepFollows(s, e, s', c);
    StepGenerationGrows(s, e, s');
  }

  /** How often the caller goes somewhere in a stretch of a run; waking up and looking does not count. */
  ghost function Moves(states: seq<State>, i: nat, j: nat, c: CallerId): nat
    requires i <= j < |states| && forall k :: i <= k <= j ==> c in states[k].callers
    decreases j - i
  {
    if i == j then 0
    else
      var moved := states[j].callers[c] != states[j - 1].callers[c] && !states[j].callers[c].Parked?;
      Moves(states, i, j - 1, c) + if moved then 1 else 0
  }

  /** On a closed pool such a caller needs at most four moves, out of the wait, for the lock, for the
      count and to its return; after four it has returned `PoolClosed`. */
  lemma {:induction false} LeavingRun(states: seq<State>, events: seq<Event>, i: nat, j: nat, c: CallerId)
    requires IsRun(states, events) && i <= j < |states| && Leaving(states[i], c)
    requires forall k :: i <= k < j ==> !states[k].open
    ensures forall k :: i <= k <= j ==> c in states[k].callers
    ensures Leaving(states[j], c)
    ensures Moves(states, i, j, c) + StepsToLeave(states[j].callers[c]) <= StepsToLeave(states[i].callers[c])
    decreases j - i
  {
    hide Step;
    if i < j {
      LeavingRun(states, events, i, j - 1, c);
      LeavingStep(states[j - 1], events[j - 1], states[j], c);
    }
  }

  /** Every caller parked when `release` broadcasts is on its way out of the wait from then on, if the
      pool stays closed: it is never asleep, makes at most four moves, and has returned `PoolClosed` when
      it has made four. */
  lemma ReleaseLetsEveryWaiterGo(cfg: Config, states: seq<State>, events: seq<Event>, i: nat, j: nat, c: CallerId)
    requires IsPoolRun(cfg, states, events) && i < j < |states|
    requires events[i].ReleaseBroadcast? && c in states[i].callers && states[i].callers[c].Parked?
    requires forall k :: i < k < j ==> !states[k].open
    ensures Leaving(states[j], c) && forall k :: i < k <= j ==> c in states[k].callers
    ensures Moves(states, i + 1, j, c) + StepsToLeave(states[j].callers[c]) <= 4
    ensures Moves(states, i + 1, j, c) >= 4 ==> states[j].callers[c] == Rejected(PoolClosed)
  {
    hide Step, Leaving, Moves, LockInv, LiveInv, CondInv, WaitInv, LimitInv, CustodyInv, RegistryInv, CapacityInv, TaskInv, WakeInv, ResetInv, PurgeInv, TickInv, LatchInv;
    InitialInv(cfg);
    RunKeeps(states, events, 0, i);
    BroadcastFreesParked(states[i], events[i], states[i + 1], c);
    LeavingRun(states, events, i + 1, j, c);
    NoStepsLeft(states[j], c);
  }

  lemma NoStepsLeft(s: State, c: CallerId)
    requires Leaving(s, c)
    ensures StepsToLeave(s.callers[c]) == 0 ==> s.callers[c] == Rejected(PoolClosed)
  {
  }

  lemma BroadcastFreesParked(s: State, e: Event, s': State, c: CallerId)
    requires Step(s, e, s') && e.ReleaseBroadcast? && CondInv(s.cond, s.callers)
    requires c in s.callers && s.callers[c].Parked?
    ensures Leaving(s', c)
  {
    SumAtLeast(s.callers, c, ParkedWeight);
  }

  /** A caller released by a broadcast can leave at once; it needs no signal and no luck. */
  lemma ReleasedWaiterCanLeave(s: State, c: CallerId)
    requires Reachable(s)
    requires c in s.callers && s.callers[c].Parked? && s.callers[c].since < s.cond.generation
    ensures exists s' :: Leaves(s, s', c)
  {
    hide Reachable;
    ReachableInv(s);
    SumAtLeast(s.callers, c, ParkedWeight);
    var s' := s.(callers := s.callers[c := Woken], cond := Left(s.cond, s.callers[c].since));
    assert Leaves(s, s', c);
  }

  /** Whatever token a signal has issued, some parked caller that is awake can take it at once. */
  lemma TokensAreTaken(s: State)
    requires Reachable(s) && s.cond.tokens > 0
    ensures exists c, s' :: Leaves(s, s', c)
  {
    hide Reachable;
    ReachableInv(s);
    var g := s.cond.generation;
    SumCompare(s.callers, AwakeWeight(g), ParkedWeight);
    var c := SumPositive(s.callers, AwakeWeight(g));
    var s' := s.(callers := s.callers[c := Woken], cond := Left(s.cond, s.callers[c].since));
    assert Leaves(s, s', c);
  }
}
