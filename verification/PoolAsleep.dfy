/** Callers asleep on a released pool.  A call that passed the closed check before `release` may enter
    the wait after the broadcast of `release`; who lets it go then, and when this can happen at all. */
module PoolAsleep {
  import opened Wrappers
  import opened CondVar
  import opened Sums
  import opened PoolModel
  import opened PoolInvariant
  import opened PoolFootprints
  import opened PoolRuns
  import opened PoolClosing
  import opened PoolRest
  import opened PoolShutdown
  import opened PoolPaths
  import opened PoolReach

  // ----- At rest with nobody left to come ------------------------------------------------------

  /** No call has passed the closed check and not gone for the lock. */
  ghost predicate NoLatecomer(s: State) {
    forall c :: c in s.callers ==> !s.callers[c].Ready?
  }

  /** At rest, with nobody left who could change that. */
  ghost predicate Forsaken(s: State) {
    && !s.open && Closed(s.admin) && AdminRank(s.admin) == 0 && Drained(s) && s.cond.tokens == 0
    && forall c :: c in s.callers ==>
         if s.callers[c].Parked? then s.callers[c].since == s.cond.generation
         else s.callers[c].Start? || s.callers[c].Accepted? || s.callers[c].Rejected?
  }

  lemma RestWithoutLatecomers(s: State)
    requires Reachable(s) && !s.open && AtRest(s) && NoLatecomer(s)
    ensures Forsaken(s)
  {
    hide Reachable, LockInv, LiveInv, WaitInv, LimitInv, CustodyInv, RegistryInv, CapacityInv, TaskInv, WakeInv, PurgeInv, TickInv, LatchInv;
    ReachableInv(s);
    SumCompare(s.callers, AwakeWeight(s.cond.generation), ParkedWeight);
    if forall c :: c in s.callers ==> !s.callers[c].Parked? {
      SumZero(s.callers, ParkedWeight);
    }
  }

  ghost predicate StillParked(s: State, s': State) {
    forall c :: c in s.callers && s.callers[c].Parked? ==> c in s'.callers && s'.callers[c].Parked?
  }

  /** A forsaken pool: a call can come and be turned away, and a blocked caller look and sleep again. */
  lemma RetrievalRests(s: State, e: Event, s': State)
    requires Forsaken(s) && CallerEvent(s, e, s')
    requires e.Submit? || e.CallerMove? || e.CallerLock? || e.DetachWorker? || e.Fetch? || e.Spawn? || e.Bail?
    ensures Forsaken(s') && StillParked(s, s')
  {
  }

  lemma WaitRests(s: State, e: Event, s': State)
    requires Forsaken(s) && CallerEvent(s, e, s')
    requires e.Queue? || e.Park? || e.Sleep? || e.Leave? || e.Uncount? || e.Resume? || e.Deliver? || e.Spurious?
    ensures Forsaken(s') && StillParked(s, s')
  {
  }

  lemma CallersRest(s: State, e: Event, s': State)
    requires Forsaken(s) && CallerEvent(s, e, s')
    ensures Forsaken(s') && StillParked(s, s')
  {
    hide Forsaken, StillParked, Submits, CallerMoves, CallerTakesLock, Detaches, Fetches, Spawns, Bails, Queues, Parks, Sleeps, Leaves, Uncounts, Resumes, Delivers, WakesSpuriously;
    if e.Queue? || e.Park? || e.Sleep? || e.Leave? || e.Uncount? || e.Resume? || e.Deliver? || e.Spurious? {
      WaitRests(s, e, s');
    } else {
      RetrievalRests(s, e, s');
    }
  }

  lemma NoServiceLeft(s: State, e: Event, s': State)
    requires s.purge.PGone? && s.tick.TGone?
    ensures !ServiceEvent(s, e, s')
  {
  }

  lemma AdminRests(s: State, e: Event, s': State)
    requires Forsaken(s) && AdminEvent(s, e, s') && !e.Reopen?
    ensures Forsaken(s') && StillParked(s, s')
  {
    hide AdminMoves, Drained;
    assert e.AdminMove?;
    AdminReadsRest(s, s', e.onward);
  }

  lemma AdminReadsRest(s: State, s': State, onward: bool)
    requires Forsaken(s) && AdminMoves(s, s', onward)
    ensures Forsaken(s') && StillParked(s, s')
  {
  }

  lemma TunersRest(s: State, e: Event, s': State)
    requires Forsaken(s) && TuneEvent(s, e, s') && Unaided(e)
    ensures Forsaken(s') && StillParked(s, s')
  {
  }

  lemma ForsakenStep(s: State, e: Event, s': State)
    requires Forsaken(s) && Step(s, e, s') && Unaided(e)
    ensures Forsaken(s') && StillParked(s, s')
  {
    hide CallerEvent, WorkerEvent, ServiceEvent, AdminEvent, TuneEvent;
    NoWorkerLeft(s, e, s');
    NoServiceLeft(s, e, s');
    hide Forsaken, StillParked;
    if CallerEvent(s, e, s') {
      CallersRest(s, e, s');
    } else if AdminEvent(s, e, s') {
      AdminRests(s, e, s');
    } else {
      TunersRest(s, e, s');
    }
  }

  lemma {:induction false} ForsakenRun(states: seq<State>, events: seq<Event>, j: nat)
    requires IsRun(states, events) && j < |states| && OnlyAllowed(events, Unaided) && Forsaken(states[0])
    ensures Forsaken(states[j]) && StillParked(states[0], states[j])
    decreases j
  {
    hide Step, Forsaken;
    if j > 0 {
      ForsakenRun(states, events, j - 1);
      ForsakenStep(states[j - 1], events[j - 1], states[j]);
    }
  }

  // ----- A latecomer lets everybody go ---------------------------------------------------------

  /** Some run from here without a reopening and without a wake-up by `tune` gets the caller out of the
      wait. */
  ghost predicate LetGo(s: State, c: CallerId) {
    exists s' :: Reaches(s, s', Unaided) && c in s'.callers && !s'.callers[c].Parked?
  }

  /** Asleep or about to look, in the current generation, without a token to be had. */
  ghost predicate Waits(s: State, c: CallerId) {
    c in s.callers && s.callers[c].Parked? && s.callers[c].since == s.cond.generation && s.cond.tokens == 0 && s.cond.parked > 0
  }

  lemma LeavesNow(r: State, s: State, c: CallerId) returns (s': State)
    requires Reaches(r, s, Untuned) && c in s.callers && s.callers[c].Parked? && s.cond.parked > 0
    requires MayLeave(s.cond, s.callers[c].since) && !Asleep(s.callers[c], s.cond.generation)
    ensures Reaches(r, s', Untuned) && c in s'.callers && s'.callers[c] == Woken
  {
    hide Reaches;
    s' := s.(callers := s.callers[c := Woken], cond := Left(s.cond, s.callers[c].since));
    CallerOn(r, s, Leave(c), s');
  }

  /** A late signal can go to any caller that waits. */
  lemma SignalLetsGo(r: State, s: State, c: CallerId) returns (s': State)
    requires Reaches(r, s, Untuned) && s.signallers > 0 && Waits(s, c)
    ensures Reaches(r, s', Untuned) && c in s'.callers && !s'.callers[c].Parked?
  {
    hide Reaches, MayNotify, Notified;
    var wake := SomebodyToNotify(s);
    if Asleep(s.callers[c], s.cond.generation) {
      wake := Some(c);
      SleeperMayBeNotified(s, c);
    }
    var s1 := s.(signallers := s.signallers - 1, cond := Signalled(s.cond), callers := Notified(s.cond, s.callers, wake));
    WorkerOn(r, s, LateSignal(wake), s1);
    NotifiedIsAwake(s, c, wake);
    s' := LeavesNow(r, s1, c);
  }

  lemma SleeperMayBeNotified(s: State, c: CallerId)
    requires c in s.callers && Asleep(s.callers[c], s.cond.generation) && SignalCounts(s.cond)
    ensures MayNotify(s.cond, s.callers, Some(c))
  {
  }

  lemma NotifiedIsAwake(s: State, c: CallerId, wake: Option<CallerId>)
    requires MayNotify(s.cond, s.callers, wake) && Waits(s, c)
    requires Asleep(s.callers[c], s.cond.generation) ==> wake == Some(c)
    ensures var callers := Notified(s.cond, s.callers, wake);
      c in callers && callers[c].Parked? && callers[c].since == s.cond.generation && !Asleep(callers[c], s.cond.generation)
  {
  }

  /** On the way to a broadcast or a late signal. */
  predicate Ending(t: Thread) {
    t.RevCap? || t.RevRun? || t.RevClosed? || t.RevBcast? || t.Exit? || t.ExitZero? || t.ExitLoad? || t.ExitClose? || t.Recycle?
  }

  /** The end of any worker of a closed pool lets the caller go. */
  lemma WorkerLetsGo(r: State, s: State, w: WorkerId, c: CallerId) returns (s': State)
    requires Reaches(r, s, Untuned) && !s.open && w in s.threads && Ending(s.threads[w]) && Waits(s, c)
    ensures Reaches(r, s', Untuned) && c in s'.callers && !s'.callers[c].Parked?
    decreases Rank(s.threads[w])
  {
    hide Reaches;
    var t := s.threads[w];
    if t.RevBcast? {
      var s1 := s.(threads := s.threads[w := Exit], cond := Broadcasted(s.cond));
      WorkerOn(r, s, GiveUp(w), s1);
      s' := LeavesNow(r, s1, c);
    } else if t.Recycle? {
      var s1 := s.(threads := s.threads - {w}, cache := s.cache + [w], signallers := s.signallers + 1);
      WorkerOn(r, s, RecycleWorker(w), s1);
      s' := SignalLetsGo(r, s1, c);
    } else {
      var s1 := GoesOn(r, s, w);
      s' := WorkerLetsGo(r, s1, w, c);
    }
  }

  /** Past its decrement or about to make it. */
  predicate Going(t: Thread) {
    t.Exit? || t.ExitZero? || t.ExitLoad? || t.ExitClose? || t.Recycle?
  }

  lemma GoesOn(r: State, s: State, w: WorkerId) returns (s': State)
    requires Reaches(r, s, Untuned) && !s.open && w in s.threads && Ending(s.threads[w])
    requires !s.threads[w].RevBcast? && !s.threads[w].Recycle?
    ensures Reaches(r, s', Untuned) && s' == s.(threads := s'.threads, running := s'.running, closed := s'.closed)
    ensures w in s'.threads && Ending(s'.threads[w]) && Rank(s'.threads[w]) < Rank(s.threads[w])
    ensures s'.threads == s.threads[w := s'.threads[w]] && (Going(s.threads[w]) ==> Going(s'.threads[w]))
  {
    hide Reaches;
    if s.threads[w].Exit? {
      s' := RetirerGoesOn(r, s, w);
    } else if s.threads[w].ExitClose? {
      s' := s.(threads := s.threads[w := Recycle], closed := s.closed + {s.threads[w].latch});
      WorkerOn(r, s, CloseLatch(w), s');
    } else {
      s' := ReaderGoesOn(r, s, w);
    }
  }

  lemma RetirerGoesOn(r: State, s: State, w: WorkerId) returns (s': State)
    requires Reaches(r, s, Untuned) && w in s.threads && s.threads[w].Exit?
    ensures Reaches(r, s', Untuned) && s' == s.(threads := s'.threads, running := s.running - 1)
    ensures s'.threads == s.threads[w := EpilogueFrom(s.running - 1)]
  {
    hide Reaches, EpilogueFrom;
    s' := s.(threads := s.threads[w := EpilogueFrom(s.running - 1)], running := s.running - 1);
    WorkerOn(r, s, Retire(w), s');
  }

  lemma ReaderGoesOn(r: State, s: State, w: WorkerId) returns (s': State)
    requires Reaches(r, s, Untuned) && !s.open && w in s.threads && Ending(s.threads[w]) && WorkerReads(s.threads[w], s)
    ensures Reaches(r, s', Untuned) && s' == s.(threads := s'.threads)
    ensures w in s'.threads && Ending(s'.threads[w]) && Rank(s'.threads[w]) < Rank(s.threads[w])
    ensures s'.threads == s.threads[w := s'.threads[w]] && (Going(s.threads[w]) ==> Going(s'.threads[w]))
  {
    hide Reaches;
    s' := s.(threads := s.threads[w := WorkerGoes(s.threads[w], s, 0)]);
    WorkerOn(r, s, WorkerMove(w, 0), s');
  }

  /** A call that can still go for the lock starts a worker, and the end of that lets the caller go. */
  lemma LatecomerLetsGo(s: State, d: CallerId, c: CallerId) returns (s': State)
    requires s.lock == None && s.queue == [] && !s.open && Roomy(s) && d in s.callers && s.callers[d].Ready?
    requires CanSend(s.chan, Fresh(s)) && (Fresh(s) in s.chan ==> s.chan[Fresh(s)] == []) && Waits(s, c)
    ensures Reaches(s, s', Untuned) && c in s'.callers && !s'.callers[c].Parked?
  {
    hide Reaches;
    var w := Fresh(s);
    var s1 := StartsWorker(s, d);
    var s4 := RunsTask(s, s1, d, w);
    s' := WorkerLetsGo(s, s4, w, c);
  }

  /** The worker gets the task and runs it. */
  lemma RunsTask(r: State, s: State, d: CallerId, w: WorkerId) returns (s': State)
    requires Reaches(r, s, Untuned) && d in s.callers && s.callers[d] == Holding(w) && w in s.threads && s.threads[w].Recv?
    requires w in s.chan ==> s.chan[w] == []
    ensures Reaches(r, s', Untuned)
    ensures s' == s.(callers := s'.callers, threads := s'.threads, chan := s'.chan, finished := s'.finished)
    ensures s'.callers == s.callers[d := Accepted(w)] && s'.threads == s.threads[w := if d in s.stops then Exit else RevCap]
    ensures s'.chan == s.chan[w := []]
  {
    hide Reaches;
    assert [] + [Payload(d)] == [Payload(d)];
    var s2 := s.(callers := s.callers[d := Accepted(w)], chan := s.chan[w := [Payload(d)]]);
    CallerOn(r, s, Deliver(d), s2);
    s' := RunsMessage(r, s2, d, w);
  }

  lemma RunsMessage(r: State, s: State, d: CallerId, w: WorkerId) returns (s': State)
    requires Reaches(r, s, Untuned) && w in s.threads && s.threads[w].Recv? && w in s.chan && s.chan[w] == [Payload(d)]
    ensures Reaches(r, s', Untuned)
    ensures s' == s.(threads := s'.threads, chan := s.chan[w := []], finished := s'.finished)
    ensures s'.threads == s.threads[w := if d in s.stops then Exit else RevCap]
  {
    hide Reaches;
    assert [Payload(d)][1..] == [];
    var s3 := s.(threads := s.threads[w := Run(d)], chan := s.chan[w := []]);
    WorkerOn(r, s, Receive(w), s3);
    s' := s3.(threads := s3.threads[w := if d in s3.stops then Exit else RevCap], finished := s3.finished + multiset{d});
    WorkerOn(r, s3, Complete(w, false), s');
  }

  lemma ReachesMore(s: State, s': State)
    requires Reaches(s, s', Untuned)
    ensures Reaches(s, s', Unaided)
  {
    var states, events :| IsRun(states, events) && states[0] == s && states[|events|] == s' && OnlyAllowed(events, Untuned);
    assert OnlyAllowed(events, Unaided);
  }

  /** In a closed pool at rest, a blocked caller gets out of the wait on some run without a reopening and
      without a wake-up by `tune` if and only if some call that passed the closed check has not gone for
      the lock yet. */
  lemma LetGoExactly(s: State, c: CallerId)
    requires Reachable(s) && !s.open && AtRest(s) && c in s.callers && s.callers[c].Parked?
    ensures LetGo(s, c) <==> exists d :: d in s.callers && s.callers[d].Ready?
  {
    hide Reachable, Forsaken, Reaches, Step;
    if d :| d in s.callers && s.callers[d].Ready? {
      RestIsReady(s, c);
      var s' := LatecomerLetsGo(s, d, c);
      ReachesMore(s, s');
    } else if LetGo(s, c) {
      RestWithoutLatecomers(s);
      var s' :| Reaches(s, s', Unaided) && c in s'.callers && !s'.callers[c].Parked?;
      ForsakenReaches(s, s', c);
    }
  }

  lemma ForsakenReaches(s: State, s': State, c: CallerId)
    requires Forsaken(s) && Reaches(s, s', Unaided) && c in s.callers && s.callers[c].Parked?
    ensures c in s'.callers && s'.callers[c].Parked?
  {
    hide Step, Forsaken;
    var states, events :| IsRun(states, events) && states[0] == s && states[|events|] == s' && OnlyAllowed(events, Unaided);
    ForsakenRun(states, events, |events|);
  }

  /** What rest says to a latecomer: a free lock, an empty queue, room, and a clean worker. */
  lemma RestIsReady(s: State, c: CallerId)
    requires Reachable(s) && !s.open && AtRest(s) && c in s.callers && s.callers[c].Parked?
    ensures s.lock == None && s.queue == [] && s.running == 0 && Roomy(s) && Waits(s, c)
    ensures CanSend(s.chan, Fresh(s)) && (Fresh(s) in s.chan ==> s.chan[Fresh(s)] == [])
  {
    hide Reachable, LimitInv, RegistryInv, TaskInv, WakeInv, PurgeInv, TickInv, LatchInv, CustodyInv;
    ReachableInv(s);
    assert Sum(s.threads, LiveWeight) == 0;
    SumAtLeast(s.callers, c, ParkedWeight);
    EmptyPoolHasRunEverything(s, c);
  }
}
