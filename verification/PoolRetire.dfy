/** When the loop of a worker ends, and what has to happen before the worker can serve again. */
module PoolRetire {
  import opened Sums
  import opened PoolModel
  import opened PoolInvariant
  import opened PoolFootprints
  import opened PoolRuns
  import opened PoolOwnership

  /** The event ends the loop of this worker: its task panics or is the stop sentinel, it is told to
      finish, or `revert_worker` turns it away. */
  ghost predicate Ends(s: State, e: Event, w: WorkerId) {
    match e
    case Complete(v, panics) => v == w && (panics || (w in s.threads && s.threads[w].Run? && s.threads[w].task in s.stops))
    case Receive(v) => v == w && w in s.chan && s.chan[w] != [] && s.chan[w][0] == Finish
    case GiveUp(v) => v == w
    case Refuse(v) => v == w
    case _ => false
  }

  ghost predicate AtExit(s: State, w: WorkerId) {
    w in s.threads && s.threads[w].Exit?
  }

  /** The loop ended and the worker is still counted in `running`, or neither is the case; and it is
      only by such an event that the loop ends. */
  ghost predicate EndsOrNot(s: State, e: Event, s': State, w: WorkerId) {
    if AtExit(s, w) then e == Retire(w) || AtExit(s', w)
    else AtExit(s', w) <==> Ends(s, e, w)
  }

  lemma CallersEndNobody(s: State, e: Event, s': State, w: WorkerId)
    requires RegistryInv(s.made, s.cache, s.callers, s.threads)
    requires CallerEvent(s, e, s')
    ensures EndsOrNot(s, e, s', w)
  {
    hide CallerEvent;
    CallersTouch(s, e, s');
    if e.Spawn? {
      SumAtLeast(s.callers, e.c, FetchedWeight(s.callers[e.c].w));
      assert s.callers[e.c].w !in s.threads;
    } else {
      CallersAreNoWorkers(s, e, s');
      NotAWorkers(s, e, s', w);
    }
  }

  lemma CallersAreNoWorkers(s: State, e: Event, s': State)
    requires CallerEvent(s, e, s')
    ensures !(e.Complete? || e.Receive? || e.GiveUp? || e.Refuse?)
  {
  }

  lemma NotAWorkers(s: State, e: Event, s': State, w: WorkerId)
    requires !(e.Complete? || e.Receive? || e.GiveUp? || e.Refuse?) && s'.threads == s.threads
    ensures EndsOrNot(s, e, s', w)
  {
  }

  lemma MoverEndsNobody(s: State, s': State, v: WorkerId, now: int, w: WorkerId)
    requires WorkerMoves(s, s', v, now)
    ensures EndsOrNot(s, WorkerMove(v, now), s', w)
  {
  }

  lemma LoopEnds(s: State, e: Event, s': State, w: WorkerId)
    requires WorkerEvent(s, e, s')
    requires e.Receive? || e.Complete? || e.GiveUp? || e.WorkerLock? || e.Refuse?
    ensures EndsOrNot(s, e, s', w)
  {
  }

  lemma EpilogueEndsNobody(s: State, e: Event, s': State, w: WorkerId)
    requires WorkerEvent(s, e, s')
    requires e.InsertWorker? || e.Announce? || e.Retire? || e.CloseLatch? || e.RecycleWorker? || e.LateSignal?
    ensures EndsOrNot(s, e, s', w)
  {
  }

  lemma WorkersEnd(s: State, e: Event, s': State, w: WorkerId)
    requires WorkerEvent(s, e, s')
    ensures EndsOrNot(s, e, s', w)
  {
    hide EndsOrNot, WorkerMoves, Receives, Completes, GivesUp, WorkerTakesLock, IsRefused, Inserts, Announces, Retires, ClosesLatch, Recycles, SignalsLate;
    if e.WorkerMove? {
      MoverEndsNobody(s, s', e.w, e.now, w);
    } else if e.Receive? || e.Complete? || e.GiveUp? || e.WorkerLock? || e.Refuse? {
      LoopEnds(s, e, s', w);
    } else {
      EpilogueEndsNobody(s, e, s', w);
    }
  }

  lemma OthersAreNoWorkers(s: State, e: Event, s': State)
    requires ServiceEvent(s, e, s') || AdminEvent(s, e, s') || TuneEvent(s, e, s')
    ensures !(e.Complete? || e.Receive? || e.GiveUp? || e.Refuse?)
  {
  }

  /** In every reachable state a worker comes to the end of its loop exactly on a panic, the stop
      sentinel, an order to finish, or a refusal by `revert_worker`, and it stays there until it has left
      `running`. */
  lemma LoopEndsExactly(s: State, e: Event, s': State, w: WorkerId)
    requires Reachable(s) && Step(s, e, s')
    ensures !AtExit(s, w) ==> (AtExit(s', w) <==> Ends(s, e, w))
    ensures AtExit(s, w) && e != Retire(w) ==> AtExit(s', w)
  {
    hide Reachable, LockInv, LiveInv, CondInv, WaitInv, LimitInv, CustodyInv, CapacityInv, TaskInv, WakeInv, ResetInv, PurgeInv, TickInv, LatchInv;
    hide CallerEvent, WorkerEvent, ServiceEvent, AdminEvent, TuneEvent, Ends;
    ReachableInv(s);
    if CallerEvent(s, e, s') {
      CallersEndNobody(s, e, s', w);
    } else if WorkerEvent(s, e, s') {
      WorkersEnd(s, e, s', w);
    } else {
      ThreadsStay(s, e, s');
      OthersAreNoWorkers(s, e, s');
      NotAWorkers(s, e, s', w);
    }
  }

  lemma ThreadsStay(s: State, e: Event, s': State)
    requires ServiceEvent(s, e, s') || AdminEvent(s, e, s') || TuneEvent(s, e, s')
    ensures s'.threads == s.threads
  {
    hide ServiceEvent, AdminEvent, TuneEvent;
    if ServiceEvent(s, e, s') {
      ServicesTouch(s, e, s');
    } else if AdminEvent(s, e, s') {
      AdminsTouch(s, e, s');
    } else {
      TunersTouch(s, e, s');
    }
  }

  lemma EndsIsAtExit(s: State, e: Event, s': State, w: WorkerId)
    requires Reachable(s) && Step(s, e, s') && Ends(s, e, w)
    ensures AtExit(s', w)
  {
    hide Reachable, Step;
    LoopEndsExactly(s, e, s', w);
    if AtExit(s, w) {
      EndingIsNotRetiring(s, e, w);
    }
  }

  lemma EndingIsNotRetiring(s: State, e: Event, w: WorkerId)
    requires Ends(s, e, w)
    ensures e != Retire(w)
  {
  }

  /** Nobody is in charge of waking such a worker, and it runs nothing. */
  ghost predicate OutOfService(s: State, w: WorkerId) {
    !Listed(s.queue, w) && !IsHeld(s, w) && Mail(s.chan, w) == 0 && !Listed(Stale(s.purge), w)
  }

  lemma ExitIsOutOfService(s: State, w: WorkerId)
    requires Reachable(s) && AtExit(s, w)
    ensures OutOfService(s, w)
  {
    hide Reachable;
    EveryWorkerHasOnePlace(s, w);
  }

  lemma {:induction false} StaysAtExit(states: seq<State>, events: seq<Event>, i: nat, j: nat, w: WorkerId)
    requires IsRun(states, events) && Reachable(states[0]) && i <= j < |states| && AtExit(states[i], w)
    requires forall k :: i <= k < j ==> events[k] != Retire(w)
    ensures AtExit(states[j], w)
    decreases j - i
  {
    hide Step, Reachable;
    if i < j {
      StaysAtExit(states, events, i, j - 1, w);
      RunStaysReachable(states, events, j - 1);
      LoopEndsExactly(states[j - 1], events[j - 1], states[j], w);
    }
  }

  /** Over every run, a worker whose task has panicked, or whose loop has ended otherwise, is idle nowhere,
      held by no caller and sent nothing until it has left `running`. */
  lemma EndedWorkerIsOutOfService(cfg: Config, states: seq<State>, events: seq<Event>, i: nat, j: nat, w: WorkerId)
    requires IsPoolRun(cfg, states, events) && i < j < |states| && Ends(states[i], events[i], w)
    requires forall k :: i < k < j ==> events[k] != Retire(w)
    ensures AtExit(states[j], w) && OutOfService(states[j], w)
  {
    hide Step, Ends;
    assert Reachable(states[0]) && Reachable(states[i]) && Reachable(states[j]);
    EndsIsAtExit(states[i], events[i], states[i + 1], w);
    StaysAtExit(states, events, i + 1, j, w);
    ExitIsOutOfService(states[j], w);
  }

  /** What a worker does for callers, or can be made to do. */
  ghost predicate Serves(s: State, w: WorkerId) {
    AtReceive(s.threads, w) || (w in s.threads && s.threads[w].Run?)
  }

  /** Hence between a panic, or another end of the loop, and the next time that the worker serves,
      `running` has been lowered by it. */
  lemma EndedWorkerRetiresFirst(cfg: Config, states: seq<State>, events: seq<Event>, i: nat, j: nat, w: WorkerId)
    returns (k: nat)
    requires IsPoolRun(cfg, states, events) && i < j < |states| && Ends(states[i], events[i], w)
    requires Serves(states[j], w)
    ensures i < k < j && events[k] == Retire(w) && states[k + 1].running == states[k].running - 1
  {
    hide Step, Ends;
    if forall k :: i < k < j ==> events[k] != Retire(w) {
      EndedWorkerIsOutOfService(cfg, states, events, i, j, w);
      assert false;
    }
    k :| i < k < j && events[k] == Retire(w);
    RetiringLowers(states[k], states[k + 1], w);
  }

  lemma RetiringLowers(s: State, s': State, w: WorkerId)
    requires Step(s, Retire(w), s')
    ensures s'.running == s.running - 1
  {
  }
}
