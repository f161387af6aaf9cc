/** The invariant holds in every state of every run of a pool. */
module PoolRuns {
  import opened PoolModel
  import opened PoolInvariant
  import opened PoolCallers
  import opened PoolWorkers
  import opened PoolServices

  lemma InitialInv(cfg: Config)
    requires ValidConfig(cfg)
    ensures Inv(Initial(cfg))
  {
    var s := Initial(cfg);
    forall w: nat ensures Custody(s.queue, s.callers, s.chan, s.purge, w) == 0 {
    }
  }

  lemma StepKeeps(s: State, e: Event, s': State)
    requires Inv(s) && Step(s, e, s')
    ensures Inv(s')
  {
    hide Inv, CallerEvent, WorkerEvent, ServiceEvent, AdminEvent, TuneEvent;
    if CallerEvent(s, e, s') {
      CallerEventKeeps(s, e, s');
    } else if WorkerEvent(s, e, s') {
      WorkerEventKeeps(s, e, s');
    } else if ServiceEvent(s, e, s') {
      ServiceEventKeeps(s, e, s');
    } else if AdminEvent(s, e, s') {
      AdminEventKeeps(s, e, s');
    } else {
      TuneEventKeeps(s, e, s');
    }
  }

  lemma {:induction false} RunKeeps(states: seq<State>, events: seq<Event>, i: nat, j: nat)
    requires IsRun(states, events) && i <= j < |states| && Inv(states[i])
    ensures Inv(states[j])
    decreases j - i
  {
    hide Inv, Step;
    if i < j {
      RunKeeps(states, events, i, j - 1);
      StepKeeps(states[j - 1], events[j - 1], states[j]);
    }
  }

  /** The state occurs in some run of some pool. */
  ghost predicate Reachable(s: State) {
    exists cfg, states, events :: IsPoolRun(cfg, states, events) && s in states
  }

  lemma ReachableInv(s: State)
    requires Reachable(s)
    ensures Inv(s)
  {
    hide Inv, Step;
    var cfg, states, events :| IsPoolRun(cfg, states, events) && s in states;
    var j :| 0 <= j < |states| && states[j] == s;
    InitialInv(cfg);
    RunKeeps(states, events, 0, j);
  }

  /** What is reached from a reachable state is reachable. */
  lemma ReachableStep(s: State, e: Event, s': State)
    requires Reachable(s) && Step(s, e, s')
    ensures Reachable(s')
  {
    hide Step;
    var cfg, states, events :| IsPoolRun(cfg, states, events) && s in states;
    var j :| 0 <= j < |states| && states[j] == s;
    var longer, more := states[..j + 1] + [s'], events[..j] + [e];
    forall i | 0 <= i < |more| ensures Step(longer[i], more[i], longer[i + 1]) {
      if i < j {
        assert longer[i] == states[i] && longer[i + 1] == states[i + 1] && more[i] == events[i];
      }
    }
    assert IsPoolRun(cfg, longer, more) && s' == longer[j + 1];
  }

  lemma ReachableInitially(cfg: Config)
    requires ValidConfig(cfg)
    ensures Reachable(Initial(cfg))
  {
    var states, events: seq<Event> := [Initial(cfg)], [];
    assert IsPoolRun(cfg, states, events);
  }

  lemma {:induction false} RunStaysReachable(states: seq<State>, events: seq<Event>, j: nat)
    requires IsRun(states, events) && j < |states| && Reachable(states[0])
    ensures Reachable(states[j])
    decreases j
  {
    hide Step, Reachable;
    if j > 0 {
      RunStaysReachable(states, events, j - 1);
      ReachableStep(states[j - 1], events[j - 1], states[j]);
    }
  }
}
