/** Runs between two states that leave out some kinds of events, and the way of one call on such a run. */
module PoolReach {
  import opened Wrappers
  import opened PoolModel
  import opened PoolRuns
  import opened PoolPaths

  /** A run of such events leads from the one state to the other. */
  ghost predicate Reaches(s: State, s': State, allowed: Event -> bool) {
    exists states, events ::
      IsRun(states, events) && states[0] == s && states[|events|] == s' && OnlyAllowed(events, allowed)
  }

  predicate OnlyAllowed(events: seq<Event>, allowed: Event -> bool) {
    forall i :: 0 <= i < |events| ==> allowed(events[i])
  }

  /** Neither a reopening nor a wake-up by `tune`. */
  predicate Unaided(e: Event) {
    !e.Reopen? && !e.TuneSignalEvent? && !e.TuneBroadcast?
  }

  /** Nor any other effect of `tune`. */
  predicate Untuned(e: Event) {
    Unaided(e) && !e.StoreCapacity?
  }

  lemma ReachesItself(s: State, allowed: Event -> bool)
    ensures Reaches(s, s, allowed)
  {
    var states, events: seq<Event> := [s], [];
    assert IsRun(states, events) && OnlyAllowed(events, allowed);
  }

  lemma ReachesOn(s: State, t: State, e: Event, t': State, allowed: Event -> bool)
    requires Reaches(s, t, allowed) && Step(t, e, t') && allowed(e)
    ensures Reaches(s, t', allowed)
  {
    hide Step;
    var states, events :| IsRun(states, events) && states[0] == s && states[|events|] == t && OnlyAllowed(events, allowed);
    var longer, more := states + [t'], events + [e];
    forall i | 0 <= i < |more| ensures Step(longer[i], more[i], longer[i + 1]) && allowed(more[i]) {
      if i < |events| {
        assert longer[i] == states[i] && longer[i + 1] == states[i + 1] && more[i] == events[i];
      }
    }
    assert IsRun(longer, more) && longer[|more|] == t' && OnlyAllowed(more, allowed);
  }

  lemma {:induction false} ReachesAlong(s: State, states: seq<State>, events: seq<Event>, j: nat, allowed: Event -> bool)
    requires IsRun(states, events) && j < |states| && OnlyAllowed(events, allowed) && Reaches(s, states[0], allowed)
    ensures Reaches(s, states[j], allowed)
    decreases j
  {
    hide Step, Reaches;
    if j > 0 {
      ReachesAlong(s, states, events, j - 1, allowed);
      ReachesOn(s, states[j - 1], events[j - 1], states[j], allowed);
    }
  }

  lemma ReachesTrans(s: State, t: State, u: State, allowed: Event -> bool)
    requires Reaches(s, t, allowed) && Reaches(t, u, allowed)
    ensures Reaches(s, u, allowed)
  {
    hide Step;
    var states, events :| IsRun(states, events) && states[0] == t && states[|events|] == u && OnlyAllowed(events, allowed);
    ReachesAlong(s, states, events, |events|, allowed);
  }

  lemma ReachesStaysReachable(s: State, s': State, allowed: Event -> bool)
    requires Reaches(s, s', allowed) && Reachable(s)
    ensures Reachable(s')
  {
    hide Step, Reachable;
    var states, events :| IsRun(states, events) && states[0] == s && states[|events|] == s' && OnlyAllowed(events, allowed);
    RunStaysReachable(states, events, |events|);
  }

  lemma CallerOn(s: State, t: State, e: Event, t': State)
    requires Reaches(s, t, Untuned) && CallerEvent(t, e, t')
    ensures Reaches(s, t', Untuned)
  {
    hide WorkerEvent, ServiceEvent, AdminEvent, TuneEvent, Reaches;
    CallersAreUntuned(t, e, t');
    hide CallerEvent;
    ReachesOn(s, t, e, t', Untuned);
  }

  lemma CallersAreUntuned(s: State, e: Event, s': State)
    requires CallerEvent(s, e, s')
    ensures Untuned(e)
  {
  }

  lemma WorkerOn(s: State, t: State, e: Event, t': State)
    requires Reaches(s, t, Untuned) && WorkerEvent(t, e, t')
    ensures Reaches(s, t', Untuned)
  {
    hide CallerEvent, ServiceEvent, AdminEvent, TuneEvent, Reaches;
    WorkersAreUntuned(t, e, t');
    hide WorkerEvent;
    ReachesOn(s, t, e, t', Untuned);
  }

  lemma WorkersAreUntuned(s: State, e: Event, s': State)
    requires WorkerEvent(s, e, s')
    ensures Untuned(e)
  {
  }

  // ----- The way of one call -------------------------------------------------------------------

  /** A call that has passed the closed check reads, with the lock. */
  lemma ReadsOn(s: State, c: CallerId) returns (s': State)
    requires s.lock == None && s.queue == [] && c in s.callers && s.callers[c].Ready?
    ensures Reaches(s, s', Untuned) && s' == s.(callers := s'.callers, lock := Some(ByCaller(c)))
    ensures c in s'.callers && s'.callers == s.callers[c := s'.callers[c]]
    ensures s'.callers[c] == if Roomy(s) then Spawning(false, s.capacity) else PoolModel.Full(false)
  {
    hide Reaches;
    ReachesItself(s, Untuned);
    var s1 := s.(callers := s.callers[c := Loop(false)], lock := Some(ByCaller(c)));
    CallerOn(s, s, CallerLock(c), s1);
    s' := ReadsLocked(s, s1, c);
  }

  lemma ReadsLocked(r: State, s: State, c: CallerId) returns (s': State)
    requires Reaches(r, s, Untuned) && s.queue == [] && c in s.callers && s.callers[c] == Loop(false)
    ensures Reaches(r, s', Untuned) && s' == s.(callers := s'.callers)
    ensures c in s'.callers && s'.callers == s.callers[c := s'.callers[c]]
    ensures s'.callers[c] == if Roomy(s) then Spawning(false, s.capacity) else PoolModel.Full(false)
  {
    hide Reaches;
    var s1 := s.(callers := s.callers[c := Empty(false)]);
    CallerOn(r, s, CallerMove(c), s1);
    var s2 := s1.(callers := s1.callers[c := Sized(false, s.capacity)]);
    CallerOn(r, s1, CallerMove(c), s2);
    s' := s2.(callers := s2.callers[c := CallerGoes(s2.callers[c], s2)]);
    CallerOn(r, s2, CallerMove(c), s');
  }

  /** If there is room it starts a worker, which it then holds. */
  lemma StartsWorker(s: State, c: CallerId) returns (s': State)
    requires s.lock == None && s.queue == [] && c in s.callers && s.callers[c].Ready? && Roomy(s)
    ensures Reaches(s, s', Untuned) && Served(s, s', c, Got(Fresh(s)))
  {
    hide Reaches, Served, Started;
    var s3 := ReadsOn(s, c);
    s' := Spawned(s, s3, c);
  }

  lemma Spawned(s: State, s3: State, c: CallerId) returns (s5: State)
    requires Reaches(s, s3, Untuned) && s.queue == [] && Roomy(s)
    requires s3 == s.(callers := s3.callers, lock := s3.lock)
    requires c in s3.callers && s3.callers == s.callers[c := s3.callers[c]] && s3.callers[c].Spawning?
    ensures Reaches(s, s5, Untuned) && Served(s, s5, c, Got(Fresh(s)))
  {
    hide Reaches, Served, Started;
    var s4 := FetchesOne(s3, c);
    CallerOn(s, s3, Fetch(c), s4);
    s5 := s4.(callers := s4.callers[c := Holding(Fresh(s))], threads := s4.threads[Fresh(s) := Recv],
              running := s4.running + 1, lock := None);
    CallerOn(s, s4, Spawn(c), s5);
    SpawnServes(s3, s3, s4, s5, c, Fresh(s));
    LockServes(s, s3, s5, c, Got(Fresh(s)));
  }

  lemma FetchesOne(s: State, c: CallerId) returns (s': State)
    requires c in s.callers && s.callers[c].Spawning?
    ensures Fetches(s, s', c) && CallerEvent(s, Fetch(c), s')
    ensures c in s'.callers && s'.callers[c] == Fetched(s.callers[c].cap, Fresh(s))
  {
    s' := s.(callers := s.callers[c := Fetched(s.callers[c].cap, Fresh(s))],
             cache := if s.cache != [] then s.cache[..|s.cache| - 1] else [],
             made := if s.cache != [] then s.made else s.made + 1);
  }
}
