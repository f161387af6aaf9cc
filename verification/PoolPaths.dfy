/** Runs between two states, and what a thread that nobody disturbs does on one of them. */
module PoolPaths {
  import opened Wrappers
  import opened WorkerQueue
  import opened CondVar
  import opened PoolModel
  import opened PoolInvariant
  import opened PoolRuns
  import opened PoolOwnership

  /** A run leads from the one state to the other. */
  ghost predicate Leads(s: State, s': State) {
    exists states, events :: IsRun(states, events) && states[0] == s && states[|events|] == s'
  }

  lemma LeadsNowhere(s: State)
    ensures Leads(s, s)
  {
    var states, events: seq<Event> := [s], [];
    assert IsRun(states, events);
  }

  lemma LeadsOn(s: State, t: State, e: Event, t': State)
    requires Leads(s, t) && Step(t, e, t')
    ensures Leads(s, t')
  {
    hide Step;
    var states, events :| IsRun(states, events) && states[0] == s && states[|events|] == t;
    var longer, more := states + [t'], events + [e];
    forall i | 0 <= i < |more| ensures Step(longer[i], more[i], longer[i + 1]) {
      if i < |events| {
        assert longer[i] == states[i] && longer[i + 1] == states[i + 1] && more[i] == events[i];
      }
    }
    assert IsRun(longer, more) && longer[|more|] == t';
  }

  /** Whatever leads to the one state leads on to the other. */
  ghost predicate Onward(s: State, s': State) {
    forall r :: Leads(r, s) ==> Leads(r, s')
  }

  lemma StepIsOnward(s: State, e: Event, s': State)
    requires Step(s, e, s')
    ensures Onward(s, s')
  {
    hide Step, Leads;
    forall r | Leads(r, s) ensures Leads(r, s') {
      LeadsOn(r, s, e, s');
    }
  }

  lemma OnwardIsLeads(s: State, s': State)
    requires Onward(s, s')
    ensures Leads(s, s')
  {
    LeadsNowhere(s);
  }

  lemma OnwardOn(s: State, t: State, u: State)
    requires Onward(s, t) && Onward(t, u)
    ensures Onward(s, u)
  {
    hide Leads;
  }

  // ----- retrieve_worker -----------------------------------------------------------------------

  /** What `retrieve_worker` comes to: a worker, an error, or the wait, which it enters with the
      generation it registered in. */
  datatype Retrieval = Got(w: WorkerId) | Failed(error: Error) | Blocked(since: nat)

  predicate Roomy(s: State) {
    s.capacity == -1 || s.capacity > s.running
  }

  function Fresh(s: State): WorkerId {
    if s.cache != [] then s.cache[|s.cache| - 1] else s.made
  }

  /** A cached worker, or else a new one, has a thread. */
  ghost predicate Started(s: State, s': State, w: WorkerId) {
    && w == Fresh(s) && s'.threads == s.threads[w := Recv]
    && s'.made == (if s.cache != [] then s.made else s.made + 1)
    && s'.cache == (if s.cache != [] then s.cache[..|s.cache| - 1] else [])
    && s' == s.(callers := s'.callers, threads := s'.threads, running := s.running + 1, lock := None,
                cache := s'.cache, made := s'.made)
  }

  /** An idle worker if there is one, else a cached or new one if there is room, else an error or the
      wait; nothing else changes. */
  ghost predicate Served(s: State, s': State, c: CallerId, r: Retrieval) {
    match r
    case Got(w) =>
      && s'.callers == s.callers[c := Holding(w)]
      && if s.queue != [] then
           && w == Next(KindOf(s.cfg), s.queue).id
           && s' == s.(callers := s'.callers, queue := Detached(KindOf(s.cfg), s.queue), lock := None)
         else Roomy(s) && Started(s, s', w)
    case Failed(error) =>
      && s.queue == [] && !Roomy(s) && Overloaded(s) && error == PoolOverload
      && s'.callers == s.callers[c := Rejected(error)] && s' == s.(callers := s'.callers, lock := None)
    case Blocked(since) =>
      && s.queue == [] && !Roomy(s) && !Overloaded(s) && since == s.cond.generation % TWO_TO_THE_64
      && s'.callers == s.callers[c := Parked(s.cond.generation, true)]
      && s' == s.(callers := s'.callers, waiting := s.waiting + 1, cond := Registered(s.cond), lock := None)
  }

  lemma DetachServes(s: State, s': State, c: CallerId, w: WorkerId)
    requires Detaches(s, s', c) && w == Next(KindOf(s.cfg), s.queue).id
    ensures Served(s, s', c, Got(w))
  {
  }

  /** The three reads of a round that finds the queue empty. */
  ghost predicate Reads(s: State, s1: State, s2: State, s3: State, c: CallerId) {
    && c in s.callers && s.callers[c].Loop? && CallerMoves(s, s1, c)
    && c in s1.callers && s1.callers[c].Empty? && CallerMoves(s1, s2, c) && CallerMoves(s2, s3, c)
  }

  lemma ReadsTell(s: State, s1: State, s2: State, s3: State, c: CallerId)
    requires Reads(s, s1, s2, s3, c)
    ensures s.queue == [] && s3 == s.(callers := s3.callers) && c in s3.callers
    ensures s3.callers == s.callers[c := s3.callers[c]]
    ensures s3.callers[c].Spawning? <==> Roomy(s)
  {
  }

  lemma FetchTells(s: State, s': State, c: CallerId)
    requires Fetches(s, s', c)
    ensures s' == s.(callers := s'.callers, cache := s'.cache, made := s'.made)
    ensures s'.callers == s.callers[c := Fetched(s.callers[c].cap, Fresh(s))]
    ensures s'.made == (if s.cache != [] then s.made else s.made + 1)
    ensures s'.cache == (if s.cache != [] then s.cache[..|s.cache| - 1] else [])
  {
  }

  lemma SpawnTells(s: State, s': State, c: CallerId, w: WorkerId)
    requires Spawns(s, s', c) && s.callers[c].w == w
    ensures s' == s.(callers := s'.callers, threads := s'.threads, running := s.running + 1, lock := None)
    ensures s'.callers == s.callers[c := Holding(w)] && s'.threads == s.threads[w := Recv]
  {
  }

  lemma SpawnServes(s: State, s3: State, s4: State, s5: State, c: CallerId, w: WorkerId)
    requires s.queue == [] && s3 == s.(callers := s3.callers) && c in s3.callers && Roomy(s)
    requires s3.callers == s.callers[c := s3.callers[c]]
    requires Fetches(s3, s4, c) && Spawns(s4, s5, c) && s4.callers[c].Fetched? && s4.callers[c].w == w
    ensures Served(s, s5, c, Got(w))
  {
    hide Fetches, Spawns, Roomy;
    FetchTells(s3, s4, c);
    SpawnTells(s4, s5, c, w);
    assert s5.callers == s.callers[c := Holding(w)];
    assert Started(s, s5, w);
  }

  lemma BailServes(s: State, s3: State, s4: State, c: CallerId)
    requires s.queue == [] && s3 == s.(callers := s3.callers) && c in s3.callers && !Roomy(s)
    requires s3.callers == s.callers[c := s3.callers[c]]
    requires Bails(s3, s4, c)
    ensures Served(s, s4, c, Failed(PoolOverload))
  {
  }

  lemma WaitServes(s: State, s3: State, s4: State, s5: State, c: CallerId, since: nat)
    requires s.queue == [] && s3 == s.(callers := s3.callers) && c in s3.callers && !Roomy(s)
    requires s3.callers == s.callers[c := s3.callers[c]]
    requires Queues(s3, s4, c) && Parks(s4, s5, c) && since == s4.cond.generation % TWO_TO_THE_64
    ensures Served(s, s5, c, Blocked(since))
  {
  }

  /** Taking the lock first makes no difference to that. */
  lemma LockServes(s: State, s1: State, s2: State, c: CallerId, r: Retrieval)
    requires c in s1.callers && s1.callers == s.callers[c := s1.callers[c]]
    requires s1 == s.(callers := s1.callers, lock := s1.lock)
    requires Served(s1, s2, c, r)
    ensures Served(s, s2, c, r)
  {
    hide Started, Detached, Next, KindOf;
    if r.Got? && s.queue == [] {
      LockStarts(s, s1, s2, r.w);
    }
  }

  lemma LockStarts(s: State, s1: State, s2: State, w: WorkerId)
    requires s1 == s.(callers := s1.callers, lock := s1.lock) && Started(s1, s2, w)
    ensures Started(s, s2, w)
  {
  }

  /** A blocked caller that looks: asleep again, or out of the wait and, on an open pool, round the
      loop once more. */
  ghost predicate Continued(s: State, s': State, c: CallerId, r: Retrieval)
    requires c in s.callers && s.callers[c].Parked? && s.cond.parked > 0
  {
    var since := s.callers[c].since;
    if !MayLeave(s.cond, since) then
      && r == Blocked(since % TWO_TO_THE_64)
      && s'.callers == s.callers[c := Parked(since, false)] && s' == s.(callers := s'.callers)
    else
      var t := s.(cond := Left(s.cond, since), waiting := s.waiting - 1);
      if s.open then Served(t, s', c, r)
      else r == Failed(PoolClosed) && s'.callers == s.callers[c := Rejected(PoolClosed)] && s' == t.(callers := s'.callers)
  }

  /** Out of the wait, with the lock, no longer counted. */
  ghost predicate Returned(s: State, s1: State, c: CallerId) {
    && c in s.callers && s.callers[c].Parked? && s.cond.parked > 0 && MayLeave(s.cond, s.callers[c].since)
    && c in s1.callers && s1.callers == s.callers[c := s1.callers[c]]
    && s1 == s.(callers := s1.callers, waiting := s.waiting - 1, lock := s1.lock, cond := Left(s.cond, s.callers[c].since))
  }

  lemma ReturnContinues(s: State, s1: State, s2: State, s': State, c: CallerId, r: Retrieval)
    requires Returned(s, s1, c) && s.open && s2 == s1.(callers := s2.callers) && c in s2.callers
    requires s2.callers == s1.callers[c := s2.callers[c]]
    requires Served(s2, s', c, r)
    ensures Continued(s, s', c, r)
  {
    var t := s.(cond := Left(s.cond, s.callers[c].since), waiting := s.waiting - 1);
    LockServes(t, s2, s', c, r);
  }

  lemma SleepContinues(s: State, s': State, c: CallerId)
    requires Sleeps(s, s', c) && s.cond.parked > 0
    ensures Continued(s, s', c, Blocked(s.callers[c].since % TWO_TO_THE_64))
  {
  }

  lemma ClosedContinues(s: State, s1: State, s2: State, s3: State, c: CallerId)
    requires Returned(s, s1.(waiting := s1.waiting - 1), c) && s.lock == None && !s.open
    requires Uncounts(s1, s2, c) && Resumes(s2, s3, c)
    ensures Continued(s, s3, c, Failed(PoolClosed))
  {
  }

  lemma OpenContinues(s: State, s1: State, s2: State, s3: State, s': State, c: CallerId, r: Retrieval)
    requires Returned(s, s1.(waiting := s1.waiting - 1), c) && s.open
    requires Uncounts(s1, s2, c) && Resumes(s2, s3, c) && Served(s3, s', c, r)
    ensures Continued(s, s', c, r)
  {
    hide Served;
    ReturnContinues(s, s2, s3, s', c, r);
  }

  // ----- try_submit ----------------------------------------------------------------------------

  /** On a closed pool `PoolClosed`; else what `retrieve_worker` comes to, and the task is in the
      channel of the worker it has got. */
  ghost predicate Submitted(s: State, mid: State, s': State, c: CallerId, r: Retrieval) {
    if !s.open then
      r == Failed(PoolClosed) && s'.callers == s.callers[c := Rejected(PoolClosed)] && s' == s.(callers := s'.callers)
    else
      && Served(s, mid, c, r)
      && if r.Got? then
           && s'.callers == s.callers[c := Accepted(r.w)]
           && s' == mid.(callers := s'.callers, chan := Sent(mid.chan, r.w, Payload(c)))
         else s' == mid
  }

  lemma GotIsHolding(s: State, mid: State, c: CallerId, w: WorkerId)
    requires Served(s, mid, c, Got(w))
    ensures c in mid.callers && mid.callers[c] == Holding(w)
  {
  }

  lemma DeliverySubmits(s: State, s1: State, mid: State, s': State, c: CallerId, w: WorkerId)
    requires s.open && c in s1.callers && s1.callers == s.callers[c := s1.callers[c]] && s1 == s.(callers := s1.callers)
    requires Served(s1, mid, c, Got(w)) && Delivers(mid, s', c)
    ensures Submitted(s, mid, s', c, Got(w))
  {
    LockServes(s, s1, mid, c, Got(w));
  }

  // ----- revert_worker and the epilogue --------------------------------------------------------

  predicate TooMany(s: State) {
    s.capacity > 0 && s.running > s.capacity
  }

  predicate Keeps(s: State) {
    !TooMany(s) && s.open && !WorkerQueue.Full(KindOf(s.cfg), s.queue)
  }

  /** The worker parks itself behind the others and signals, or is sent to its end; it broadcasts
      first unless only a full ring keeps it out. */
  ghost predicate Reverted(s: State, s': State, w: WorkerId, now: int, wake: Option<CallerId>, kept: bool) {
    && kept == Keeps(s)
    && s'.threads == s.threads[w := if kept then Recv else Exit]
    && if kept then
         && MayNotify(s.cond, s.callers, wake)
         && s' == s.(threads := s'.threads, queue := s.queue + [Worker(w, now)],
                     cond := Signalled(s.cond), callers := Notified(s.cond, s.callers, wake))
       else s' == s.(threads := s'.threads, cond := if TooMany(s) || !s.open then Broadcasted(s.cond) else s.cond)
  }

  lemma GivingUpReverts(s: State, s1: State, s': State, w: WorkerId, now: int)
    requires w in s1.threads && s1.threads == s.threads[w := s1.threads[w]] && s1 == s.(threads := s1.threads)
    requires GivesUp(s1, s', w) && (TooMany(s) || !s.open)
    ensures Reverted(s, s', w, now, None, false)
  {
  }

  lemma RefusalReverts(s: State, s1: State, s': State, w: WorkerId, now: int)
    requires s.lock == None && w in s1.threads && s1.threads == s.threads[w := s1.threads[w]]
    requires s1 == s.(threads := s1.threads, lock := s1.lock) && s1.threads[w].RevInsert?
    requires IsRefused(s1, s', w) && !TooMany(s) && s.open
    ensures Reverted(s, s', w, now, None, false)
  {
  }

  lemma InsertionReverts(s: State, s1: State, s2: State, s': State, w: WorkerId, now: int, wake: Option<CallerId>)
    requires s.lock == None && w in s1.threads && s1.threads == s.threads[w := s1.threads[w]]
    requires s1 == s.(threads := s1.threads, lock := s1.lock) && s1.threads[w] == RevInsert(now)
    requires Inserts(s1, s2, w) && Announces(s2, s', w, wake) && !TooMany(s) && s.open
    ensures Reverted(s, s', w, now, wake, true)
  {
    hide MayNotify, Notified;
  }

  /** The worker leaves `running`, closes the latch if it was the last of a closed pool, and is cached;
      then it signals. */
  ghost predicate Ended(s: State, s': State, w: WorkerId, wake: Option<CallerId>) {
    && MayNotify(s.cond, s.callers, wake)
    && s'.threads == s.threads - {w}
    && s' == s.(threads := s'.threads, running := s.running - 1, cache := s.cache + [w],
                closed := if s.running == 1 && !s.open then s.closed + {s.latch} else s.closed,
                cond := Signalled(s.cond), callers := Notified(s.cond, s.callers, wake))
  }

  lemma RecyclesTells(s: State, s': State, w: WorkerId)
    requires Recycles(s, s', w)
    ensures s'.signallers > 0 && s'.cond == s.cond && s'.callers == s.callers
  {
  }

  lemma SignalEnds(s: State, s1: State, s2: State, s': State, w: WorkerId, wake: Option<CallerId>)
    requires w in s1.threads && s1.threads == s.threads[w := s1.threads[w]]
    requires s1 == s.(threads := s1.threads, running := s.running - 1,
                      closed := if s.running == 1 && !s.open then s.closed + {s.latch} else s.closed)
    requires Recycles(s1, s2, w) && SignalsLate(s2, s', wake)
    ensures Ended(s, s', w, wake)
  {
    hide MayNotify, Notified;
  }

  // ----- release -------------------------------------------------------------------------------

  /** The channels after every worker of a list has been told to finish. */
  function AllFinished(chan: map<WorkerId, seq<Message>>, q: seq<Worker>): map<WorkerId, seq<Message>>
    decreases |q|
  {
    if q == [] then chan else AllFinished(Sent(chan, q[0].id, Finish), q[1..])
  }

  /** `reset` on the whole queue is a run of the machine, one worker at a time, in which no send
      blocks. */
  lemma {:induction false} ResetIsARun(s: State) returns (states: seq<State>, events: seq<Event>)
    requires Inv(s) && s.admin.AResetting?
    ensures IsRun(states, events) && states[0] == s && |events| == |s.queue|
    ensures forall i :: 0 <= i < |events| ==> events[i].ResetOne?
    ensures states[|events|] == s.(queue := [], chan := AllFinished(s.chan, s.queue))
    decreases |s.queue|
  {
    hide Inv, CallerEvent, WorkerEvent, ServiceEvent, AdminEvent, TuneEvent;
    if s.queue == [] {
      states, events := [s], [];
    } else {
      var s' := s.(queue := s.queue[1..], chan := Sent(s.chan, s.queue[0].id, Finish));
      ResetSends(s, s');
      StepKeeps(s, ResetOne, s');
      var rest, more := ResetIsARun(s');
      states, events := [s] + rest, [ResetOne] + more;
      forall i | 0 <= i < |events| ensures events[i].ResetOne? && Step(states[i], events[i], states[i + 1]) {
        if i > 0 {
          assert states[i] == rest[i - 1] && states[i + 1] == rest[i] && events[i] == more[i - 1];
        }
      }
    }
  }

  lemma ResetSends(s: State, s': State)
    requires Inv(s) && s.admin.AResetting? && s.queue != []
    requires s' == s.(queue := s.queue[1..], chan := Sent(s.chan, s.queue[0].id, Finish))
    ensures AdminEvent(s, ResetOne, s')
  {
    hide LockInv, LiveInv, CondInv, WaitInv, LimitInv, CustodyInv, RegistryInv, CapacityInv, TaskInv, WakeInv, ResetInv, PurgeInv, TickInv, LatchInv;
    SlotIsFree(s);
  }

  lemma SlotIsFree(s: State)
    requires CustodyInv(s.queue, s.callers, s.chan, s.purge, s.threads) && s.queue != []
    ensures CanSend(s.chan, s.queue[0].id)
  {
    hide CustodyInv;
    OnePlace(s, s.queue[0].id);
    assert Listed(s.queue, s.queue[0].id);
  }

  /** A whole run is onward, and stays reachable. */
  lemma {:induction false} RunIsOnward(states: seq<State>, events: seq<Event>, j: nat)
    requires IsRun(states, events) && j < |states| && Reachable(states[0])
    ensures Onward(states[0], states[j]) && Reachable(states[j])
    decreases j
  {
    hide Step, Onward, Reachable;
    if j == 0 {
      OnwardNowhere(states[0]);
    } else {
      RunIsOnward(states, events, j - 1);
      StepIsOnward(states[j - 1], events[j - 1], states[j]);
      ReachableStep(states[j - 1], events[j - 1], states[j]);
      OnwardOn(states[0], states[j - 1], states[j]);
    }
  }

  lemma OnwardNowhere(s: State)
    ensures Onward(s, s)
  {
    hide Leads;
  }

  /** The queue is empty and its workers are told to finish, everybody parked is let go, and the latch
      is closed if no worker runs. */
  ghost predicate ReleasedFrom(s: State, s': State, finished: seq<Worker>) {
    && finished == s.queue
    && s' == s.(admin := AReleased, open := false, purgeCancelled := true, tickCancelled := true,
                queue := [], chan := AllFinished(s.chan, s.queue), cond := Broadcasted(s.cond),
                closed := if s.running == 0 then s.closed + {s.latch} else s.closed)
  }

  /** Open again, with fresh service threads, flags and latch. */
  ghost predicate RebootedFrom(s: State, s': State) {
    s' == s.(admin := AIdle, open := true, latch := s.latch + 1,
             purgeDone := false, purgeCancelled := if s.cfg.disablePurge then s.purgeCancelled else false,
             purge := if s.cfg.disablePurge then s.purge else PWait,
             tickDone := false, tickCancelled := false, tick := TWait)
  }

  lemma ClosedLatchesAreOld(s: State)
    requires Reachable(s)
    ensures forall l :: l in s.closed ==> l <= s.latch
  {
    hide Reachable, LockInv, LiveInv, CondInv, WaitInv, LimitInv, CustodyInv, RegistryInv, CapacityInv, TaskInv, WakeInv, ResetInv, PurgeInv, TickInv;
    ReachableInv(s);
  }

  // ----- purge and tune ------------------------------------------------------------------------

  predicate Dormant(s: State, stale: seq<Worker>) {
    s.running == 0 || s.running == |stale|
  }

  /** One round of the purge: the expired prefix is told to finish, in the order the queue hands it
      over, and whoever waits on a dormant pool is woken. */
  ghost predicate Purged(s: State, s': State, expiry: int, split: nat, stale: seq<Worker>) {
    var k := Expired(KindOf(s.cfg), s.queue, expiry);
    && split <= k && (KindOf(s.cfg).Stack? ==> split == 0) && stale == Handed(s.queue, k, split)
    && s' == s.(purge := PWait, queue := s.queue[k..], chan := AllFinished(s.chan, stale),
                cond := if Dormant(s, stale) && s.waiting > 0 then Broadcasted(s.cond) else s.cond)
  }

  lemma RoundPurges(s: State, s1: State, s2: State, s': State, expiry: int, split: nat, stale: seq<Worker>)
    requires s.lock == None && s1 == s.(purge := PRefreshing, lock := Some(ByPurge))
    requires Refreshes(s1, s2, split, expiry) && s2.purge == PCounting(stale)
    requires s' == s2.(purge := PWait, lock := None, chan := AllFinished(s2.chan, stale),
                       cond := if Dormant(s2, stale) && s2.waiting > 0 then Broadcasted(s2.cond) else s2.cond)
    ensures Purged(s, s', expiry, split, stale)
  {
    hide AllFinished, Expired, Handed, Broadcasted;
  }

  predicate TakesEffect(s: State, size: int) {
    s.capacity != -1 && size > 0 && size != s.capacity && !s.cfg.preAlloc
  }

  /** `tune` changes the capacity of a pool that has one and is not pre-allocated, and wakes one caller
      for one more worker, all of them for more. */
  ghost predicate TunedTo(s: State, s': State, t: nat, size: int, wake: Option<CallerId>) {
    && s'.tuners == s.tuners[t := Tuned]
    && if !TakesEffect(s, size) then s' == s.(tuners := s'.tuners)
       else if size < s.capacity then s' == s.(tuners := s'.tuners, capacity := size, peak := Larger(size, s.peak))
       else if size == s.capacity + 1 then
         && MayNotify(s.cond, s.callers, wake)
         && s' == s.(tuners := s'.tuners, capacity := size, peak := Larger(size, s.peak),
                     cond := Signalled(s.cond), callers := Notified(s.cond, s.callers, wake))
       else
         s' == s.(tuners := s'.tuners, capacity := size, peak := Larger(size, s.peak), cond := Broadcasted(s.cond))
  }

  lemma NoEffectTunes(s: State, s': State, t: nat, size: int)
    requires !TakesEffect(s, size) && s'.tuners == s.tuners[t := Tuned] && s' == s.(tuners := s'.tuners)
    ensures TunedTo(s, s', t, size, None)
  {
  }

  lemma WakesTell(size: int, was: int)
    requires size != was
    ensures size < was ==> WakesFor(size, was).Tuned?
    ensures size == was + 1 ==> WakesFor(size, was).TuneSignal?
    ensures size > was + 1 ==> WakesFor(size, was).TuneBcast?
  {
  }

  /** The capacity is stored. */
  ghost predicate Stored(s: State, s1: State, s2: State, t: nat, size: int) {
    && TakesEffect(s, size) && s1.tuners == s.tuners[t := Storing(size, s.capacity)] && s1 == s.(tuners := s1.tuners)
    && s2.tuners == s1.tuners[t := WakesFor(size, s.capacity)]
    && s2 == s1.(tuners := s2.tuners, capacity := size, peak := Larger(size, s.peak))
  }

  lemma SignalTunes(s: State, s1: State, s2: State, s': State, t: nat, size: int, wake: Option<CallerId>)
    requires Stored(s, s1, s2, t, size) && size == s.capacity + 1 && MayNotify(s2.cond, s2.callers, wake)
    requires s'.tuners == s2.tuners[t := Tuned]
    requires s' == s2.(tuners := s'.tuners, cond := Signalled(s2.cond), callers := Notified(s2.cond, s2.callers, wake))
    ensures TunedTo(s, s', t, size, wake)
  {
    hide MayNotify, Notified, Larger;
  }

  lemma BroadcastTunes(s: State, s1: State, s2: State, s': State, t: nat, size: int)
    requires Stored(s, s1, s2, t, size) && size > s.capacity + 1
    requires s'.tuners == s2.tuners[t := Tuned] && s' == s2.(tuners := s'.tuners, cond := Broadcasted(s2.cond))
    ensures TunedTo(s, s', t, size, None)
  {
    hide Larger;
  }

  lemma ShrinkTunes(s: State, s1: State, s2: State, t: nat, size: int)
    requires Stored(s, s1, s2, t, size) && size < s.capacity
    ensures TunedTo(s, s2, t, size, None)
  {
    hide Larger;
  }
}
