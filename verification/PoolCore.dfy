/** The pool as an object (src/pool_common.rs, src/pool.rs, src/worker.rs): its fields, its idle queue,
    its condition variable and its latches, each of its methods proved against the machine.

    `Atomic` methods are one action of the source on the real fields and one event of the machine, so
    that steps of other threads may come between any two of them.  What other threads do without
    touching the real fields is a call of `Elsewhere`. */
module PoolObject {
  import opened Wrappers
  import opened WorkerQueue
  import opened CondVar
  import opened Sums
  import opened LoopQueueRing
  import opened IdleWorkers
  import opened PoolModel
  import opened PoolInvariant
  import opened PoolRuns
  import opened PoolOwnership
  import opened PoolRest
  import opened PoolPaths

  /** A one-shot latch (src/deps/event.rs). */
  class Latch {
    var closed: bool

    constructor ()
      ensures !closed
    {
      closed := false;
    }

    method Close()
      modifies this
      ensures closed
    {
      if !closed {
        closed := true;
      }
    }
  }

  lemma RegisteredIsCounted(s: State, c: CallerId)
    requires Reachable(s) && c in s.callers && s.callers[c].Parked?
    ensures s.cond.parked > 0 && s.callers[c].since <= s.cond.generation
  {
    hide Reachable, LockInv, LiveInv, WaitInv, LimitInv, CustodyInv, RegistryInv, CapacityInv, TaskInv, WakeInv, ResetInv, PurgeInv, TickInv, LatchInv;
    ReachableInv(s);
    SumAtLeast(s.callers, c, ParkedWeight);
  }

  class PoolCore {
    const cfg: Config
    const cond: Cond
    const idle: IdleQueue
    var capacity: int
    var running: int
    var open: bool
    var waiting: int
    var purgeDone: bool
    var tickDone: bool
    var purgeCancelled: bool
    var tickCancelled: bool
    var allDone: Latch
    var cache: seq<WorkerId>
    var made: nat
    var chan: map<WorkerId, seq<Message>>
    // the state of the machine, with the program counters of all threads
    ghost var at: State
    // every latch there has been, the current one last
    ghost var latches: seq<Latch>

    /** The latches have these numbers, and these are closed. */
    ghost predicate LatchesAre(latch: nat, closed: set<nat>)
      reads this`allDone, this`latches, latches
    {
      && |latches| == latch + 1 && allDone == latches[latch]
      && (forall i, j :: 0 <= i < j < |latches| ==> latches[i] != latches[j])
      && (forall i :: 0 <= i < |latches| ==> (latches[i].closed <==> i in closed))
    }

    /** The other fields are those of this state of the machine. */
    ghost predicate FieldsAre(s: State)
      reads this`capacity, this`running, this`open, this`waiting, this`purgeDone, this`tickDone,
            this`purgeCancelled, this`tickCancelled, this`cache, this`made, this`chan, cond
    {
      && s.cfg == cfg && s.capacity == capacity && s.running == running && s.open == open
      && s.waiting == waiting && s.purgeDone == purgeDone && s.tickDone == tickDone
      && s.purgeCancelled == purgeCancelled && s.tickCancelled == tickCancelled
      && s.cache == cache && s.made == made && s.chan == chan
      && cond.Valid() && s.cond == cond.View()
    }

    /** The idle queue is one for this configuration, and shares nothing with the other objects. */
    ghost predicate Wired()
      reads this`latches
    {
      idle.cfg == cfg && this !in idle.Parts() && cond !in idle.Parts() && forall l :: l in latches ==> l !in idle.Parts()
    }

    /** All of the real state is that of this state of the machine. */
    ghost predicate Agrees(s: State)
      reads this, cond, latches, idle.Parts()
    {
      FieldsAre(s) && idle.Holds(s.queue) && LatchesAre(s.latch, s.closed) && Wired()
    }

    /** The real state is that of the machine, and the machine has come there by a run. */
    ghost predicate Valid()
      reads this, cond, latches, idle.Parts()
    {
      Agrees(at) && Reachable(at)
    }

    /** `PoolCore::new`, once the options have been accepted. */
    constructor (config: Config)
      requires ValidConfig(config)
      ensures Valid() && at == Initial(config) && cfg == config
      ensures fresh(cond) && fresh(idle.Parts()) && fresh(allDone)
    {
      hide Reachable;
      cfg := config;
      var c := new Cond();
      cond := c;
      var q := new IdleQueue(config);
      idle := q;
      capacity, running, open, waiting := config.size, 0, true, 0;
      purgeDone, tickDone, purgeCancelled, tickCancelled := false, false, false, false;
      cache, made, chan := [], 0, map[];
      allDone := new Latch();
      latches := [allDone];
      at := Initial(config);
      new;
      assert idle.Holds([]) && Wired();
      hide IdleQueue.Holds, Wired;
      ReachableInitially(config);
    }

    /** Any step of any thread after which the real fields are as they are now. */
    ghost method Elsewhere(e: Event, next: State)
      requires Reachable(at) && Step(at, e, next) && Agrees(next)
      modifies this`at
      ensures at == next && Valid() && Onward(old(at), at)
    {
      hide Reachable, Step, FieldsAre, IdleQueue.Holds, LatchesAre, Leads;
      ReachableStep(at, e, next);
      StepIsOnward(at, e, next);
      at := next;
    }

    ghost method ByACaller(e: Event, next: State)
      requires Reachable(at) && CallerEvent(at, e, next) && Agrees(next)
      modifies this`at
      ensures at == next && Valid() && Onward(old(at), at)
    {
      hide Reachable, CallerEvent, WorkerEvent, ServiceEvent, AdminEvent, TuneEvent, FieldsAre, IdleQueue.Holds, LatchesAre, Onward;
      Elsewhere(e, next);
    }

    ghost method ByAWorker(e: Event, next: State)
      requires Reachable(at) && WorkerEvent(at, e, next) && Agrees(next)
      modifies this`at
      ensures at == next && Valid() && Onward(old(at), at)
    {
      hide Reachable, CallerEvent, WorkerEvent, ServiceEvent, AdminEvent, TuneEvent, FieldsAre, IdleQueue.Holds, LatchesAre, Onward;
      Elsewhere(e, next);
    }

    ghost method ByAService(e: Event, next: State)
      requires Reachable(at) && ServiceEvent(at, e, next) && Agrees(next)
      modifies this`at
      ensures at == next && Valid() && Onward(old(at), at)
    {
      hide Reachable, CallerEvent, WorkerEvent, ServiceEvent, AdminEvent, TuneEvent, FieldsAre, IdleQueue.Holds, LatchesAre, Onward;
      Elsewhere(e, next);
    }

    ghost method ByTheAdmin(e: Event, next: State)
      requires Reachable(at) && AdminEvent(at, e, next) && Agrees(next)
      modifies this`at
      ensures at == next && Valid() && Onward(old(at), at)
    {
      hide Reachable, CallerEvent, WorkerEvent, ServiceEvent, AdminEvent, TuneEvent, FieldsAre, IdleQueue.Holds, LatchesAre, Onward;
      Elsewhere(e, next);
    }

    ghost method ByATuner(e: Event, next: State)
      requires Reachable(at) && TuneEvent(at, e, next) && Agrees(next)
      modifies this`at
      ensures at == next && Valid() && Onward(old(at), at)
    {
      hide Reachable, CallerEvent, WorkerEvent, ServiceEvent, AdminEvent, TuneEvent, FieldsAre, IdleQueue.Holds, LatchesAre, Onward;
      Elsewhere(e, next);
    }

    // ----- Atomic: retrieve_worker ---------------------------------------------------------------

    method TryDetach(ghost c: CallerId) returns (w: Option<WorkerId>)
      requires Valid() && c in at.callers && at.callers[c].Loop?
      modifies this`at, idle.Parts()
      ensures Valid() && Onward(old(at), at)
      ensures w.Some? ==> Detaches(old(at), at, c) && w.value == Next(KindOf(old(at.cfg)), old(at.queue)).id
      ensures w.None? ==> CallerMoves(old(at), at, c) && c in at.callers && at.callers[c].Empty?
    {
      hide Reachable, FieldsAre, LatchesAre, IdleQueue.Holds, KindOf, Next, Detached, IdleQueue.Parts, Detaches, CallerMoves, Onward;
      var worker := idle.Detach(at.queue);
      if worker.None? {
        NoteEmpty(c);
        return None;
      }
      NoteDetached(c, worker.value);
      w := Some(worker.value.id);
    }

    ghost method NoteEmpty(c: CallerId)
      requires Valid() && c in at.callers && at.callers[c].Loop? && at.queue == []
      modifies this`at
      ensures Valid() && Onward(old(at), at) && CallerMoves(old(at), at, c) && c in at.callers && at.callers[c].Empty?
    {
      hide Reachable, LatchesAre, IdleQueue.Holds, Onward;
      ByACaller(CallerMove(c), at.(callers := at.callers[c := Empty(at.callers[c].admitted)]));
    }

    ghost method NoteDetached(c: CallerId, worker: Worker)
      requires FieldsAre(at) && LatchesAre(at.latch, at.closed) && Wired() && Reachable(at)
      requires at.queue != [] && idle.Holds(Detached(KindOf(cfg), at.queue)) && worker == Next(KindOf(cfg), at.queue)
      requires c in at.callers && at.callers[c].Loop?
      modifies this`at
      ensures Valid() && Onward(old(at), at) && Detaches(old(at), at, c)
      ensures worker == Next(KindOf(old(at.cfg)), old(at.queue))
    {
      hide Reachable, LatchesAre, IdleQueue.Holds, Onward;
      ByACaller(DetachWorker(c),
        at.(callers := at.callers[c := Holding(worker.id)], queue := Detached(KindOf(cfg), at.queue), lock := None));
    }

    method ReadCapacity(ghost c: CallerId) returns (cap: int)
      requires Valid() && c in at.callers && at.callers[c].Empty?
      modifies this`at
      ensures Valid() && Onward(old(at), at) && CallerMoves(old(at), at, c)
      ensures c in at.callers && at.callers[c].Sized? && at.callers[c].cap == cap
    {
      hide Reachable, LatchesAre, IdleQueue.Holds, Onward;
      cap := capacity;
      ByACaller(CallerMove(c), at.(callers := at.callers[c := Sized(at.callers[c].admitted, cap)]));
    }

    method HasRoom(ghost c: CallerId, cap: int) returns (yes: bool)
      requires Valid() && c in at.callers && at.callers[c].Sized? && at.callers[c].cap == cap
      modifies this`at
      ensures Valid() && Onward(old(at), at) && CallerMoves(old(at), at, c)
      ensures c in at.callers && if yes then at.callers[c].Spawning? else at.callers[c].Full?
    {
      hide Reachable, LatchesAre, IdleQueue.Holds, Onward;
      yes := cap == -1 || cap > running;
      ByACaller(CallerMove(c), at.(callers := at.callers[c := CallerGoes(at.callers[c], at)]));
    }

    method FetchCachedWorker(ghost c: CallerId) returns (w: WorkerId)
      requires Valid() && c in at.callers && at.callers[c].Spawning?
      modifies this`at, this`cache, this`made
      ensures Valid() && Onward(old(at), at) && Fetches(old(at), at, c)
      ensures c in at.callers && at.callers[c].Fetched? && at.callers[c].w == w
    {
      hide Reachable, LatchesAre, IdleQueue.Holds, Onward;
      if |cache| > 0 {
        w := cache[|cache| - 1];
        cache := cache[..|cache| - 1];
      } else {
        w := made;
        made := made + 1;
      }
      ByACaller(Fetch(c), at.(callers := at.callers[c := Fetched(at.callers[c].cap, w)], cache := cache, made := made));
    }

    /** `worker::run`; the thread it starts exists in the machine only. */
    method RunWorker(ghost c: CallerId, w: WorkerId)
      requires Valid() && c in at.callers && at.callers[c].Fetched? && at.callers[c].w == w
      modifies this`at, this`running
      ensures Valid() && Onward(old(at), at) && Spawns(old(at), at, c)
    {
      hide Reachable, LatchesAre, IdleQueue.Holds, Onward;
      running := running + 1;
      ByACaller(Spawn(c), at.(callers := at.callers[c := Holding(w)], threads := at.threads[w := Recv],
                              running := running, lock := None));
    }

    /** Bails out of a full pool, or counts the caller as waiting. */
    method BailOrQueue(ghost c: CallerId) returns (overload: bool)
      requires Valid() && c in at.callers && at.callers[c].Full?
      modifies this`at, this`waiting
      ensures Valid() && Onward(old(at), at)
      ensures if overload then Bails(old(at), at, c) else Queues(old(at), at, c) && c in at.callers && at.callers[c].Queuing?
    {
      hide Reachable, LatchesAre, IdleQueue.Holds, Bails, Queues, Onward;
      overload := cfg.nonblocking || (cfg.maxBlocking != 0 && waiting >= cfg.maxBlocking);
      if overload {
        NoteBailed(c);
      } else {
        CountWaiting(c);
      }
    }

    ghost method NoteBailed(c: CallerId)
      requires Valid() && c in at.callers && at.callers[c].Full? && Overloaded(at)
      modifies this`at
      ensures Valid() && Onward(old(at), at) && Bails(old(at), at, c)
    {
      hide Reachable, LatchesAre, IdleQueue.Holds, Onward;
      ByACaller(Bail(c), at.(callers := at.callers[c := Rejected(PoolOverload)], lock := None));
    }

    method CountWaiting(ghost c: CallerId)
      requires Valid() && c in at.callers && at.callers[c].Full? && !Overloaded(at)
      modifies this`at, this`waiting
      ensures Valid() && Onward(old(at), at) && Queues(old(at), at, c) && c in at.callers && at.callers[c].Queuing?
    {
      hide Reachable, LatchesAre, IdleQueue.Holds, Onward;
      waiting := waiting + 1;
      ByACaller(Event.Queue(c), at.(callers := at.callers[c := Queuing], waiting := waiting));
    }

    /** The head of `cond.wait`. */
    method BeginWait(ghost c: CallerId) returns (since: nat)
      requires Valid() && c in at.callers && at.callers[c].Queuing?
      modifies this`at, cond
      ensures Valid() && Onward(old(at), at) && Parks(old(at), at, c)
      ensures c in at.callers && at.callers[c].Parked? && since == old(at.cond.generation) % TWO_TO_THE_64
      ensures at.callers[c].since == old(at.cond.generation)
    {
      hide Reachable, LatchesAre, IdleQueue.Holds, Onward;
      since := cond.Register();
      ByACaller(Park(c), at.(callers := at.callers[c := Parked(at.cond.generation, true)],
                             cond := Registered(at.cond), lock := None));
    }

    /** One turn of the loop in `cond.wait`.  The source compares generations modulo two to the
        64th; that is exact unless that many broadcasts have passed since the caller registered. */
    method Look(ghost c: CallerId, since: nat) returns (left: bool)
      requires Valid() && c in at.callers && at.callers[c].Parked? && at.callers[c].awake
      requires since == at.callers[c].since % TWO_TO_THE_64
      requires at.cond.generation < at.callers[c].since + TWO_TO_THE_64
      modifies this`at, cond
      ensures Valid() && Onward(old(at), at)
      ensures if left then Leaves(old(at), at, c) && c in at.callers && at.callers[c].Woken? else Sleeps(old(at), at, c)
    {
      hide Reachable, LatchesAre, IdleQueue.Holds, Leaves, Sleeps, Onward;
      RegisteredIsCounted(at, c);
      ghost var since' := at.callers[c].since;
      left := cond.TryLeave(since, since');
      if left {
        NoteLeft(c);
      } else {
        NoteAsleep(c);
      }
    }

    ghost method NoteLeft(c: CallerId)
      requires idle.Holds(at.queue) && LatchesAre(at.latch, at.closed) && Wired() && Reachable(at)
      requires c in at.callers && at.callers[c].Parked? && at.callers[c].awake
      requires at.cond.parked > 0 && MayLeave(at.cond, at.callers[c].since)
      requires FieldsAre(at.(cond := Left(at.cond, at.callers[c].since)))
      modifies this`at
      ensures Valid() && Onward(old(at), at) && Leaves(old(at), at, c) && c in at.callers && at.callers[c].Woken?
    {
      hide Reachable, LatchesAre, IdleQueue.Holds, Onward;
      ByACaller(Event.Leave(c), at.(callers := at.callers[c := Woken], cond := Left(at.cond, at.callers[c].since)));
    }

    ghost method NoteAsleep(c: CallerId)
      requires Valid() && c in at.callers && at.callers[c].Parked? && at.callers[c].awake
      requires !MayLeave(at.cond, at.callers[c].since)
      modifies this`at
      ensures Valid() && Onward(old(at), at) && Sleeps(old(at), at, c)
    {
      hide Reachable, LatchesAre, IdleQueue.Holds, Onward;
      ByACaller(Event.Sleep(c), at.(callers := at.callers[c := Parked(at.callers[c].since, false)]));
    }

    /** `add_waiting(-1)` after the wait. */
    method CountOut(ghost c: CallerId)
      requires Valid() && c in at.callers && at.callers[c].Relocked?
      modifies this`at, this`waiting
      ensures Valid() && Onward(old(at), at) && Uncounts(old(at), at, c) && c in at.callers && at.callers[c].Uncounted?
    {
      hide Reachable, LatchesAre, IdleQueue.Holds, Onward;
      waiting := waiting - 1;
      ByACaller(Uncount(c), at.(callers := at.callers[c := Uncounted], waiting := waiting));
    }

    /** The closed test after the wait. */
    method TestAfterWait(ghost c: CallerId) returns (closed: bool)
      requires Valid() && c in at.callers && at.callers[c].Uncounted?
      modifies this`at
      ensures Valid() && Onward(old(at), at) && Resumes(old(at), at, c)
      ensures c in at.callers && closed == !old(open) && (if closed then at.callers[c].Rejected? else at.callers[c].Loop?)
    {
      hide Reachable, LatchesAre, IdleQueue.Holds, Onward;
      closed := !open;
      ByACaller(Resume(c), at.(callers := at.callers[c := if open then Loop(true) else Rejected(PoolClosed)],
                               lock := if open then at.lock else None));
    }

    // ----- Undisturbed: retrieve_worker ----------------------------------------------------------

    /** One round of the loop, with the lock. */
    method Round(ghost c: CallerId) returns (r: Retrieval)
      requires Valid() && c in at.callers && at.callers[c].Loop?
      modifies this, cond, idle.Parts()
      ensures Valid() && Onward(old(at), at) && Served(old(at), at, c, r) && latches == old(latches)
    {
      hide Reachable, FieldsAre, LatchesAre, IdleQueue.Holds, IdleQueue.Parts, Onward, Served;
      hide Detaches, CallerMoves, Fetches, Spawns, Bails, Queues, Parks, KindOf, Next, Detached;
      ghost var s := at;
      var worker := TryDetach(c);
      if worker.Some? {
        DetachServes(s, at, c, worker.value);
        return Got(worker.value);
      }
      ghost var s1 := at;
      var cap := ReadCapacity(c);
      ghost var s2 := at;
      OnwardOn(s, s1, s2);
      var room := HasRoom(c, cap);
      ghost var s3 := at;
      OnwardOn(s, s2, s3);
      ReadsTell(s, s1, s2, s3, c);
      if room {
        var w := SpawnWorker(c, s);
        return Got(w);
      }
      r := BailOrBlock(c, s);
    }

    method SpawnWorker(ghost c: CallerId, ghost s: State) returns (w: WorkerId)
      requires Valid() && c in at.callers && at.callers[c].Spawning? && Onward(s, at)
      requires s.queue == [] && at == s.(callers := at.callers) && Roomy(s)
      requires at.callers == s.callers[c := at.callers[c]]
      modifies this`at, this`cache, this`made, this`running
      ensures Valid() && Onward(s, at) && Served(s, at, c, Got(w))
    {
      hide Reachable, FieldsAre, LatchesAre, IdleQueue.Holds, IdleQueue.Parts, Onward, Served, Fetches, Spawns, Roomy;
      ghost var s3 := at;
      w := FetchCachedWorker(c);
      ghost var s4 := at;
      OnwardOn(s, s3, s4);
      RunWorker(c, w);
      OnwardOn(s, s4, at);
      SpawnServes(s, s3, s4, at, c, w);
    }

    method BailOrBlock(ghost c: CallerId, ghost s: State) returns (r: Retrieval)
      requires Valid() && c in at.callers && at.callers[c].Full? && Onward(s, at)
      requires s.queue == [] && at == s.(callers := at.callers) && !Roomy(s)
      requires at.callers == s.callers[c := at.callers[c]]
      modifies this`at, this`waiting, cond
      ensures Valid() && Onward(s, at) && Served(s, at, c, r)
    {
      hide Reachable, FieldsAre, LatchesAre, IdleQueue.Holds, IdleQueue.Parts, Onward, Served, Bails, Queues, Parks, Roomy;
      ghost var s3 := at;
      var overload := BailOrQueue(c);
      ghost var s4 := at;
      OnwardOn(s, s3, s4);
      if overload {
        BailServes(s, s3, s4, c);
        return Failed(PoolOverload);
      }
      var since := BeginWait(c);
      OnwardOn(s, s4, at);
      WaitServes(s, s3, s4, at, c, since);
      r := Blocked(since);
    }

    /** The call up to its result or its wait. */
    method RetrieveWorker(ghost c: CallerId) returns (r: Retrieval)
      requires Valid() && c in at.callers && at.callers[c].Ready? && at.lock == None
      modifies this, cond, idle.Parts()
      ensures Valid() && Leads(old(at), at) && Onward(old(at), at) && Served(old(at), at, c, r)
      ensures latches == old(latches)
    {
      hide Reachable, LatchesAre, IdleQueue.Holds, Onward, Served, Leads;
      ghost var s := at;
      ByACaller(CallerLock(c), at.(callers := at.callers[c := Loop(false)], lock := Some(ByCaller(c))));
      ghost var s1 := at;
      r := Round(c);
      OnwardOn(s, s1, at);
      LockServes(s, s1, at, c, r);
      OnwardIsLeads(s, at);
    }

    /** Looks, and if it may leave the wait takes the lock again and goes on with the loop. */
    method ContinueRetrieval(ghost c: CallerId, since: nat) returns (r: Retrieval)
      requires Valid() && at.lock == None && c in at.callers && at.callers[c].Parked? && at.callers[c].awake
      requires since == at.callers[c].since % TWO_TO_THE_64
      requires at.cond.generation < at.callers[c].since + TWO_TO_THE_64
      modifies this, cond, idle.Parts()
      ensures Valid() && Leads(old(at), at) && Onward(old(at), at) && latches == old(latches)
      ensures old(at.cond.parked) > 0 && Continued(old(at), at, c, r)
    {
      hide Reachable, FieldsAre, LatchesAre, IdleQueue.Holds, Onward, Leads, Continued, Leaves, Sleeps, Returned, IdleQueue.Parts;
      ghost var s := at;
      RegisteredIsCounted(s, c);
      var left := Look(c, since);
      if !left {
        OnwardIsLeads(s, at);
        SleepContinues(s, at, c);
        return Blocked(since);
      }
      Relock(c, s);
      r := AfterRelock(c, s);
      OnwardIsLeads(s, at);
    }

    ghost method Relock(c: CallerId, s: State)
      requires Valid() && Leaves(s, at, c) && Onward(s, at) && s.lock == None
      modifies this`at
      ensures Valid() && Onward(s, at) && Returned(s, at.(waiting := at.waiting - 1), c) && at.callers[c].Relocked?
      ensures at.open == s.open
    {
      hide Reachable, LatchesAre, IdleQueue.Holds, Onward;
      ghost var s1 := at;
      ByACaller(CallerLock(c), at.(callers := at.callers[c := Relocked], lock := Some(ByCaller(c))));
      OnwardOn(s, s1, at);
    }

    method AfterRelock(ghost c: CallerId, ghost s: State) returns (r: Retrieval)
      requires Valid() && Onward(s, at) && Returned(s, at.(waiting := at.waiting - 1), c) && at.callers[c].Relocked?
      requires at.open == s.open && s.lock == None
      modifies this, cond, idle.Parts()
      ensures Valid() && Onward(s, at) && Continued(s, at, c, r) && latches == old(latches)
    {
      hide Reachable, FieldsAre, LatchesAre, IdleQueue.Holds, Onward, Served, IdleQueue.Parts;
      ghost var s1 := at;
      CountOut(c);
      ghost var s2 := at;
      OnwardOn(s, s1, s2);
      var closed := TestAfterWait(c);
      ghost var s3 := at;
      OnwardOn(s, s2, s3);
      assert s2.open == s.open;
      if closed {
        ClosedContinues(s, s1, s2, s3, c);
        return Failed(PoolClosed);
      }
      r := Round(c);
      OnwardOn(s, s3, at);
      OpenContinues(s, s1, s2, s3, at, c, r);
    }

    /** A call of `try_submit`, up to its result or its wait. */
    method TrySubmit(c: CallerId) returns (r: Retrieval, ghost mid: State)
      requires Valid() && c in at.callers && at.callers[c].Start? && at.lock == None
      modifies this, cond, idle.Parts()
      ensures Valid() && Leads(old(at), at) && Submitted(old(at), mid, at, c, r)
    {
      hide Reachable, FieldsAre, LatchesAre, IdleQueue.Holds, Onward, Leads, Served, IdleQueue.Parts, Wired;
      ghost var s := at;
      mid := s;
      var closed := TestClosed(c);
      ghost var s1 := at;
      if closed {
        OnwardIsLeads(s, at);
        return Failed(PoolClosed), s;
      }
      r := RetrieveWorker(c);
      mid := at;
      OnwardOn(s, s1, mid);
      LockServes(s, s1, mid, c, r);
      if r.Got? {
        GotIsHolding(s, mid, c, r.w);
        Input(c, r.w);
        OnwardOn(s, mid, at);
        DeliverySubmits(s, s1, mid, at, c, r.w);
      }
      OnwardIsLeads(s, at);
    }

    // ----- Atomic: try_submit --------------------------------------------------------------------

    method TestClosed(ghost c: CallerId) returns (closed: bool)
      requires Valid() && c in at.callers && at.callers[c].Start?
      modifies this`at
      ensures Valid() && Onward(old(at), at) && closed == !old(at.open)
      ensures c in at.callers && at.callers == old(at.callers)[c := at.callers[c]]
      ensures at == old(at).(callers := at.callers)
      ensures at.callers[c] == if closed then Rejected(PoolClosed) else Ready
    {
      hide Reachable, LatchesAre, IdleQueue.Holds, Onward;
      closed := !open;
      ByACaller(CallerMove(c), at.(callers := at.callers[c := if open then Ready else Rejected(PoolClosed)]));
    }

    /** `GoWorker::input`; the slot of the channel is free. */
    method Input(c: CallerId, w: WorkerId)
      requires Valid() && c in at.callers && at.callers[c] == Holding(w)
      modifies this`at, this`chan
      ensures Valid() && Onward(old(at), at) && Delivers(old(at), at, c)
    {
      hide Reachable, LatchesAre, IdleQueue.Holds, Onward;
      SendsNeverBlock(at);
      chan := Sent(chan, w, Payload(c));
      ByACaller(Deliver(c), at.(callers := at.callers[c := Accepted(w)], chan := chan));
    }

    // ----- Atomic: revert_worker and the epilogue ------------------------------------------------

    /** A step of a worker that only reads. */
    ghost method Reading(w: WorkerId, now: int)
      requires Valid() && w in at.threads && WorkerReads(at.threads[w], at)
      modifies this`at
      ensures Valid() && Onward(old(at), at) && at == old(at).(threads := at.threads)
      ensures at.threads == old(at.threads)[w := WorkerGoes(old(at.threads[w]), old(at), now)]
    {
      hide Reachable, LatchesAre, IdleQueue.Holds, Onward, WorkerGoes;
      ByAWorker(WorkerMove(w, now), at.(threads := at.threads[w := WorkerGoes(at.threads[w], at, now)]));
    }

    ghost method WorkerLocks(w: WorkerId)
      requires Valid() && w in at.threads && at.threads[w].RevLock? && at.lock == None
      modifies this`at
      ensures Valid() && Onward(old(at), at) && at == old(at).(threads := at.threads, lock := Some(ByWorker(w)))
      ensures at.threads == old(at.threads)[w := RevCheck(old(at.threads[w].stamp))]
    {
      hide Reachable, LatchesAre, IdleQueue.Holds, Onward;
      ByAWorker(WorkerLock(w), at.(threads := at.threads[w := RevCheck(at.threads[w].stamp)], lock := Some(ByWorker(w))));
    }

    /** The second test for a closed pool has been passed; a full ring refuses. */
    method TryInsert(w: WorkerId, stamp: int) returns (accepted: bool)
      requires Valid() && w in at.threads && at.threads[w] == RevInsert(stamp)
      modifies this`at, idle.Parts()
      ensures Valid() && Onward(old(at), at) && accepted == !WorkerQueue.Full(KindOf(old(at.cfg)), old(at.queue))
      ensures if accepted then Inserts(old(at), at, w) && w in at.threads && at.threads[w].RevSignal?
              else IsRefused(old(at), at, w)
    {
      hide Reachable, LatchesAre, IdleQueue.Holds, KindOf, Inserted, IdleQueue.Parts, Inserts, IsRefused, Onward;
      accepted := idle.Insert(at.queue, Worker(w, stamp));
      if accepted {
        NoteInserted(w, stamp);
      } else {
        NoteRefused(w, stamp);
      }
    }

    ghost method NoteInserted(w: WorkerId, stamp: int)
      requires FieldsAre(at) && LatchesAre(at.latch, at.closed) && Wired() && Reachable(at)
      requires w in at.threads && at.threads[w] == RevInsert(stamp) && !WorkerQueue.Full(KindOf(cfg), at.queue)
      requires idle.Holds(Inserted(KindOf(cfg), at.queue, Worker(w, stamp)))
      modifies this`at
      ensures Valid() && Onward(old(at), at) && Inserts(old(at), at, w) && w in at.threads && at.threads[w].RevSignal?
    {
      hide Reachable, LatchesAre, IdleQueue.Holds, Onward;
      ByAWorker(InsertWorker(w),
        at.(threads := at.threads[w := RevSignal], queue := Inserted(KindOf(cfg), at.queue, Worker(w, stamp))));
    }

    ghost method NoteRefused(w: WorkerId, stamp: int)
      requires FieldsAre(at) && LatchesAre(at.latch, at.closed) && Wired() && Reachable(at)
      requires w in at.threads && at.threads[w] == RevInsert(stamp) && WorkerQueue.Full(KindOf(cfg), at.queue)
      requires idle.Holds(Inserted(KindOf(cfg), at.queue, Worker(w, stamp)))
      modifies this`at
      ensures Valid() && Onward(old(at), at) && IsRefused(old(at), at, w)
    {
      hide Reachable, LatchesAre, IdleQueue.Holds, Onward;
      ByAWorker(Refuse(w), at.(threads := at.threads[w := Exit], lock := None));
    }

    /** The signal in `revert_worker`, under the lock; `wake` is the sleeper it notifies, if any. */
    method Announce(w: WorkerId, ghost wake: Option<CallerId>) returns (notify: bool)
      requires Valid() && w in at.threads && at.threads[w].RevSignal? && MayNotify(at.cond, at.callers, wake)
      modifies this`at, cond
      ensures Valid() && Onward(old(at), at) && Announces(old(at), at, w, wake) && (notify <==> SignalCounts(old(at.cond)))
    {
      hide Reachable, LatchesAre, IdleQueue.Holds, MayNotify, Notified, Onward;
      notify := cond.Signal();
      ByAWorker(Event.Announce(w, wake),
        at.(threads := at.threads[w := Recv], lock := None,
            cond := Signalled(at.cond), callers := Notified(at.cond, at.callers, wake)));
    }

    /** `revert_worker` refuses: too many workers, or a closed pool. */
    method GiveUp(w: WorkerId)
      requires Valid() && w in at.threads && at.threads[w].RevBcast?
      modifies this`at, cond
      ensures Valid() && Onward(old(at), at) && GivesUp(old(at), at, w)
    {
      hide Reachable, LatchesAre, IdleQueue.Holds, Onward;
      var notify := cond.Broadcast();
      ByAWorker(Event.GiveUp(w), at.(threads := at.threads[w := Exit], cond := Broadcasted(at.cond)));
    }

    /** The decrement at the head of the epilogue. */
    method Retire(w: WorkerId) returns (last: bool)
      requires Valid() && w in at.threads && at.threads[w].Exit?
      modifies this`at, this`running
      ensures Valid() && Onward(old(at), at) && Retires(old(at), at, w)
      ensures last == (old(at.running) == 1) && w in at.threads && at.threads[w] == EpilogueFrom(at.running)
    {
      hide Reachable, LatchesAre, IdleQueue.Holds, EpilogueFrom, Onward;
      running := running - 1;
      last := running == 0;
      ByAWorker(Event.Retire(w), at.(threads := at.threads[w := EpilogueFrom(running)], running := running));
    }

    /** A worker closes the latch that it loaded, which need not be the current one any more. */
    method CloseLatch(w: WorkerId, latch: Latch)
      requires Valid() && w in at.threads && at.threads[w].ExitClose?
      requires at.threads[w].latch <= at.latch && latch == latches[at.threads[w].latch]
      modifies this`at, latch
      ensures Valid() && Onward(old(at), at) && ClosesLatch(old(at), at, w)
    {
      hide Reachable, IdleQueue.Holds, Onward;
      latch.Close();
      ByAWorker(Event.CloseLatch(w),
        at.(threads := at.threads[w := Recycle], closed := at.closed + {at.threads[w].latch}));
    }

    method ReturnToCache(w: WorkerId)
      requires Valid() && w in at.threads && at.threads[w].Recycle?
      modifies this`at, this`cache
      ensures Valid() && Onward(old(at), at) && Recycles(old(at), at, w)
    {
      hide Reachable, LatchesAre, IdleQueue.Holds, Onward;
      cache := cache + [w];
      ByAWorker(RecycleWorker(w), at.(threads := at.threads - {w}, cache := cache, signallers := at.signallers + 1));
    }

    /** The signal that ends the epilogue, without the lock. */
    method SignalLate(ghost wake: Option<CallerId>) returns (notify: bool)
      requires Valid() && at.signallers > 0 && MayNotify(at.cond, at.callers, wake)
      modifies this`at, cond
      ensures Valid() && Onward(old(at), at) && SignalsLate(old(at), at, wake)
    {
      hide Reachable, LatchesAre, IdleQueue.Holds, MayNotify, Notified, Onward;
      notify := cond.Signal();
      ByAWorker(LateSignal(wake), at.(signallers := at.signallers - 1, cond := Signalled(at.cond),
                                      callers := Notified(at.cond, at.callers, wake)));
    }

    // ----- Undisturbed: the worker loop ----------------------------------------------------------

    /** The head of the worker loop: takes the message out of the channel. */
    method Receive(w: WorkerId) returns (m: Message)
      requires Valid() && w in at.threads && at.threads[w].Recv? && w in at.chan && at.chan[w] != []
      modifies this`at, this`chan
      ensures Valid() && Onward(old(at), at) && Receives(old(at), at, w) && m == old(at.chan[w][0])
    {
      hide Reachable, LatchesAre, IdleQueue.Holds, Onward, Heeds;
      m := chan[w][0];
      chan := chan[w := chan[w][1..]];
      ByAWorker(Event.Receive(w), at.(threads := at.threads[w := Heeds(m)], chan := chan));
    }

    method RevertWorker(w: WorkerId, now: int) returns (kept: bool, ghost wake: Option<CallerId>)
      requires Valid() && w in at.threads && at.threads[w].RevCap? && at.lock == None
      modifies this`at, cond, idle.Parts()
      ensures Valid() && Leads(old(at), at) && Onward(old(at), at) && Reverted(old(at), at, w, now, wake, kept)
    {
      hide Reachable, FieldsAre, LatchesAre, IdleQueue.Holds, IdleQueue.Parts, Onward, Leads, Reverted, TooMany;
      ghost var s := at;
      wake := None;
      kept := Decide(w, now);
      if kept {
        kept, wake := ParkWorker(w, now, s);
      } else {
        GiveBack(w, now, s);
      }
      OnwardIsLeads(s, at);
    }

    /** The first tests of `revert_worker`: not too many workers, and an open pool. */
    method Decide(w: WorkerId, ghost now: int) returns (stay: bool)
      requires Valid() && w in at.threads && at.threads[w].RevCap?
      modifies this`at
      ensures Valid() && Onward(old(at), at) && stay == (!TooMany(old(at)) && old(at.open))
      ensures w in at.threads && at.threads == old(at.threads)[w := at.threads[w]] && at == old(at).(threads := at.threads)
      ensures if stay then at.threads[w].RevStamp? else at.threads[w].RevBcast?
    {
      hide Reachable, FieldsAre, LatchesAre, IdleQueue.Holds, IdleQueue.Parts, Onward;
      ghost var s := at;
      var many := CompareWithCapacity(w, now);
      if many {
        return false;
      }
      ghost var s2 := at;
      stay := TestOpen(w, now);
      OnwardOn(s, s2, at);
    }

    method CompareWithCapacity(w: WorkerId, ghost now: int) returns (many: bool)
      requires Valid() && w in at.threads && at.threads[w].RevCap?
      modifies this`at
      ensures Valid() && Onward(old(at), at) && many == TooMany(old(at)) && at == old(at).(threads := at.threads)
      ensures at.threads == old(at.threads)[w := if many then RevBcast else RevClosed]
    {
      hide Reachable, LatchesAre, IdleQueue.Holds, IdleQueue.Parts, Onward;
      ghost var s := at;
      var cap := capacity;
      Reading(w, now);
      ghost var s1 := at;
      many := cap > 0 && running > cap;
      Reading(w, now);
      OnwardOn(s, s1, at);
    }

    method TestOpen(w: WorkerId, ghost now: int) returns (stay: bool)
      requires Valid() && w in at.threads && at.threads[w].RevClosed?
      modifies this`at
      ensures Valid() && Onward(old(at), at) && stay == old(at.open) && at == old(at).(threads := at.threads)
      ensures at.threads == old(at.threads)[w := if stay then RevStamp else RevBcast]
    {
      hide Reachable, LatchesAre, IdleQueue.Holds, IdleQueue.Parts, Onward;
      stay := open;
      Reading(w, now);
    }

    method GiveBack(w: WorkerId, ghost now: int, ghost s: State)
      requires Valid() && Onward(s, at) && w in at.threads && at.threads[w].RevBcast? && (TooMany(s) || !s.open)
      requires at.threads == s.threads[w := at.threads[w]] && at == s.(threads := at.threads)
      modifies this`at, cond
      ensures Valid() && Onward(s, at) && Reverted(s, at, w, now, None, false)
    {
      hide Reachable, FieldsAre, LatchesAre, IdleQueue.Holds, IdleQueue.Parts, Onward, Reverted, GivesUp, TooMany;
      ghost var s1 := at;
      GiveUp(w);
      OnwardOn(s, s1, at);
      GivingUpReverts(s, s1, at, w, now);
    }

    /** The rest of `revert_worker`, from the stamp on. */
    method ParkWorker(w: WorkerId, now: int, ghost s: State) returns (kept: bool, ghost wake: Option<CallerId>)
      requires Valid() && Onward(s, at) && w in at.threads && at.threads[w].RevStamp? && !TooMany(s) && s.open
      requires at.threads == s.threads[w := at.threads[w]] && at == s.(threads := at.threads) && s.lock == None
      modifies this`at, cond, idle.Parts()
      ensures Valid() && Onward(s, at) && Reverted(s, at, w, now, wake, kept)
    {
      hide Reachable, FieldsAre, LatchesAre, IdleQueue.Holds, IdleQueue.Parts, Onward, Reverted, Inserts, IsRefused, Announces, KindOf, TooMany, MayNotify;
      ghost var s1 := at;
      Reading(w, now);
      ghost var s2 := at;
      OnwardOn(s, s1, s2);
      WorkerLocks(w);
      ghost var s3 := at;
      OnwardOn(s, s2, s3);
      Reading(w, now);
      ghost var s4 := at;
      OnwardOn(s, s3, s4);
      assert s4.threads == s.threads[w := RevInsert(now)];
      kept, wake := InsertAndSignal(w, now, s);
    }

    method InsertAndSignal(w: WorkerId, now: int, ghost s: State) returns (kept: bool, ghost wake: Option<CallerId>)
      requires Valid() && Onward(s, at) && w in at.threads && at.threads[w] == RevInsert(now) && !TooMany(s) && s.open
      requires at.threads == s.threads[w := at.threads[w]] && s.lock == None
      requires at == s.(threads := at.threads, lock := at.lock)
      modifies this`at, cond, idle.Parts()
      ensures Valid() && Onward(s, at) && Reverted(s, at, w, now, wake, kept)
    {
      hide Reachable, FieldsAre, LatchesAre, IdleQueue.Holds, IdleQueue.Parts, Onward, Reverted, Inserts, IsRefused, Announces, KindOf, TooMany, MayNotify;
      ghost var s4 := at;
      wake := None;
      kept := TryInsert(w, now);
      ghost var s5 := at;
      OnwardOn(s, s4, s5);
      if kept {
        wake := SomebodyToNotify(at);
        var notify := Announce(w, wake);
        OnwardOn(s, s5, at);
        InsertionReverts(s, s4, s5, at, w, now, wake);
      } else {
        RefusalReverts(s, s4, at, w, now);
      }
    }

    /** The epilogue of a worker. */
    method Epilogue(w: WorkerId) returns (ghost wake: Option<CallerId>)
      requires Valid() && w in at.threads && at.threads[w].Exit?
      modifies this`at, this`running, this`cache, cond, allDone
      ensures Valid() && Leads(old(at), at) && Onward(old(at), at) && Ended(old(at), at, w, wake)
    {
      hide Reachable, FieldsAre, LatchesAre, IdleQueue.Holds, IdleQueue.Parts, Onward, Leads, Ended, MayNotify, Recycles, SignalsLate;
      ghost var s := at;
      LeaveRunning(w);
      ghost var s1 := at;
      ReturnToCache(w);
      ghost var s2 := at;
      OnwardOn(s, s1, s2);
      wake := SomebodyToNotify(at);
      RecyclesTells(s1, s2, w);
      var notify := SignalLate(wake);
      OnwardOn(s, s2, at);
      SignalEnds(s, s1, s2, at, w, wake);
      OnwardIsLeads(s, at);
    }

    /** Its first line: the decrement and, for the last worker of a closed pool, the latch. */
    method LeaveRunning(w: WorkerId)
      requires Valid() && w in at.threads && at.threads[w].Exit?
      modifies this`at, this`running, allDone
      ensures Valid() && Onward(old(at), at) && w in at.threads && at.threads[w].Recycle?
      ensures at.threads == old(at.threads)[w := Recycle]
      ensures var s := old(at);
        at == s.(threads := at.threads, running := s.running - 1,
                 closed := if s.running == 1 && !s.open then s.closed + {s.latch} else s.closed)
    {
      hide Reachable, IdleQueue.Holds, IdleQueue.Parts, Onward, ClosesLatch, LatchesAre;
      ghost var s := at;
      var last := Retire(w);
      ghost var s1 := at;
      if last {
        var closed := !open;
        Reading(w, 0);
        ghost var s2 := at;
        OnwardOn(s, s1, s2);
        if closed {
          CloseLoadedLatch(w);
          OnwardOn(s, s2, at);
        }
      }
    }

    method CloseLoadedLatch(w: WorkerId)
      requires Valid() && w in at.threads && at.threads[w].ExitLoad?
      modifies this`at, allDone
      ensures Valid() && Onward(old(at), at) && at.threads == old(at.threads)[w := Recycle]
      ensures at == old(at).(threads := at.threads, closed := old(at.closed) + {old(at.latch)})
    {
      hide Reachable, IdleQueue.Holds, Onward;
      ghost var s := at;
      var latch := allDone;
      Reading(w, 0);
      ghost var s1 := at;
      CloseLatch(w, latch);
      OnwardOn(s, s1, at);
    }

    // ----- The purge thread ----------------------------------------------------------------------

    /** The critical section of the purge thread up to its read of `running`. */
    method Refresh(now: int, duration: int) returns (stale: seq<Worker>, overflow: bool, ghost split: nat)
      requires Valid() && at.purge.PRefreshing?
      modifies this`at, idle.Parts()
      ensures Valid() && Onward(old(at), at)
      ensures overflow ==> cfg.size > LARGEST_SAFE_SIZE && at == old(at)
      ensures !overflow ==> Refreshes(old(at), at, split, now - duration) && at.purge == PCounting(stale)
    {
      hide Reachable, FieldsAre, LatchesAre, IdleQueue.Holds, KindOf, IdleQueue.Parts, Refreshes, Expired, Handed, Onward;
      stale, overflow, split := idle.Refresh(at.queue, now, duration);
      if overflow {
        OnwardNowhere(at);
      } else {
        NoteRefreshed(split, now - duration);
      }
    }

    ghost method NoteRefreshed(split: nat, expiry: int)
      requires FieldsAre(at) && LatchesAre(at.latch, at.closed) && Wired() && Reachable(at) && at.purge.PRefreshing?
      requires split <= Expired(KindOf(cfg), at.queue, expiry) && (KindOf(cfg).Stack? ==> split == 0)
      requires idle.Holds(at.queue[Expired(KindOf(cfg), at.queue, expiry)..])
      modifies this`at
      ensures Valid() && Onward(old(at), at) && Refreshes(old(at), at, split, expiry)
      ensures at.purge == PCounting(Handed(old(at.queue), Expired(KindOf(cfg), old(at.queue), expiry), split))
    {
      hide Reachable, LatchesAre, IdleQueue.Holds, KindOf, Expired, Handed, Onward;
      var k := Expired(KindOf(cfg), at.queue, expiry);
      ByAService(RefreshQueue(split, expiry), at.(purge := PCounting(Handed(at.queue, k, split)), queue := at.queue[k..]));
    }

    /** Whether the pool was dormant, still under the lock. */
    method CountRunning(stale: seq<Worker>) returns (dormant: bool)
      requires Valid() && at.purge == PCounting(stale)
      modifies this`at
      ensures Valid() && Onward(old(at), at) && dormant == Dormant(old(at), stale)
      ensures at == old(at).(purge := PFinishing(stale, dormant), lock := None)
    {
      hide Reachable, LatchesAre, IdleQueue.Holds, Onward;
      dormant := running == 0 || running == |stale|;
      ByAService(PurgeCount, at.(purge := PFinishing(stale, dormant), lock := None));
    }

    /** Tells the stale workers to finish, one after the other. */
    method FinishStale(stale: seq<Worker>, ghost dormant: bool)
      requires Valid() && at.purge == PFinishing(stale, dormant)
      modifies this`at, this`chan
      ensures Valid() && Onward(old(at), at)
      ensures at == old(at).(purge := PFinishing([], dormant), chan := AllFinished(old(at.chan), stale))
    {
      hide Reachable, FieldsAre, LatchesAre, IdleQueue.Holds, Onward;
      ghost var s := at;
      OnwardNowhere(s);
      for i := 0 to |stale|
        invariant Valid() && Onward(s, at)
        invariant at == s.(purge := PFinishing(stale[i..], dormant), chan := at.chan)
        invariant AllFinished(at.chan, stale[i..]) == AllFinished(s.chan, stale)
      {
        ghost var s1 := at;
        FinishOne(stale[i].id);
        OnwardOn(s, s1, at);
        assert stale[i..][0] == stale[i] && stale[i..][1..] == stale[i + 1..];
      }
    }

    method FinishOne(w: WorkerId)
      requires Valid() && at.purge.PFinishing? && at.purge.stale != [] && at.purge.stale[0].id == w
      modifies this`at, this`chan
      ensures Valid() && Onward(old(at), at)
      ensures at == old(at).(purge := PFinishing(old(at.purge.stale)[1..], old(at.purge.dormant)),
                             chan := Sent(old(at.chan), w, Finish))
    {
      hide Reachable, LatchesAre, IdleQueue.Holds, Onward;
      SendsNeverBlock(at);
      chan := Sent(chan, w, Finish);
      ByAService(PurgeFinish, at.(purge := PFinishing(at.purge.stale[1..], at.purge.dormant), chan := chan));
    }

    /** The end of a round: a broadcast if the pool was dormant and somebody waits. */
    method WakeDormant(dormant: bool)
      requires Valid() && at.purge == PFinishing([], dormant)
      modifies this`at, cond
      ensures Valid() && Onward(old(at), at)
      ensures at == old(at).(purge := PWait,
                             cond := if dormant && old(at.waiting) > 0 then Broadcasted(old(at.cond)) else old(at.cond))
    {
      hide Reachable, LatchesAre, IdleQueue.Holds, Onward;
      ghost var s := at;
      var wake := dormant && waiting > 0;
      ByAService(PurgeMove, at.(purge := PurgeGoes(at.purge, at)));
      if wake {
        ghost var s1 := at;
        BroadcastDormant();
        OnwardOn(s, s1, at);
      }
    }

    method BroadcastDormant()
      requires Valid() && at.purge.PBroadcasting?
      modifies this`at, cond
      ensures Valid() && Onward(old(at), at)
      ensures at == old(at).(purge := PWait, cond := Broadcasted(old(at.cond)))
    {
      hide Reachable, LatchesAre, IdleQueue.Holds, Onward;
      var notify := cond.Broadcast();
      ByAService(PurgeBroadcast, at.(purge := PWait, cond := Broadcasted(at.cond)));
    }

    /** One round of the purge thread on an open pool. */
    method PurgeRound(now: int, duration: int) returns (stale: seq<Worker>, overflow: bool, ghost split: nat)
      requires Valid() && at.purge.PLocking? && at.lock == None
      modifies this`at, this`chan, cond, idle.Parts()
      ensures Valid() && Leads(old(at), at)
      ensures overflow ==> cfg.size > LARGEST_SAFE_SIZE && at == old(at).(purge := PRefreshing, lock := Some(ByPurge))
      ensures !overflow ==> Purged(old(at), at, now - duration, split, stale)
    {
      hide Reachable, LatchesAre, IdleQueue.Holds, KindOf, IdleQueue.Parts, Refreshes, Expired, Handed, Onward, Leads, Purged;
      ghost var s := at;
      ByAService(PurgeLock, at.(purge := PRefreshing, lock := Some(ByPurge)));
      ghost var s1 := at;
      stale, overflow, split := Refresh(now, duration);
      ghost var s2 := at;
      OnwardOn(s, s1, s2);
      if !overflow {
        FinishRound(stale, s2);
        OnwardOn(s, s2, at);
        RoundPurges(s, s1, s2, at, now - duration, split, stale);
      }
      OnwardIsLeads(s, at);
    }

    method FinishRound(stale: seq<Worker>, ghost s2: State)
      requires Valid() && at == s2 && at.purge == PCounting(stale)
      modifies this`at, this`chan, cond
      ensures Valid() && Onward(s2, at)
      ensures at == s2.(purge := PWait, lock := None, chan := AllFinished(s2.chan, stale),
                        cond := if Dormant(s2, stale) && s2.waiting > 0 then Broadcasted(s2.cond) else s2.cond)
    {
      hide Reachable, FieldsAre, LatchesAre, IdleQueue.Holds, Onward, AllFinished;
      var dormant := CountRunning(stale);
      ghost var s3 := at;
      FinishStale(stale, dormant);
      ghost var s4 := at;
      OnwardOn(s2, s3, s4);
      WakeDormant(dormant);
      OnwardOn(s2, s4, at);
    }

    /** The end of the purge thread on a closed pool: it finds itself cancelled or the pool closed. */
    method EndPurgeThread()
      requires Valid() && !at.open && at.purge.PWait?
      modifies this`at, this`purgeDone
      ensures Valid() && Leads(old(at), at) && at == old(at).(purge := PGone, purgeDone := true)
    {
      hide Reachable, FieldsAre, LatchesAre, IdleQueue.Holds, Onward, Leads;
      ghost var s := at;
      NoteLeaving();
      ghost var s1 := at;
      PurgeEnds();
      OnwardOn(s, s1, at);
      OnwardIsLeads(s, at);
    }

    ghost method NoteLeaving()
      requires Valid() && !at.open && at.purge.PWait?
      modifies this`at
      ensures Valid() && Onward(old(at), at) && at == old(at).(purge := PLeaving)
    {
      hide Reachable, LatchesAre, IdleQueue.Holds, Onward;
      ghost var s := at;
      if !at.purgeCancelled {
        ByAService(PurgeMove, at.(purge := PChecking));
      }
      ghost var s1 := at;
      OnwardNowhere(s);
      ByAService(PurgeMove, at.(purge := PLeaving));
      OnwardOn(s, s1, at);
    }

    /** The last action of the purge thread. */
    method PurgeEnds()
      requires Valid() && at.purge.PLeaving?
      modifies this`at, this`purgeDone
      ensures Valid() && Onward(old(at), at) && at == old(at).(purge := PGone, purgeDone := true)
    {
      hide Reachable, LatchesAre, IdleQueue.Holds, Onward;
      purgeDone := true;
      ByAService(PurgeLeave, at.(purge := PGone, purgeDone := true));
    }

    /** The end of the ticktock thread on a closed pool. */
    method EndTickThread()
      requires Valid() && !at.open && at.tick.TWait?
      modifies this`at, this`tickDone
      ensures Valid() && Leads(old(at), at) && at == old(at).(tick := TGone, tickDone := true)
    {
      hide Reachable, FieldsAre, LatchesAre, IdleQueue.Holds, Onward, Leads;
      ghost var s := at;
      NoteTickLeaving();
      ghost var s1 := at;
      TickEnds();
      OnwardOn(s, s1, at);
      OnwardIsLeads(s, at);
    }

    ghost method NoteTickLeaving()
      requires Valid() && !at.open && at.tick.TWait?
      modifies this`at
      ensures Valid() && Onward(old(at), at) && at == old(at).(tick := TLeaving)
    {
      hide Reachable, LatchesAre, IdleQueue.Holds, Onward;
      ByAService(TickMove, at.(tick := TLeaving));
    }

    /** The last action of the ticktock thread. */
    method TickEnds()
      requires Valid() && at.tick.TLeaving?
      modifies this`at, this`tickDone
      ensures Valid() && Onward(old(at), at) && at == old(at).(tick := TGone, tickDone := true)
    {
      hide Reachable, LatchesAre, IdleQueue.Holds, Onward;
      tickDone := true;
      ByAService(TickLeave, at.(tick := TGone, tickDone := true));
    }

    // ----- release -------------------------------------------------------------------------------

    /** The compare-and-swap at the head of `release`. */
    method Close() returns (ok: bool)
      requires Valid() && (at.admin.AIdle? || !at.open)
      modifies this`at, this`open
      ensures Valid() && Onward(old(at), at) && ok == old(at.open)
      ensures at == if ok then old(at).(admin := AStopPurge, open := false) else old(at)
    {
      hide Reachable, LatchesAre, IdleQueue.Holds, Onward;
      ok := open;
      if open {
        open := false;
        ByTheAdmin(Event.Close, at.(admin := AStopPurge, open := false));
      } else {
        OnwardNowhere(at);
      }
    }

    method StopServices()
      requires Valid() && at.admin.AStopPurge?
      modifies this`at, this`purgeCancelled, this`tickCancelled
      ensures Valid() && Onward(old(at), at)
      ensures at == old(at).(admin := AResetLock, purgeCancelled := true, tickCancelled := true)
    {
      hide Reachable, FieldsAre, LatchesAre, IdleQueue.Holds, Onward;
      ghost var s := at;
      StopPurge();
      ghost var s1 := at;
      StopTick();
      OnwardOn(s, s1, at);
    }

    method StopPurge()
      requires Valid() && at.admin.AStopPurge?
      modifies this`at, this`purgeCancelled
      ensures Valid() && Onward(old(at), at) && at == old(at).(admin := AStopTick, purgeCancelled := true)
    {
      hide Reachable, LatchesAre, IdleQueue.Holds, Onward;
      purgeCancelled := true;
      ByTheAdmin(CancelPurge, at.(admin := AStopTick, purgeCancelled := true));
    }

    method StopTick()
      requires Valid() && at.admin.AStopTick?
      modifies this`at, this`tickCancelled
      ensures Valid() && Onward(old(at), at) && at == old(at).(admin := AResetLock, tickCancelled := true)
    {
      hide Reachable, LatchesAre, IdleQueue.Holds, Onward;
      tickCancelled := true;
      ByTheAdmin(CancelTick, at.(admin := AResetLock, tickCancelled := true));
    }

    /** The critical section of `release`: several events of the machine, one for each idle worker. */
    method Reset() returns (finished: seq<Worker>)
      requires Valid() && at.admin.AResetting?
      modifies this`at, this`chan, idle.Parts()
      ensures Valid() && Onward(old(at), at) && finished == old(at.queue)
      ensures at == old(at).(queue := [], chan := AllFinished(old(at.chan), finished))
    {
      hide Reachable, FieldsAre, LatchesAre, IdleQueue.Holds, Onward, AllFinished;
      finished := idle.Reset(at.queue);
      assert Wired();
      FinishAll(finished);
      NoteReset();
    }

    method FinishAll(q: seq<Worker>)
      requires FieldsAre(at)
      modifies this`chan
      ensures FieldsAre(at.(chan := AllFinished(at.chan, q)))
    {
      for i := 0 to |q|
        invariant AllFinished(chan, q[i..]) == AllFinished(at.chan, q)
        invariant FieldsAre(at.(chan := chan))
      {
        assert q[i..][0] == q[i] && q[i..][1..] == q[i + 1..];
        chan := Sent(chan, q[i].id, Finish);
      }
    }

    ghost method NoteReset()
      requires at.admin.AResetting? && Reachable(at) && LatchesAre(at.latch, at.closed) && Wired() && idle.Holds([])
      requires FieldsAre(at.(chan := AllFinished(at.chan, at.queue)))
      modifies this`at
      ensures Valid() && Onward(old(at), at)
      ensures at == old(at).(queue := [], chan := AllFinished(old(at.chan), old(at.queue)))
    {
      hide Reachable, LatchesAre, IdleQueue.Holds, Onward, AllFinished, Inv;
      ReachableInv(at);
      var states, events := ResetIsARun(at);
      RunIsOnward(states, events, |events|);
      at := states[|events|];
    }

    /** `release` until it returns. */
    method Release() returns (ok: bool, finished: seq<Worker>)
      requires Valid() && at.lock == None && (at.admin.AIdle? || !at.open)
      modifies this, cond, allDone, idle.Parts()
      ensures Valid() && Leads(old(at), at) && ok == old(at.open) && latches == old(latches)
      ensures if ok then ReleasedFrom(old(at), at, finished) else at == old(at)
    {
      hide Reachable, FieldsAre, LatchesAre, IdleQueue.Holds, IdleQueue.Parts, Onward, Leads, AllFinished;
      ghost var s := at;
      finished := [];
      ok := Close();
      if ok {
        ghost var s1 := at;
        StopServices();
        ghost var s2 := at;
        OnwardOn(s, s1, s2);
        finished := EmptyQueue();
        ghost var s3 := at;
        OnwardOn(s, s2, s3);
        LetEverybodyGo();
        OnwardOn(s, s3, at);
      }
      OnwardIsLeads(s, at);
    }

    method EmptyQueue() returns (finished: seq<Worker>)
      requires Valid() && at.admin.AResetLock? && at.lock == None
      modifies this`at, this`chan, idle.Parts()
      ensures Valid() && Onward(old(at), at) && finished == old(at.queue)
      ensures at == old(at).(admin := AWaking, queue := [], chan := AllFinished(old(at.chan), finished))
    {
      hide Reachable, FieldsAre, LatchesAre, IdleQueue.Holds, Onward, AllFinished;
      ghost var s := at;
      LockForReset();
      ghost var s1 := at;
      finished := Reset();
      ghost var s2 := at;
      OnwardOn(s, s1, s2);
      UnlockAfterReset();
      OnwardOn(s, s2, at);
    }

    ghost method LockForReset()
      requires Valid() && at.admin.AResetLock? && at.lock == None
      modifies this`at
      ensures Valid() && Onward(old(at), at) && at == old(at).(admin := AResetting, lock := Some(ByAdmin))
    {
      hide Reachable, LatchesAre, IdleQueue.Holds, Onward;
      ByTheAdmin(ResetLock, at.(admin := AResetting, lock := Some(ByAdmin)));
    }

    ghost method UnlockAfterReset()
      requires Valid() && at.admin.AResetting? && at.queue == []
      modifies this`at
      ensures Valid() && Onward(old(at), at) && at == old(at).(admin := AWaking, lock := None)
    {
      hide Reachable, LatchesAre, IdleQueue.Holds, Onward;
      ByTheAdmin(ResetEnd, at.(admin := AWaking, lock := None));
    }

    method LetEverybodyGo()
      requires Valid() && at.admin.AWaking?
      modifies this`at, cond, allDone
      ensures Valid() && Onward(old(at), at)
      ensures at == old(at).(admin := AReleased, cond := Broadcasted(old(at.cond)),
                             closed := if old(at.running) == 0 then old(at.closed) + {old(at.latch)} else old(at.closed))
    {
      hide Reachable, FieldsAre, LatchesAre, IdleQueue.Holds, Onward;
      ghost var s := at;
      BroadcastRelease();
      ghost var s1 := at;
      var zero := TestZero();
      ghost var s2 := at;
      OnwardOn(s, s1, s2);
      if zero {
        CloseCurrentLatch();
        OnwardOn(s, s2, at);
      }
    }

    method BroadcastRelease()
      requires Valid() && at.admin.AWaking?
      modifies this`at, cond
      ensures Valid() && Onward(old(at), at) && at == old(at).(admin := AZero, cond := Broadcasted(old(at.cond)))
    {
      hide Reachable, LatchesAre, IdleQueue.Holds, Onward;
      var notify := cond.Broadcast();
      ByTheAdmin(ReleaseBroadcast, at.(admin := AZero, cond := Broadcasted(at.cond)));
    }

    method TestZero() returns (zero: bool)
      requires Valid() && at.admin.AZero?
      modifies this`at
      ensures Valid() && Onward(old(at), at) && zero == (old(at.running) == 0)
      ensures at == old(at).(admin := if zero then AClosing else AReleased)
    {
      hide Reachable, LatchesAre, IdleQueue.Holds, Onward;
      zero := running == 0;
      ByTheAdmin(AdminMove(true), at.(admin := if zero then AClosing else AReleased));
    }

    /** `release` found no worker running. */
    method CloseCurrentLatch()
      requires Valid() && at.admin.AClosing?
      modifies this`at, allDone
      ensures Valid() && Onward(old(at), at)
      ensures at == old(at).(admin := AReleased, closed := old(at.closed) + {old(at.latch)})
    {
      hide Reachable, IdleQueue.Holds, Onward;
      allDone.Close();
      ByTheAdmin(ReleaseLatch, at.(admin := AReleased, closed := at.closed + {at.latch}));
    }

    // ----- reboot --------------------------------------------------------------------------------

    /** `reboot` on a pool for whose latch and service threads it need not wait any more. */
    method Reboot()
      requires Valid() && at.admin.AReleased? && at.latch in at.closed && (at.cfg.disablePurge || at.purgeDone) && at.tickDone
      modifies this
      ensures Valid() && Leads(old(at), at) && RebootedFrom(old(at), at)
      ensures fresh(allDone) && !allDone.closed && latches == old(latches) + [allDone]
    {
      hide Reachable, FieldsAre, LatchesAre, IdleQueue.Holds, Onward, Leads;
      ghost var s := at;
      PassWaits();
      ghost var s1 := at;
      Reopen();
      ghost var s2 := at;
      OnwardOn(s, s1, s2);
      StartServices();
      ghost var s3 := at;
      OnwardOn(s, s2, s3);
      RenewLatch();
      OnwardOn(s, s3, at);
      OnwardIsLeads(s, at);
    }

    ghost method AdminReading(next: Admin)
      requires Valid() && AdminReads(at, true) && next == AdminGoes(at, true)
      modifies this`at
      ensures Valid() && Onward(old(at), at) && at == old(at).(admin := next)
    {
      hide Reachable, LatchesAre, IdleQueue.Holds, Onward;
      ByTheAdmin(AdminMove(true), at.(admin := next));
    }

    ghost method PassWaits()
      requires Valid() && at.admin.AReleased? && at.latch in at.closed && (at.cfg.disablePurge || at.purgeDone) && at.tickDone
      modifies this`at
      ensures Valid() && Onward(old(at), at) && at == old(at).(admin := AReopen)
    {
      hide Reachable, FieldsAre, LatchesAre, IdleQueue.Holds, Onward;
      ghost var s := at;
      AdminReading(AWaitLatch);
      ghost var s1 := at;
      PassThreads();
      OnwardOn(s, s1, at);
    }

    ghost method PassThreads()
      requires Valid() && at.admin.AWaitLatch? && at.latch in at.closed && (at.cfg.disablePurge || at.purgeDone) && at.tickDone
      modifies this`at
      ensures Valid() && Onward(old(at), at) && at == old(at).(admin := AReopen)
    {
      hide Reachable, FieldsAre, LatchesAre, IdleQueue.Holds, Onward;
      ghost var s := at;
      AdminReading(AWaitPurge);
      ghost var s1 := at;
      AdminReading(AWaitTick);
      ghost var s2 := at;
      OnwardOn(s, s1, s2);
      AdminReading(AReopen);
      OnwardOn(s, s2, at);
    }

    /** The compare-and-swap of `reboot`. */
    method Reopen()
      requires Valid() && at.admin.AReopen?
      modifies this`at, this`open
      ensures Valid() && Onward(old(at), at) && at == old(at).(admin := APurgeFlag, open := true)
    {
      hide Reachable, LatchesAre, IdleQueue.Holds, Onward;
      open := true;
      ByTheAdmin(Event.Reopen, at.(admin := APurgeFlag, open := true));
    }

    method StartServices()
      requires Valid() && at.admin.APurgeFlag?
      modifies this`at, this`purgeDone, this`tickDone, this`purgeCancelled, this`tickCancelled
      ensures Valid() && Onward(old(at), at)
      ensures at == old(at).(admin := ANewLatch, purgeDone := false, tickDone := false, tickCancelled := false, tick := TWait,
                             purgeCancelled := if old(at.cfg).disablePurge then old(at.purgeCancelled) else false,
                             purge := if old(at.cfg).disablePurge then old(at.purge) else PWait)
    {
      hide Reachable, FieldsAre, LatchesAre, IdleQueue.Holds, Onward;
      ghost var s := at;
      StartPurgeThread();
      ghost var s1 := at;
      StartTickThread();
      OnwardOn(s, s1, at);
    }

    method StartPurgeThread()
      requires Valid() && at.admin.APurgeFlag?
      modifies this`at, this`purgeDone, this`purgeCancelled
      ensures Valid() && Onward(old(at), at)
      ensures at == old(at).(admin := ATickFlag, purgeDone := false,
                             purgeCancelled := if old(at.cfg).disablePurge then old(at.purgeCancelled) else false,
                             purge := if old(at.cfg).disablePurge then old(at.purge) else PWait)
    {
      hide Reachable, FieldsAre, LatchesAre, IdleQueue.Holds, Onward;
      ghost var s := at;
      ClearPurgeDone();
      ghost var s1 := at;
      GoPurge();
      OnwardOn(s, s1, at);
    }

    method ClearPurgeDone()
      requires Valid() && at.admin.APurgeFlag?
      modifies this`at, this`purgeDone
      ensures Valid() && Onward(old(at), at) && at == old(at).(admin := AGoPurge, purgeDone := false)
    {
      hide Reachable, LatchesAre, IdleQueue.Holds, Onward;
      purgeDone := false;
      ByTheAdmin(ClearPurgeFlag, at.(admin := AGoPurge, purgeDone := false));
    }

    method GoPurge()
      requires Valid() && at.admin.AGoPurge?
      modifies this`at, this`purgeCancelled
      ensures Valid() && Onward(old(at), at)
      ensures at == old(at).(admin := ATickFlag,
                             purgeCancelled := if old(at.cfg).disablePurge then old(at.purgeCancelled) else false,
                             purge := if old(at.cfg).disablePurge then old(at.purge) else PWait)
    {
      hide Reachable, LatchesAre, IdleQueue.Holds, Onward;
      if !cfg.disablePurge {
        purgeCancelled := false;
      }
      ByTheAdmin(StartPurge, at.(admin := ATickFlag,
        purgeCancelled := if at.cfg.disablePurge then at.purgeCancelled else false,
        purge := if at.cfg.disablePurge then at.purge else PWait));
    }

    method StartTickThread()
      requires Valid() && at.admin.ATickFlag?
      modifies this`at, this`tickDone, this`tickCancelled
      ensures Valid() && Onward(old(at), at)
      ensures at == old(at).(admin := ANewLatch, tickDone := false, tickCancelled := false, tick := TWait)
    {
      hide Reachable, FieldsAre, LatchesAre, IdleQueue.Holds, Onward;
      ghost var s := at;
      ClearTickDone();
      ghost var s1 := at;
      GoTicktock();
      OnwardOn(s, s1, at);
    }

    method ClearTickDone()
      requires Valid() && at.admin.ATickFlag?
      modifies this`at, this`tickDone
      ensures Valid() && Onward(old(at), at) && at == old(at).(admin := AGoTick, tickDone := false)
    {
      hide Reachable, LatchesAre, IdleQueue.Holds, Onward;
      tickDone := false;
      ByTheAdmin(ClearTickFlag, at.(admin := AGoTick, tickDone := false));
    }

    method GoTicktock()
      requires Valid() && at.admin.AGoTick?
      modifies this`at, this`tickCancelled
      ensures Valid() && Onward(old(at), at) && at == old(at).(admin := ANewLatch, tickCancelled := false, tick := TWait)
    {
      hide Reachable, LatchesAre, IdleQueue.Holds, Onward;
      tickCancelled := false;
      ByTheAdmin(StartTick, at.(admin := ANewLatch, tickCancelled := false, tick := TWait));
    }

    /** The last action of `reboot`; no latch of a higher number can have been closed. */
    method RenewLatch()
      requires Valid() && at.admin.ANewLatch?
      modifies this`at, this`allDone, this`latches
      ensures Valid() && Onward(old(at), at) && at == old(at).(admin := AIdle, latch := old(at.latch) + 1)
      ensures fresh(allDone) && !allDone.closed && latches == old(latches) + [allDone]
    {
      hide Reachable, LatchesAre, IdleQueue.Holds, Onward;
      NewLatch();
      ByTheAdmin(Event.RenewLatch, at.(admin := AIdle, latch := at.latch + 1));
    }

    method NewLatch()
      requires LatchesAre(at.latch, at.closed) && Reachable(at) && Wired()
      modifies this`allDone, this`latches
      ensures LatchesAre(at.latch + 1, at.closed) && Wired()
      ensures fresh(allDone) && !allDone.closed && latches == old(latches) + [allDone]
    {
      hide Reachable;
      ClosedLatchesAreOld(at);
      allDone := new Latch();
      latches := latches + [allDone];
    }

    // ----- tune ----------------------------------------------------------------------------------

    /** The store of `tune`. */
    method StoreCapacity(ghost t: nat, size: int, was: int)
      requires Valid() && t in at.tuners && at.tuners[t] == Storing(size, was)
      modifies this`at, this`capacity
      ensures Valid() && Onward(old(at), at)
      ensures at == old(at).(tuners := at.tuners, capacity := size, peak := Larger(size, old(at.peak)))
      ensures at.tuners == old(at.tuners)[t := WakesFor(size, was)]
    {
      hide Reachable, LatchesAre, IdleQueue.Holds, WakesFor, Larger, Onward;
      capacity := size;
      ByATuner(Event.StoreCapacity(t),
        at.(tuners := at.tuners[t := WakesFor(size, was)], capacity := size, peak := Larger(size, at.peak)));
    }

    method SignalTuned(ghost t: nat, ghost wake: Option<CallerId>)
      requires Valid() && t in at.tuners && at.tuners[t].TuneSignal? && MayNotify(at.cond, at.callers, wake)
      modifies this`at, cond
      ensures Valid() && Onward(old(at), at) && at.tuners == old(at.tuners)[t := Tuned]
      ensures at == old(at).(tuners := at.tuners, cond := Signalled(old(at.cond)),
                             callers := Notified(old(at.cond), old(at.callers), wake))
    {
      hide Reachable, LatchesAre, IdleQueue.Holds, MayNotify, Notified, Onward;
      var notify := cond.Signal();
      ByATuner(TuneSignalEvent(t, wake),
        at.(tuners := at.tuners[t := Tuned], cond := Signalled(at.cond), callers := Notified(at.cond, at.callers, wake)));
    }

    method BroadcastTuned(ghost t: nat)
      requires Valid() && t in at.tuners && at.tuners[t].TuneBcast?
      modifies this`at, cond
      ensures Valid() && Onward(old(at), at) && at.tuners == old(at.tuners)[t := Tuned]
      ensures at == old(at).(tuners := at.tuners, cond := Broadcasted(old(at.cond)))
    {
      hide Reachable, LatchesAre, IdleQueue.Holds, Onward;
      var notify := cond.Broadcast();
      ByATuner(TuneBroadcast(t), at.(tuners := at.tuners[t := Tuned], cond := Broadcasted(at.cond)));
    }

    ghost method NoteTuning(t: nat, size: int)
      requires Valid() && t !in at.tuners
      modifies this`at
      ensures Valid() && Onward(old(at), at) && at == old(at).(tuners := at.tuners)
      ensures at.tuners == old(at.tuners)[t := if TakesEffect(old(at), size) then Storing(size, old(at.capacity)) else Tuned]
    {
      hide Reachable, FieldsAre, LatchesAre, IdleQueue.Holds, Onward;
      ghost var s := at;
      NoteCall(t, size);
      ghost var s1 := at;
      NoteRead(t, size);
      OnwardOn(s, s1, at);
    }

    ghost method NoteCall(t: nat, size: int)
      requires Valid() && t !in at.tuners
      modifies this`at
      ensures Valid() && Onward(old(at), at) && at == old(at).(tuners := at.tuners)
      ensures at.tuners == old(at.tuners)[t := Tuning(size)]
    {
      hide Reachable, LatchesAre, IdleQueue.Holds, Onward;
      ByATuner(CallTune(t, size), at.(tuners := at.tuners[t := Tuning(size)]));
    }

    ghost method NoteRead(t: nat, size: int)
      requires Valid() && t in at.tuners && at.tuners[t] == Tuning(size)
      modifies this`at
      ensures Valid() && Onward(old(at), at) && at == old(at).(tuners := at.tuners)
      ensures at.tuners == old(at.tuners)[t := if TakesEffect(old(at), size) then Storing(size, old(at.capacity)) else Tuned]
    {
      hide Reachable, LatchesAre, IdleQueue.Holds, Onward;
      ByATuner(Event.ReadCapacity(t),
        at.(tuners := at.tuners[t := if TakesEffect(at, size) then Storing(size, at.capacity) else Tuned]));
    }

    method Tune(ghost t: nat, size: int) returns (ghost wake: Option<CallerId>)
      requires Valid() && t !in at.tuners
      modifies this`at, this`capacity, cond
      ensures Valid() && Leads(old(at), at) && TunedTo(old(at), at, t, size, wake)
    {
      hide Reachable, FieldsAre, LatchesAre, IdleQueue.Holds, Onward, Leads, TunedTo, MayNotify, TakesEffect;
      ghost var s := at;
      wake := None;
      var was := capacity;
      var effect := Effective(size);
      NoteTuning(t, size);
      ghost var s1 := at;
      if effect {
        wake := StoreAndWake(t, size, was, s);
      } else {
        NoEffectTunes(s, at, t, size);
      }
      OnwardIsLeads(s, at);
    }

    method Effective(size: int) returns (yes: bool)
      requires Valid()
      ensures yes == TakesEffect(at, size) && capacity == at.capacity
    {
      hide Reachable, LatchesAre, IdleQueue.Holds;
      yes := !(capacity == -1 || size <= 0 || size == capacity || cfg.preAlloc);
    }

    method StoreAndWake(ghost t: nat, size: int, was: int, ghost s: State) returns (ghost wake: Option<CallerId>)
      requires Valid() && Onward(s, at) && TakesEffect(s, size) && was == s.capacity
      requires at == s.(tuners := at.tuners) && at.tuners == s.tuners[t := Storing(size, was)]
      modifies this`at, this`capacity, cond
      ensures Valid() && Onward(s, at) && TunedTo(s, at, t, size, wake)
    {
      hide Reachable, FieldsAre, LatchesAre, IdleQueue.Holds, Onward, MayNotify, TunedTo, WakesFor;
      ghost var s1 := at;
      wake := None;
      StoreCapacity(t, size, was);
      ghost var s2 := at;
      OnwardOn(s, s1, s2);
      WakesTell(size, was);
      if size > was && size - was == 1 {
        wake := SomebodyToNotify(at);
        SignalTuned(t, wake);
        OnwardOn(s, s2, at);
        SignalTunes(s, s1, s2, at, t, size, wake);
      } else if size > was {
        BroadcastTuned(t);
        OnwardOn(s, s2, at);
        BroadcastTunes(s, s1, s2, at, t, size);
      } else {
        ShrinkTunes(s, s1, s2, t, size);
      }
    }
  }

  /** From its creation on the object can be driven: a new pool takes a task, starts a worker for it,
      and has the worker idle again, stamped, when the task is over. */
  method RunOneTask(size: nat, now: int) returns (p: PoolCore)
    requires size > 0
    ensures fresh(p) && p.Valid() && p.at.running == 1 && p.at.queue == [Worker(0, now)]
    ensures p.at.callers == map[0 := Accepted(0)] && p.at.threads == map[0 := Recv] && p.at.finished == multiset{0}
  {
    hide Reachable, PoolCore.FieldsAre, PoolCore.LatchesAre, IdleQueue.Holds, Onward, Leads, Receives;
    p := ServeFirst(size);
    ghost var s := p.at;
    var m := p.Receive(0);
    FirstIsReceived(s, p.at);
    CompleteFirst(p);
    var kept, wake := p.RevertWorker(0, now);
  }

  method ServeFirst(size: nat) returns (p: PoolCore)
    requires size > 0
    ensures fresh(p) && fresh(p.cond) && fresh(p.idle.Parts()) && p.Valid() && Serving(p.at, size)
  {
    hide Reachable, PoolCore.FieldsAre, PoolCore.LatchesAre, IdleQueue.Holds, Onward, Leads, Submitted, Serving;
    p := new PoolCore(Config(size, false, false, 0, false));
    ghost var s := p.at;
    SubmitFirst(p);
    var r, mid := p.TrySubmit(0);
    FirstIsServed(s, mid, p.at, r);
  }

  /** A pool of this size with one worker, which has the first task in its channel. */
  ghost predicate Serving(s: State, size: nat) {
    && s.callers == map[0 := Accepted(0)] && s.threads == map[0 := Recv] && s.running == 1 && s.capacity == size > 0
    && s.chan == map[0 := [Payload(0)]] && s.lock == None && s.queue == [] && s.open && s.stops == {}
    && s.cond == NO_WAITERS && s.finished == multiset{} && !s.cfg.preAlloc
  }

  lemma FirstIsReceived(s: State, s': State)
    requires s.threads == map[0 := Recv] && s.chan == map[0 := [Payload(0)]] && Receives(s, s', 0)
    ensures s'.threads == map[0 := Run(0)] && s' == s.(threads := s'.threads, chan := s'.chan)
  {
  }

  ghost method SubmitFirst(p: PoolCore)
    requires p.Valid() && p.at.callers == map[]
    modifies p`at
    ensures p.Valid() && p.at == old(p.at).(callers := map[0 := Start])
  {
    hide Reachable, PoolCore.LatchesAre, IdleQueue.Holds, Onward;
    p.ByACaller(Submit(0, false), p.at.(callers := map[0 := Start]));
  }

  lemma FirstIsServed(s: State, mid: State, s': State, r: Retrieval)
    requires s == Initial(s.cfg) && s.cfg.size > 0 && !s.cfg.preAlloc
    requires Submitted(s.(callers := map[0 := Start]), mid, s', 0, r)
    ensures r == Got(0) && Serving(s', s.cfg.size)
  {
    assert [] + [Payload(0)] == [Payload(0)];
  }

  ghost method CompleteFirst(p: PoolCore)
    requires p.Valid() && 0 in p.at.threads && p.at.threads[0] == Run(0) && 0 !in p.at.stops && p.at.finished == multiset{}
    modifies p`at
    ensures p.Valid() && p.at == old(p.at).(threads := p.at.threads, finished := multiset{0})
    ensures p.at.threads == old(p.at.threads)[0 := RevCap]
  {
    hide Reachable, PoolCore.LatchesAre, IdleQueue.Holds, Onward;
    p.ByAWorker(Complete(0, false), p.at.(threads := p.at.threads[0 := RevCap], finished := multiset{0}));
  }

  /** And through a whole epoch: a new pool is released, its service threads end, and `reboot` puts it
      back into service with a fresh latch. */
  method ReleaseAndReboot(size: nat) returns (p: PoolCore)
    requires size > 0
    ensures fresh(p) && p.Valid() && p.at.open && p.at.admin.AIdle? && p.at.running == 0 && p.at.queue == []
    ensures p.at.latch == 1 && p.at.closed == {0} && |p.latches| == 2 && p.latches[0].closed && !p.latches[1].closed
    ensures p.at.purge.PWait? && p.at.tick.TWait? && !p.at.purgeDone && !p.at.tickDone
  {
    hide Reachable, PoolCore.FieldsAre, IdleQueue.Holds, Onward, Leads;
    p := new PoolCore(Config(size, false, false, 0, false));
    ghost var s := p.at;
    var ok, finished := p.Release();
    NothingToFinish(s, p.at, finished);
    p.EndPurgeThread();
    p.EndTickThread();
    p.Reboot();
  }

  lemma NothingToFinish(s: State, s': State, finished: seq<Worker>)
    requires s == Initial(s.cfg) && !s.cfg.disablePurge && ReleasedFrom(s, s', finished)
    ensures s' == s.(admin := AReleased, open := false, purgeCancelled := true, tickCancelled := true, closed := {0})
  {
  }
}
