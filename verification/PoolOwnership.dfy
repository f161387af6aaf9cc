/** Who is in charge of which worker, in every reachable state. */
module PoolOwnership {
  import opened WorkerQueue
  import opened Sums
  import opened PoolModel
  import opened PoolInvariant
  import opened PoolRuns

  ghost predicate Listed(q: seq<Worker>, w: WorkerId) {
    exists i :: 0 <= i < |q| && q[i].id == w
  }

  ghost predicate IsHeld(s: State, w: WorkerId) {
    exists c :: c in s.callers && s.callers[c] == Holding(w)
  }

  function One(b: bool): nat {
    if b then 1 else 0
  }

  /** No worker is listed twice. */
  ghost predicate Distinct(q: seq<Worker>) {
    forall i, j :: 0 <= i < j < |q| ==> q[i].id != q[j].id
  }

  lemma ListedOnce(q: seq<Worker>, w: WorkerId)
    requires Occurs(q, w) <= 1
    ensures Occurs(q, w) == One(Listed(q, w))
  {
    if Listed(q, w) {
      var i :| 0 <= i < |q| && q[i].id == w;
      OccursAt(q, i);
    }
  }

  lemma HeldOnce(s: State, w: WorkerId)
    requires Sum(s.callers, HoldsWeight(w)) <= 1
    ensures Sum(s.callers, HoldsWeight(w)) == One(IsHeld(s, w))
  {
    if IsHeld(s, w) {
      var c :| c in s.callers && s.callers[c] == Holding(w);
      SumAtLeast(s.callers, c, HoldsWeight(w));
    } else if Sum(s.callers, HoldsWeight(w)) > 0 {
      var c := SumPositive(s.callers, HoldsWeight(w));
    }
  }

  /** A worker thread that waits for a message is in exactly one place: the idle queue, the hands of
      a caller, its own channel (with a message waiting), or the purge thread's list.  A worker that
      does anything else, or has no thread, is in none of them. */
  lemma EveryWorkerHasOnePlace(s: State, w: WorkerId)
    requires Reachable(s)
    ensures One(Listed(s.queue, w)) + One(IsHeld(s, w)) + One(Mail(s.chan, w) > 0) + One(Listed(Stale(s.purge), w))
         == One(AtReceive(s.threads, w))
  {
    hide Reachable;
    ReachableInv(s);
    OnePlace(s, w);
  }

  lemma OnePlace(s: State, w: WorkerId)
    requires CustodyInv(s.queue, s.callers, s.chan, s.purge, s.threads)
    ensures One(Listed(s.queue, w)) + One(IsHeld(s, w)) + One(Mail(s.chan, w) > 0) + One(Listed(Stale(s.purge), w))
         == One(AtReceive(s.threads, w))
    ensures Occurs(s.queue, w) <= 1 && Occurs(Stale(s.purge), w) <= 1 && Mail(s.chan, w) <= 1
    ensures Sum(s.callers, HoldsWeight(w)) <= 1
  {
    assert Custody(s.queue, s.callers, s.chan, s.purge, w) <= 1;
    ListedOnce(s.queue, w);
    ListedOnce(Stale(s.purge), w);
    HeldOnce(s, w);
  }

  lemma ListedDistinct(q: seq<Worker>)
    requires forall w: nat :: Occurs(q, w) <= 1
    ensures Distinct(q)
  {
    forall i, j | 0 <= i < j < |q| ensures q[i].id != q[j].id {
      if q[i].id == q[j].id {
        OccursTwice(q, i, j);
      }
    }
  }

  /** No worker is idle twice, purged twice, held by two callers, or has two messages. */
  lemma NothingIsShared(s: State)
    requires Reachable(s)
    ensures Distinct(s.queue) && Distinct(Stale(s.purge))
    ensures forall c, d :: c in s.callers && d in s.callers && s.callers[c].Holding? && s.callers[c] == s.callers[d] ==> c == d
    ensures forall w :: w in s.chan ==> |s.chan[w]| <= 1
  {
    hide Reachable;
    ReachableInv(s);
    forall w: nat
      ensures Occurs(s.queue, w) <= 1 && Occurs(Stale(s.purge), w) <= 1 && Mail(s.chan, w) <= 1
    {
      OnePlace(s, w);
    }
    ListedDistinct(s.queue);
    ListedDistinct(Stale(s.purge));
    forall w | w in s.chan ensures |s.chan[w]| <= 1 {
      assert Mail(s.chan, w) <= 1;
    }
    forall c, d | c in s.callers && d in s.callers && s.callers[c].Holding? && s.callers[c] == s.callers[d]
      ensures c == d
    {
      OnePlace(s, s.callers[c].w);
      SumUnique(s.callers, c, d, HoldsWeight(s.callers[c].w));
    }
  }

  predicate CountedWaiting(p: Caller) {
    p.Queuing? || p.Parked? || p.Woken? || p.Relocked?
  }

  predicate IsParked(p: Caller) {
    p.Parked?
  }

  function IsAwake(generation: nat): Caller -> bool {
    (p: Caller) => p.Parked? && !Asleep(p, generation)
  }

  predicate IsWoken(p: Caller) {
    p.Woken?
  }

  /** `running` is the number of live workers ... */
  lemma RunningCounts(s: State)
    requires Reachable(s)
    ensures s.running == |Where(s.threads, Live)|
  {
    hide Reachable;
    ReachableInv(s);
    SumCounts(s.threads, LiveWeight, Live);
  }

  /** ... `waiting` the number of callers between their admission and their return from the wait ... */
  lemma WaitingCounts(s: State)
    requires Reachable(s)
    ensures s.waiting == |Where(s.callers, CountedWaiting)|
  {
    hide Reachable;
    ReachableInv(s);
    SumCounts(s.callers, WaitingWeight, CountedWaiting);
  }

  /** ... `parked` the number of callers inside `Cond::wait`; and every token is covered by a parked
      caller that is awake. */
  lemma ParkedCounts(s: State)
    requires Reachable(s)
    ensures s.cond.tokens <= |Where(s.callers, IsAwake(s.cond.generation))| <= s.cond.parked == |Where(s.callers, IsParked)|
  {
    hide Reachable, LockInv, LiveInv, WaitInv, LimitInv, CustodyInv, RegistryInv, CapacityInv, TaskInv, WakeInv, ResetInv, PurgeInv, TickInv, LatchInv;
    ReachableInv(s);
    var g := s.cond.generation;
    SumCounts(s.callers, ParkedWeight, IsParked);
    SumCounts(s.callers, AwakeWeight(g), IsAwake(g));
    SumCompare(s.callers, AwakeWeight(g), ParkedWeight);
  }

  /** The cache holds GoWorkers without a thread, each once; nobody is in charge of one and its
      channel is empty, so the worker that reuses it cannot receive a stale message. */
  lemma CachedWorkersAreClean(s: State, i: nat)
    requires Reachable(s) && i < |s.cache|
    ensures var w := s.cache[i];
      && w !in s.threads && w < s.made
      && Mail(s.chan, w) == 0 && !Listed(s.queue, w) && !IsHeld(s, w) && !Listed(Stale(s.purge), w)
      && forall j :: 0 <= j < |s.cache| && s.cache[j] == w ==> j == i
  {
    hide Reachable;
    ReachableInv(s);
    var w := s.cache[i];
    assert Cached(s.cache, w) >= 1;
    OnePlace(s, w);
    forall j | 0 <= j < |s.cache| && s.cache[j] == w ensures j == i {
      if j < i {
        TwiceInSeq(s.cache, j, i);
      } else if i < j {
        TwiceInSeq(s.cache, i, j);
      }
    }
  }

  lemma TwiceInSeq(q: seq<WorkerId>, i: nat, j: nat)
    requires i < j < |q| && q[i] == q[j]
    ensures multiset(q)[q[i]] >= 2
  {
    assert q == q[..j] + q[j..];
    assert q[..j][i] in q[..j] && q[j..][0] in q[j..];
  }

  /** The same holds of a GoWorker that a caller has just fetched for a new thread. */
  lemma FetchedWorkersAreClean(s: State, c: CallerId)
    requires Reachable(s) && c in s.callers && s.callers[c].Fetched?
    ensures s.callers[c].w !in s.threads && Mail(s.chan, s.callers[c].w) == 0
  {
    hide Reachable;
    ReachableInv(s);
    var w := s.callers[c].w;
    SumAtLeast(s.callers, c, FetchedWeight(w));
    assert w !in s.threads;
    OnePlace(s, s.callers[c].w);
  }

  /** Whoever is about to send to a worker finds the one slot of its channel free: a caller with its
      task, the purge thread and `release` with the order to finish. */
  lemma SendsNeverBlock(s: State)
    requires Reachable(s)
    ensures forall c :: c in s.callers && s.callers[c].Holding? ==> CanSend(s.chan, s.callers[c].w)
    ensures s.purge.PFinishing? && s.purge.stale != [] ==> CanSend(s.chan, s.purge.stale[0].id)
    ensures s.admin.AResetting? && s.queue != [] ==> CanSend(s.chan, s.queue[0].id)
  {
    hide Reachable;
    ReachableInv(s);
    forall c | c in s.callers && s.callers[c].Holding? ensures CanSend(s.chan, s.callers[c].w) {
      OnePlace(s, s.callers[c].w);
      assert IsHeld(s, s.callers[c].w);
    }
    if s.purge.PFinishing? && s.purge.stale != [] {
      OnePlace(s, s.purge.stale[0].id);
      assert Listed(Stale(s.purge), s.purge.stale[0].id);
    }
    if s.queue != [] {
      OnePlace(s, s.queue[0].id);
      assert Listed(s.queue, s.queue[0].id);
    }
  }

  function Ids(q: seq<Worker>): seq<WorkerId> {
    seq(|q|, i requires 0 <= i < |q| => q[i].id)
  }

  /** In a pre-allocated pool the ring has room for every worker that inserts itself, so an
      insertion is never refused for lack of room. */
  lemma RingNeverFull(s: State, w: WorkerId)
    requires Reachable(s) && s.cfg.preAlloc
    requires w in s.threads && s.threads[w].RevInsert?
    ensures |s.queue| < s.cfg.size && !WorkerQueue.Full(KindOf(s.cfg), s.queue)
  {
    hide Reachable;
    NothingIsShared(s);
    ReachableInv(s);
    RingHasRoom(s, w);
  }

  lemma RingHasRoom(s: State, w: WorkerId)
    requires CustodyInv(s.queue, s.callers, s.chan, s.purge, s.threads) && Distinct(s.queue)
    requires LiveInv(s.running, s.threads)
    requires CapacityInv(s.cfg, s.capacity, s.running, s.peak, s.callers, s.tuners) && s.cfg.preAlloc
    requires w in s.threads && s.threads[w].RevInsert?
    ensures |s.queue| < s.cfg.size
  {
    hide CustodyInv, Occurs;
    var keys := Ids(s.queue) + [w];
    forall i | 0 <= i < |s.queue| ensures AtReceive(s.threads, s.queue[i].id) {
      OnePlace(s, s.queue[i].id);
    }
    assert forall i :: 0 <= i < |s.queue| ==> keys[i] == s.queue[i].id;
    SumBoundsKeys(keys, s.threads, LiveWeight);
  }
}
