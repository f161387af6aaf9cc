/** What moving a single caller or a single worker thread does to each conjunct of the invariant.
    The lemmas about whole events are put together from these. */
module PoolFrames {
  import opened Wrappers
  import opened WorkerQueue
  import opened Sums
  import opened PoolModel
  import opened PoolInvariant

  // ----- Sums ----------------------------------------------------------------------------------

  function WeightIn<V>(m: map<nat, V>, k: nat, weight: V -> nat): nat {
    if k in m then weight(m[k]) else 0
  }

  lemma CallerSums(m: map<CallerId, Caller>, c: CallerId, p: Caller, g: nat)
    ensures Sum(m[c := p], ParkedWeight) + WeightIn(m, c, ParkedWeight) == Sum(m, ParkedWeight) + ParkedWeight(p)
    ensures Sum(m[c := p], WokenWeight) + WeightIn(m, c, WokenWeight) == Sum(m, WokenWeight) + WokenWeight(p)
    ensures Sum(m[c := p], AwakeWeight(g)) + WeightIn(m, c, AwakeWeight(g)) == Sum(m, AwakeWeight(g)) + AwakeWeight(g)(p)
    ensures Sum(m[c := p], CurrentWeight(g)) + WeightIn(m, c, CurrentWeight(g)) == Sum(m, CurrentWeight(g)) + CurrentWeight(g)(p)
  {
    SumPut(m, c, p, ParkedWeight);
    SumPut(m, c, p, WokenWeight);
    SumPut(m, c, p, AwakeWeight(g));
    SumPut(m, c, p, CurrentWeight(g));
  }

  /** Every awake or current caller is parked. */
  lemma ParkedSums(m: map<CallerId, Caller>, g: nat)
    ensures Sum(m, AwakeWeight(g)) <= Sum(m, ParkedWeight)
    ensures Sum(m, CurrentWeight(g)) <= Sum(m, ParkedWeight)
  {
    SumCompare(m, AwakeWeight(g), ParkedWeight);
    SumCompare(m, CurrentWeight(g), ParkedWeight);
  }

  // ----- A caller moves ------------------------------------------------------------------------

  lemma CallerKeepsLock(s: State, c: CallerId, q: Caller)
    requires LockInv(s.lock, s.callers, s.threads, s.purge, s.admin)
    requires CallerLocks(q) <==> c in s.callers && CallerLocks(s.callers[c])
    ensures LockInv(s.lock, s.callers[c := q], s.threads, s.purge, s.admin)
  {
  }

  lemma CallerGetsLock(s: State, c: CallerId, q: Caller)
    requires LockInv(s.lock, s.callers, s.threads, s.purge, s.admin)
    requires s.lock == None && CallerLocks(q)
    ensures LockInv(Some(ByCaller(c)), s.callers[c := q], s.threads, s.purge, s.admin)
  {
  }

  lemma CallerDropsLock(s: State, c: CallerId, q: Caller)
    requires LockInv(s.lock, s.callers, s.threads, s.purge, s.admin)
    requires c in s.callers && CallerLocks(s.callers[c]) && !CallerLocks(q)
    ensures LockInv(None, s.callers[c := q], s.threads, s.purge, s.admin)
  {
  }

  lemma CallerCond(s: State, c: CallerId, q: Caller)
    requires CondInv(s.cond, s.callers)
    requires !q.Parked? && (c in s.callers ==> !s.callers[c].Parked?)
    ensures CondInv(s.cond, s.callers[c := q])
  {
    CallerSums(s.callers, c, q, s.cond.generation);
  }

  lemma CallerWait(s: State, c: CallerId, q: Caller)
    requires WaitInv(s.waiting, s.callers)
    ensures WaitInv(s.waiting + WaitingWeight(q) - WeightIn(s.callers, c, WaitingWeight), s.callers[c := q])
  {
    SumPut(s.callers, c, q, WaitingWeight);
  }

  lemma CallerCustody(s: State, c: CallerId, q: Caller)
    requires CustodyInv(s.queue, s.callers, s.chan, s.purge, s.threads)
    requires !q.Holding? && (c in s.callers ==> !s.callers[c].Holding?)
    ensures CustodyInv(s.queue, s.callers[c := q], s.chan, s.purge, s.threads)
  {
    forall w: nat
      ensures Custody(s.queue, s.callers[c := q], s.chan, s.purge, w) == Custody(s.queue, s.callers, s.chan, s.purge, w)
    {
      SumPut(s.callers, c, q, HoldsWeight(w));
    }
  }

  lemma CallerRegistry(s: State, c: CallerId, q: Caller)
    requires RegistryInv(s.made, s.cache, s.callers, s.threads)
    requires !q.Fetched? && (c in s.callers ==> !s.callers[c].Fetched?)
    ensures RegistryInv(s.made, s.cache, s.callers[c := q], s.threads)
  {
    forall w: nat ensures Sum(s.callers[c := q], FetchedWeight(w)) == Sum(s.callers, FetchedWeight(w)) {
      SumPut(s.callers, c, q, FetchedWeight(w));
    }
  }

  lemma CallerTask(s: State, c: CallerId, q: Caller)
    requires TaskInv(s.callers, s.chan, s.threads, s.finished)
    requires !q.Accepted? && (c in s.callers ==> !s.callers[c].Accepted?)
    ensures TaskInv(s.callers[c := q], s.chan, s.threads, s.finished)
  {
  }

  lemma CallerCapacity(s: State, c: CallerId, q: Caller)
    requires CapacityInv(s.cfg, s.capacity, s.running, s.peak, s.callers, s.tuners)
    requires !q.Sized? && !q.Spawning? && !q.Fetched?
    ensures CapacityInv(s.cfg, s.capacity, s.running, s.peak, s.callers[c := q], s.tuners)
  {
  }

  /** In the loop after waiting, or counted as waiting: the phases the limit speaks about. */
  predicate Limited(q: Caller) {
    Again(q) || q.Queuing? || q.Parked? || q.Woken? || q.Relocked?
  }

  lemma CallerLimit(s: State, c: CallerId, q: Caller)
    requires LimitInv(s.cfg, s.waiting, s.callers)
    requires !Limited(q)
             || (c in s.callers && Again(q) && Again(s.callers[c]))
             || (c in s.callers && WaitingWeight(q) == 1 && WaitingWeight(s.callers[c]) == 1)
    ensures LimitInv(s.cfg, s.waiting, s.callers[c := q])
  {
  }

  predicate Hunts(q: Caller) {
    q.Loop? || q.Relocked? || q.Uncounted?
  }

  /** Enough for the wake-up claim when neither side is parked or woken: the caller does not stop
      hunting without finding the queue empty. */
  lemma CallerWake(s: State, c: CallerId, q: Caller)
    requires LockInv(s.lock, s.callers, s.threads, s.purge, s.admin)
    requires WakeInv(s.open, s.cond, s.queue, s.lock, s.callers, s.threads)
    requires !q.Parked? && !q.Woken? && (c in s.callers ==> !s.callers[c].Parked? && !s.callers[c].Woken?)
    requires CallerLocks(q) <==> c in s.callers && CallerLocks(s.callers[c])
    requires SawEmpty(q) ==> s.queue == [] || (c in s.callers && SawEmpty(s.callers[c]))
    requires c in s.callers && Hunts(s.callers[c]) && !Hunts(q) ==> s.queue == []
    ensures WakeInv(s.open, s.cond, s.queue, s.lock, s.callers[c := q], s.threads)
  {
    CallerSums(s.callers, c, q, s.cond.generation);
    if s.queue != [] {
      assert Hunting(s.lock, s.callers, s.threads) ==> Hunting(s.lock, s.callers[c := q], s.threads);
    }
  }

  // ----- A worker thread moves -----------------------------------------------------------------

  lemma ThreadKeepsLock(s: State, w: WorkerId, u: Thread)
    requires LockInv(s.lock, s.callers, s.threads, s.purge, s.admin)
    requires ThreadLocks(u) <==> w in s.threads && ThreadLocks(s.threads[w])
    ensures LockInv(s.lock, s.callers, s.threads[w := u], s.purge, s.admin)
  {
  }

  lemma ThreadGetsLock(s: State, w: WorkerId, u: Thread)
    requires LockInv(s.lock, s.callers, s.threads, s.purge, s.admin)
    requires s.lock == None && ThreadLocks(u)
    ensures LockInv(Some(ByWorker(w)), s.callers, s.threads[w := u], s.purge, s.admin)
  {
  }

  lemma ThreadDropsLock(s: State, w: WorkerId, u: Thread)
    requires LockInv(s.lock, s.callers, s.threads, s.purge, s.admin)
    requires w in s.threads && ThreadLocks(s.threads[w]) && !ThreadLocks(u)
    ensures LockInv(None, s.callers, s.threads[w := u], s.purge, s.admin)
  {
  }

  lemma ThreadLive(s: State, w: WorkerId, u: Thread)
    requires LiveInv(s.running, s.threads)
    ensures LiveInv(s.running + LiveWeight(u) - WeightIn(s.threads, w, LiveWeight), s.threads[w := u])
  {
    SumPut(s.threads, w, u, LiveWeight);
  }

  lemma ThreadCustody(s: State, w: WorkerId, u: Thread)
    requires CustodyInv(s.queue, s.callers, s.chan, s.purge, s.threads)
    requires !u.Recv? && !u.RevSignal? && !AtReceive(s.threads, w)
    ensures CustodyInv(s.queue, s.callers, s.chan, s.purge, s.threads[w := u])
  {
  }

  lemma ThreadRegistry(s: State, w: WorkerId, u: Thread)
    requires RegistryInv(s.made, s.cache, s.callers, s.threads)
    requires w in s.threads
    ensures RegistryInv(s.made, s.cache, s.callers, s.threads[w := u])
  {
  }

  lemma ThreadTask(s: State, w: WorkerId, u: Thread)
    requires TaskInv(s.callers, s.chan, s.threads, s.finished)
    requires !u.Run? && (w in s.threads ==> !s.threads[w].Run?)
    ensures TaskInv(s.callers, s.chan, s.threads[w := u], s.finished)
  {
    var threads := s.threads[w := u];
    forall v, c | Runs(threads, v, c) ensures c in s.callers && s.callers[c] == Accepted(v) {
      assert Runs(s.threads, v, c);
    }
    forall c | c in s.callers && s.callers[c].Accepted?
      ensures Runs(threads, s.callers[c].w, c) <==> Runs(s.threads, s.callers[c].w, c)
    {
    }
  }

  lemma ThreadWake(s: State, w: WorkerId, u: Thread)
    requires LockInv(s.lock, s.callers, s.threads, s.purge, s.admin)
    requires WakeInv(s.open, s.cond, s.queue, s.lock, s.callers, s.threads)
    requires w in s.threads ==> !s.threads[w].RevSignal?
    ensures WakeInv(s.open, s.cond, s.queue, s.lock, s.callers, s.threads[w := u])
  {
    assert Hunting(s.lock, s.callers, s.threads) ==> Hunting(s.lock, s.callers, s.threads[w := u]);
  }

  lemma ThreadReset(s: State, w: WorkerId, u: Thread)
    requires ResetInv(s.open, s.admin, s.queue, s.threads)
    requires u.RevInsert? ==> s.open
    ensures ResetInv(s.open, s.admin, s.queue, s.threads[w := u])
  {
  }

  /** Enough for the latch claim when `running` does not change: a worker on its way to close the
      latch does not turn aside. */
  lemma ThreadLatch(s: State, w: WorkerId, u: Thread)
    requires LatchInv(s.admin, s.latch, s.closed, s.running, s.threads)
    requires WasReleased(s.admin) && w in s.threads && AboutToClose(s.threads[w], s.latch) ==> AboutToClose(u, s.latch)
    requires u.ExitClose? ==> u.latch <= s.latch
    ensures LatchInv(s.admin, s.latch, s.closed, s.running, s.threads[w := u])
  {
    if WasReleased(s.admin) && !s.admin.AClosing? && s.latch !in s.closed && !(s.running > 0) {
      var v :| v in s.threads && AboutToClose(s.threads[v], s.latch);
      assert v in s.threads[w := u] && AboutToClose(s.threads[w := u][v], s.latch);
    }
  }

  // ----- A worker is spawned -------------------------------------------------------------------

  lemma SpawnIsNew(s: State, c: CallerId)
    requires RegistryInv(s.made, s.cache, s.callers, s.threads)
    requires c in s.callers && s.callers[c].Fetched?
    ensures s.callers[c].w !in s.threads
  {
    SumAtLeast(s.callers, c, FetchedWeight(s.callers[c].w));
  }

  // ----- The queue shrinks ---------------------------------------------------------------------

  lemma ResetShrinks(s: State, queue: seq<Worker>)
    requires ResetInv(s.open, s.admin, s.queue, s.threads)
    requires |queue| <= |s.queue|
    ensures ResetInv(s.open, s.admin, queue, s.threads)
  {
  }
}
