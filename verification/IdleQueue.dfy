/** The queue a pool keeps its idle workers in, a stack or a ring (src/worker_queue.rs). */
module IdleWorkers {
  import opened Wrappers
  import opened WorkerQueue
  import opened WorkerStackQueue
  import opened LoopQueueRing
  import opened PoolModel

  class IdleQueue {
    const cfg: Config
    const stack: WorkerStack?
    const ring: LoopQueue?

    /** The objects it is made of. */
    ghost function Parts(): set<object?> {
      if ring != null then {ring, ring.items} else {stack}
    }

    /** It holds these workers. */
    ghost predicate Holds(q: seq<Worker>)
      reads Parts()
    {
      ValidConfig(cfg) &&
      if ring != null then
        && cfg.preAlloc
        && ring.Valid() && ring.size == cfg.size && ring.contents == q
      else stack != null && !cfg.preAlloc && stack.items == q
    }

    /** `new_worker_queue`, as `PoolCore::new` calls it. */
    constructor (config: Config)
      requires ValidConfig(config)
      ensures cfg == config && Holds([]) && fresh(Parts())
      ensures ring != null <==> config.preAlloc
    {
      cfg := config;
      if config.preAlloc {
        var r := new LoopQueue(config.size);
        stack, ring := null, r;
      } else {
        var s := new WorkerStack();
        stack, ring := s, null;
      }
    }

    /** `detach` on either. */
    method Detach(ghost q: seq<Worker>) returns (w: Option<Worker>)
      requires Holds(q)
      modifies Parts()
      ensures q == [] ==> w == None && Holds(q)
      ensures q != [] ==> w == Some(Next(KindOf(cfg), q)) && Holds(Detached(KindOf(cfg), q))
    {
      if ring != null {
        w := ring.Detach();
      } else {
        w := stack.Detach();
      }
    }

    /** `insert` on either. */
    method Insert(ghost q: seq<Worker>, w: Worker) returns (accepted: bool)
      requires Holds(q)
      modifies Parts()
      ensures Holds(Inserted(KindOf(cfg), q, w)) && (accepted <==> !WorkerQueue.Full(KindOf(cfg), q))
    {
      if ring != null {
        accepted := ring.Insert(w);
      } else {
        accepted := stack.Insert(w);
      }
    }

    /** `refresh` on either. */
    method Refresh(ghost q: seq<Worker>, now: int, duration: int)
      returns (expired: seq<Worker>, overflow: bool, ghost split: nat)
      requires Holds(q)
      modifies Parts()
      ensures overflow ==> cfg.size > LARGEST_SAFE_SIZE && Holds(q)
      ensures !overflow ==>
        var k := Expired(KindOf(cfg), q, now - duration);
        && split <= k && (KindOf(cfg).Stack? ==> split == 0)
        && expired == Handed(q, k, split) && Holds(q[k..])
    {
      split := 0;
      if ring != null {
        ghost var k, head := Expired(KindOf(cfg), q, now - duration), ring.head;
        expired, overflow := ring.Refresh(now, duration);
        split := if head + k <= ring.size then 0 else ring.size - head;
      } else {
        expired := stack.Refresh(now, duration);
        overflow := false;
        assert q[..0] == [];
      }
    }

    /** `reset` on either, which lists every idle worker, oldest first. */
    method Reset(ghost q: seq<Worker>) returns (finished: seq<Worker>)
      requires Holds(q)
      modifies Parts()
      ensures Holds([]) && finished == q
    {
      if ring != null {
        finished := ring.Reset();
      } else {
        finished := stack.Reset();
      }
    }
  }
}
