/** The default queue: a stack in a growable vector (src/worker_stack.rs). */
module WorkerStackQueue {
  import opened Wrappers
  import opened WorkerQueue

  class WorkerStack {
    var items: seq<Worker>

    constructor ()
      ensures items == []
    {
      items := [];
    }

    /** Bisects the inclusive range `[l, r]`; the answer is `l - 1` when nothing in it has expired.
        `probes` is how many workers it looks at. */
    method BinarySearch(l: int, r: int, expiryTime: int) returns (index: int, ghost probes: nat)
      requires 0 <= l <= r + 1 <= |items|
      ensures index == Bisect(items, l, r, expiryTime) && probes <= Halvings(r - l + 1)
    {
      hide Bisect, Halvings;
      var lo, hi := l, r;
      probes := 0;
      while lo <= hi
        invariant 0 <= lo <= hi + 1 <= |items|
        invariant Bisect(items, lo, hi, expiryTime) == Bisect(items, l, r, expiryTime)
        invariant probes + Halvings(hi - lo + 1) <= Halvings(r - l + 1)
      {
        var mid := lo + (hi - lo) / 2;
        BisectStep(items, lo, hi, expiryTime);
        TurnHalves(lo, hi, mid);
        probes := probes + 1;
        if expiryTime < items[mid].lastUsed {
          hi := mid - 1;
        } else {
          lo := mid + 1;
        }
      }
      BisectEnd(items, lo, hi, expiryTime);
      index := hi;
    }

    method Len() returns (n: nat)
      ensures n == |items|
    {
      n := |items|;
    }

    method IsEmpty() returns (empty: bool)
      ensures empty <==> items == []
    {
      empty := |items| == 0;
    }

    method Insert(w: Worker) returns (accepted: bool)
      modifies this
      ensures accepted && items == Inserted(Stack, old(items), w)
    {
      items := items + [w];
      accepted := true;
    }

    method Detach() returns (worker: Option<Worker>)
      modifies this
      ensures old(items) == [] ==> worker == None && items == []
      ensures old(items) != [] ==> worker == Some(Next(Stack, old(items))) && items == Detached(Stack, old(items))
    {
      if |items| == 0 {
        return None;
      }
      worker := Some(items[|items| - 1]);
      items := items[..|items| - 1];
    }

    method Refresh(now: int, duration: int) returns (expired: seq<Worker>)
      modifies this
      ensures var k := Expired(Stack, old(items), now - duration);
        expired == old(items)[..k] && items == old(items)[k..]
    {
      var n := |items|;
      if n == 0 {
        return [];
      }
      var expiryTime := now - duration;
      var index, probes := BinarySearch(0, n - 1, expiryTime);
      if index == -1 {
        return [];
      }
      expired := items[..index + 1];
      items := items[index + 1..];
    }

    /** Finishes every worker, oldest first, then clears; `finished` lists the finished ones. */
    method Reset() returns (finished: seq<Worker>)
      modifies this
      ensures finished == old(items) && items == []
    {
      finished := [];
      for i := 0 to |items|
        invariant items == old(items) && finished == items[..i]
      {
        finished := finished + [items[i]];
      }
      items := [];
    }
  }
}
