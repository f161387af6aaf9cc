/** The pre-allocated queue: a fixed-capacity ring buffer (src/worker_loop_queue.rs). */
module LoopQueueRing {
  import opened Arithmetic
  import opened Wrappers
  import opened WorkerQueue

  /** The largest size for which the `i32` sum at the end of the search cannot overflow. */
  const LARGEST_SAFE_SIZE: int := 715_827_883

  const TWO_TO_THE_31: int := 0x8000_0000

  /** Position `x` of an endless tape wrapped once onto a ring of `n` slots. */
  function Wrap(x: int, n: int): int {
    if x < n then x else x - n
  }

  /** The source's `%` on the few turns around the ring that it ever sees. */
  method Remainder(x: int, n: int) returns (m: int)
    requires 0 <= x < 3 * n
    ensures m == Wrap(Wrap(x, n), n)
  {
    m := x % n;
    if x < n {
      ModUnique(x, 0, x, n);
    } else if x < 2 * n {
      ModUnique(x, 1, x - n, n);
    } else {
      ModUnique(x, 2, x - 2 * n, n);
    }
  }

  /** The last sum of the search, computed in `i32` by the source. */
  function SearchSum(r: int, head: int, n: int): int {
    r + head + n
  }

  /** The sum `r + head + n` of the search stays inside `i32` for all indices `r` and `head` below the
      size exactly when that is at most 715,827,883. */
  lemma SearchSumFits(n: int)
    requires 0 < n < TWO_TO_THE_31
    ensures n <= LARGEST_SAFE_SIZE <==>
      forall r, head :: 0 <= r < n && 0 <= head < n ==> SearchSum(r, head, n) < TWO_TO_THE_31
  {
    if LARGEST_SAFE_SIZE < n {
      var last := n - 1;
      assert SearchSum(last, last, n) >= TWO_TO_THE_31;
    }
  }

  class LoopQueue {
    // the parked workers, oldest first
    ghost var contents: seq<Worker>

    const items: array<Option<Worker>>
    var head: nat
    var tail: nat
    const size: nat
    var isFull: bool

    /** How far slot `i` is behind the head. */
    ghost function Position(i: nat): int
      reads this
    {
      if i >= head then i - head else i - head + size
    }

    /** The occupied slots are exactly the window of `|contents|` slots from the head, except that
        its first `taken` slots have been emptied. */
    ghost predicate ValidBut(taken: nat)
      reads this, items
    {
      && items.Length == size > 0
      && head < size
      && |contents| <= size
      && tail == Wrap(head + |contents|, size)
      && (isFull <==> |contents| == size)
      && forall i :: 0 <= i < size ==>
           items[i] == if taken <= Position(i) < |contents| then Some(contents[Position(i)]) else None
    }

    ghost predicate Valid()
      reads this, items
    {
      ValidBut(0)
    }

    constructor (n: nat)
      requires n > 0
      ensures Valid() && fresh(items) && contents == [] && size == n && head == 0
    {
      items := new Option<Worker>[n](_ => None);
      head, tail, size, isFull := 0, 0, n, false;
      contents := [];
    }

    /** `None` when the size is not positive. */
    static method New(n: int) returns (q: LoopQueue?)
      ensures q == null <==> n <= 0
      ensures q != null ==> fresh(q) && q.Valid() && fresh(q.items) && q.contents == [] && q.size == n && q.head == 0
    {
      if n <= 0 {
        return null;
      }
      q := new LoopQueue(n);
    }

    method IsEmpty() returns (empty: bool)
      requires Valid()
      ensures empty <==> contents == []
    {
      empty := head == tail && !isFull;
    }

    method Len() returns (n: nat)
      requires Valid()
      ensures n == |contents|
    {
      var empty := IsEmpty();
      if size == 0 || empty {
        return 0;
      }
      if head == tail && isFull {
        return size;
      }
      if tail > head {
        return tail - head;
      }
      n := size - head + tail;
    }

    /** The stamp in a slot, zero in an empty one; the search only looks at the slot of the worker
        with some number `k` from the head. */
    method LastUsed(index: nat, ghost k: nat) returns (t: int)
      requires Valid() && k < |contents| && index == Wrap(head + k, size)
      ensures t == contents[k].lastUsed
    {
      t := if items[index].Some? then items[index].value.lastUsed else 0;
    }

    /** Searches mapped positions and converts the answer back to a slot.  `overflow` reports that
        the final `i32` sum leaves its range, which only a ring beyond the safe size can do. */
    method BinarySearch(expiryTime: int) returns (index: int, overflow: bool)
      requires Valid()
      ensures overflow ==> size > LARGEST_SAFE_SIZE
      ensures var k := Expired(Ring(size), contents, expiryTime);
        && (k == 0 ==> index == -1 && !overflow)
        && (k > 0 ==> index == Wrap(head + k - 1, size) && (overflow <==> SearchSum(k - 1, head, size) >= TWO_TO_THE_31))
    {
      overflow := false;
      var n := items.Length;
      var empty := IsEmpty();
      if empty {
        return -1, false;
      }
      var oldest := LastUsed(head, 0);
      if expiryTime < oldest {
        return -1, false;
      }
      var r, probes := SearchMapped(expiryTime);
      overflow := SearchSum(r, head, n) >= TWO_TO_THE_31;
      index := Remainder(SearchSum(r, head, n), n);
    }

    /** The stamp of the worker `mid` places from the head, through its slot. */
    method StampAt(mid: nat) returns (t: int)
      requires Valid() && mid < |contents|
      ensures t == contents[mid].lastUsed
    {
      var tmid := Remainder(mid + head, items.Length);
      t := LastUsed(tmid, mid);
    }

    /** How far the newest worker is from the head. */
    method LastPosition() returns (r: nat)
      requires Valid() && contents != []
      ensures r == |contents| - 1
    {
      r := Remainder(tail + items.Length - 1 - head, items.Length);
    }

    /** The loop of the search, over positions counted from the head. */
    method SearchMapped(expiryTime: int) returns (r: int, ghost probes: nat)
      requires Valid() && contents != []
      ensures r == Bisect(contents, 0, |contents| - 1, expiryTime) && probes <= Halvings(|contents|)
    {
      hide Bisect, ValidBut, Halvings;
      var l := 0;
      probes := 0;
      r := LastPosition();
      ghost var found := Bisect(contents, l, r, expiryTime);
      while l <= r
        invariant 0 <= l <= r + 1 <= |contents|
        invariant Bisect(contents, l, r, expiryTime) == found
        invariant probes + Halvings(r - l + 1) <= Halvings(|contents|)
      {
        var mid := l + (r - l) / 2;
        TurnHalves(l, r, mid);
        probes := probes + 1;
        BisectStep(contents, l, r, expiryTime);
        var used := StampAt(mid);
        if expiryTime < used {
          r := mid - 1;
        } else {
          l := mid + 1;
        }
      }
      BisectEnd(contents, l, r, expiryTime);
    }

    method Insert(w: Worker) returns (accepted: bool)
      requires Valid()
      modifies this, items
      ensures Valid()
      ensures accepted <==> !Full(Ring(size), old(contents))
      ensures contents == Inserted(Ring(size), old(contents), w) && head == old(head)
    {
      if isFull {
        return false;
      }
      items[tail] := Some(w);
      contents := contents + [w];
      tail := Remainder(tail + 1, size);
      if tail == head {
        isFull := true;
      }
      accepted := true;
    }

    method Detach() returns (worker: Option<Worker>)
      requires Valid()
      modifies this, items
      ensures Valid()
      ensures old(contents) == [] ==> worker == None && contents == [] && head == old(head)
      ensures old(contents) != [] ==>
        && worker == Some(Next(Ring(size), old(contents)))
        && contents == Detached(Ring(size), old(contents)) && head == Wrap(old(head) + 1, size)
    {
      var empty := IsEmpty();
      if empty {
        return None;
      }
      worker := items[head];
      items[head] := None;
      contents := contents[1..];
      head := Remainder(head + 1, size);
      isFull := false;
    }

    /** Takes the workers out of the slots `[lo, hi)`, in slot order. */
    method Take(lo: nat, hi: nat, ghost held: seq<Worker>) returns (taken: seq<Worker>)
      requires lo <= hi <= items.Length && |held| == hi - lo
      requires forall i :: lo <= i < hi ==> items[i] == Some(held[i - lo])
      modifies items
      ensures taken == held
      ensures forall i :: lo <= i < hi ==> items[i] == None
      ensures forall i :: 0 <= i < items.Length && !(lo <= i < hi) ==> items[i] == old(items[i])
    {
      taken := [];
      for i := lo to hi
        invariant taken == held[..i - lo]
        invariant forall j :: lo <= j < i ==> items[j] == None
        invariant forall j :: 0 <= j < items.Length && !(lo <= j < i) ==> items[j] == old(items[j])
      {
        if items[i].Some? {
          taken := taken + [items[i].value];
        }
        items[i] := None;
      }
    }

    /** Empties the slots of the `k` oldest workers, the last of which sits in slot `index`; a range
        that wraps is handed over with the segment from slot zero first. */
    method TakeOldest(index: nat, ghost k: nat) returns (taken: seq<Worker>)
      requires Valid() && 0 < k <= |contents| && index == Wrap(head + k - 1, size)
      modifies items
      ensures taken == Handed(contents, k, if head <= index then 0 else size - head)
      ensures ValidBut(k)
    {
      if head <= index {
        taken := Take(head, index + 1, contents[..k]);
      } else {
        ghost var split := size - head;
        taken := Take(0, index + 1, contents[split..k]);
        var rest := Take(head, items.Length, contents[..split]);
        taken := taken + rest;
      }
    }

    /** Removes the expired prefix.  On `overflow` nothing happens. */
    method Refresh(now: int, duration: int) returns (expired: seq<Worker>, overflow: bool)
      requires Valid()
      modifies this, items
      ensures Valid()
      ensures overflow ==> size > LARGEST_SAFE_SIZE && contents == old(contents)
      ensures !overflow ==>
        var k := Expired(Ring(size), old(contents), now - duration);
        var split := if old(head) + k <= size then 0 else size - old(head);
        && contents == old(contents)[k..] && head == Wrap(old(head) + k, size)
        && split <= k && expired == Handed(old(contents), k, split)
    {
      var expiryTime := now - duration;
      var index: int;
      index, overflow := BinarySearch(expiryTime);
      if overflow {
        return [], true;
      }
      if index == -1 {
        return [], false;
      }
      ghost var k := Expired(Ring(size), contents, expiryTime);
      expired := TakeOldest(index, k);
      Advance(index, k, expired);
    }

    /** Moves the head past the emptied slots. */
    method Advance(index: nat, ghost k: nat, expired: seq<Worker>)
      requires ValidBut(k) && k == |expired| && 0 < k <= |contents| && index == Wrap(head + k - 1, size)
      modifies this
      ensures Valid() && contents == old(contents)[k..] && head == Wrap(old(head) + k, size)
    {
      contents := contents[k..];
      head := Remainder(index + 1, size);
      if |expired| != 0 {
        isFull := false;
      }
      assert head == Wrap(old(head) + k, size);
      forall i | 0 <= i < size
        ensures items[i] == if Position(i) < |contents| then Some(contents[Position(i)]) else None
      {
        assert old(Position(i)) == Wrap(Position(i) + k, size);
      }
    }

    /** Detaches and finishes every worker; `finished` lists them in order. */
    method Reset() returns (finished: seq<Worker>)
      requires Valid()
      modifies this, items
      ensures Valid()
      ensures finished == old(contents) && contents == [] && (old(contents) != [] ==> head == 0)
    {
      finished := [];
      var empty := IsEmpty();
      if empty {
        return;
      }
      var worker := Detach();
      while worker.Some?
        invariant Valid()
        invariant worker.Some? ==> finished + [worker.value] + contents == old(contents)
        invariant worker.None? ==> finished == old(contents) && contents == []
        decreases |contents|, worker.Some?
      {
        finished := finished + [worker.value];
        worker := Detach();
      }
      head := 0;
      tail := 0;
    }
  }

  /** Every ring beyond the safe size can be brought to a state in which the search overflows: one
      worker at a time goes round to the last slot, then the ring fills up, and everything expires. */
  method OverflowingRing(n: nat) returns (q: LoopQueue, index: int, overflow: bool)
    requires LARGEST_SAFE_SIZE < n < TWO_TO_THE_31
    ensures fresh(q) && q.Valid() && q.size == n && q.head == n - 1 && |q.contents| == n
    ensures forall i :: 0 <= i < n ==> q.contents[i] == Worker(i, 0)
    ensures Expired(Ring(n), q.contents, 0) == n && overflow
  {
    q := GoneRound(n);
    for i := 0 to n
      invariant fresh(q) && fresh(q.items) && q.Valid() && q.size == n && q.head == n - 1
      invariant |q.contents| == i && forall j :: 0 <= j < i ==> q.contents[j] == Worker(j, 0)
    {
      var accepted := q.Insert(Worker(i, 0));
    }
    AllExpire(Ring(n), q.contents, 0);
    index, overflow := q.BinarySearch(0);
  }

  method GoneRound(n: nat) returns (q: LoopQueue)
    requires n > 0
    ensures fresh(q) && fresh(q.items) && q.Valid() && q.size == n && q.head == n - 1 && q.contents == []
  {
    q := new LoopQueue(n);
    for i := 0 to n - 1
      invariant fresh(q) && fresh(q.items) && q.Valid() && q.size == n && q.head == i && q.contents == []
    {
      var accepted := q.Insert(Worker(0, 0));
      var worker := q.Detach();
    }
  }

  lemma AllExpire(kind: Kind, q: seq<Worker>, t: int)
    requires forall i :: 0 <= i < |q| ==> q[i].lastUsed <= t
    ensures Expired(kind, q, t) == |q|
  {
  }
}
