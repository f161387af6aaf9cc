/** The container of idle workers as both implementations promise it: a sequence of workers, oldest
    first.  `LoopQueue` and `WorkerStack` are proved against these functions and the pool machine
    uses them for its lock-protected queue. */
module WorkerQueue {

  /** What a queue can see of a parked worker.  The stamp is written before the worker is parked
      and nothing writes it while it is parked. */
  datatype Worker = Worker(id: nat, lastUsed: int)

  datatype Kind = Stack | Ring(size: nat)

  // ----- Insert and detach ---------------------------------------------------------------------

  predicate Full(kind: Kind, q: seq<Worker>) {
    kind.Ring? && |q| >= kind.size
  }

  function Inserted(kind: Kind, q: seq<Worker>, w: Worker): seq<Worker> {
    if Full(kind, q) then q else q + [w]
  }

  /** The ring gives back the oldest worker, the stack the newest. */
  function Next(kind: Kind, q: seq<Worker>): Worker
    requires q != []
  {
    if kind.Ring? then q[0] else q[|q| - 1]
  }

  function Detached(kind: Kind, q: seq<Worker>): seq<Worker>
    requires q != []
  {
    if kind.Ring? then q[1..] else q[..|q| - 1]
  }

  // ----- The search for the expired prefix -----------------------------------------------------

  ghost predicate Sorted(q: seq<Worker>) {
    forall i, j :: 0 <= i < j < |q| ==> q[i].lastUsed <= q[j].lastUsed
  }

  /** The bisection both queues run.  Even on unsorted stamps the answer is a boundary: the worker
      it names has expired and the one after it has not. */
  function Bisect(q: seq<Worker>, l: int, r: int, t: int): (k: int)
    requires 0 <= l <= r + 1 <= |q|
    ensures l - 1 <= k <= r
    ensures l <= k ==> q[k].lastUsed <= t
    ensures k < r ==> t < q[k + 1].lastUsed
    decreases r - l + 1
  {
    if l > r then r
    else
      var mid := l + (r - l) / 2;
      if t < q[mid].lastUsed then Bisect(q, l, mid - 1, t) else Bisect(q, mid + 1, r, t)
  }

  lemma BisectStep(q: seq<Worker>, l: int, r: int, t: int)
    requires 0 <= l <= r < |q|
    ensures var mid := l + (r - l) / 2;
      && (t < q[mid].lastUsed ==> Bisect(q, l, r, t) == Bisect(q, l, mid - 1, t))
      && (t >= q[mid].lastUsed ==> Bisect(q, l, r, t) == Bisect(q, mid + 1, r, t))
  {
  }

  lemma BisectEnd(q: seq<Worker>, l: int, r: int, t: int)
    requires 0 <= l == r + 1 <= |q|
    ensures Bisect(q, l, r, t) == r
  {
  }

  /** How often `n` can be halved: the length of its binary numeral. */
  function Halvings(n: nat): nat {
    if n == 0 then 0 else 1 + Halvings(n / 2)
  }

  lemma {:induction false} HalvingsGrow(m: nat, n: nat)
    requires m <= n
    ensures Halvings(m) <= Halvings(n)
  {
    if m > 0 {
      HalvingsGrow(m / 2, n / 2);
    }
  }

  function PowerOfTwo(k: nat): nat {
    if k == 0 then 1 else 2 * PowerOfTwo(k - 1)
  }

  lemma {:induction false} HalvingsAreLogarithmic(n: nat, k: nat)
    ensures Halvings(n) <= k <==> n < PowerOfTwo(k)
  {
    if n > 0 && k > 0 {
      HalvingsAreLogarithmic(n / 2, k - 1);
    } else if n > 0 {
      assert PowerOfTwo(0) == 1;
    } else {
      HalvingsOfNone(k);
    }
  }

  lemma {:induction false} HalvingsOfNone(k: nat)
    ensures PowerOfTwo(k) > 0
  {
    if k > 0 {
      HalvingsOfNone(k - 1);
    }
  }

  /** One turn of the bisection leaves at most half of the range, on either side. */
  lemma TurnHalves(l: int, r: int, mid: int)
    requires l <= r && mid == l + (r - l) / 2
    ensures l <= mid <= r
    ensures Halvings(mid - l) + 1 <= Halvings(r - l + 1) && Halvings(r - mid) + 1 <= Halvings(r - l + 1)
  {
    HalvingsGrow(mid - l, (r - l + 1) / 2);
    HalvingsGrow(r - mid, (r - l + 1) / 2);
  }

  /** How many workers `refresh` removes.  The ring looks at its head first, the stack does not. */
  function Expired(kind: Kind, q: seq<Worker>, t: int): (k: nat)
    ensures k <= |q|
    ensures k > 0 ==> q[k - 1].lastUsed <= t
    ensures k < |q| ==> (k > 0 || kind.Stack?) ==> t < q[k].lastUsed
    ensures k == 0 ==> q == [] || t < q[0].lastUsed
  {
    if q == [] || (kind.Ring? && t < q[0].lastUsed) then 0 else Bisect(q, 0, |q| - 1, t) + 1
  }

  /** No worker that has expired stands behind one that has not. */
  ghost predicate Partitioned(q: seq<Worker>, t: int) {
    forall i, j :: 0 <= i < j < |q| && q[j].lastUsed <= t ==> q[i].lastUsed <= t
  }

  /** The removed prefix is exactly the set of workers that have expired if and only if the stamps
      are in order as far as the expiry time can tell ... */
  lemma ExpiredIsExact(kind: Kind, q: seq<Worker>, t: int)
    ensures Partitioned(q, t) <==>
      forall i :: 0 <= i < |q| ==> (i < Expired(kind, q, t) <==> q[i].lastUsed <= t)
  {
    var k := Expired(kind, q, t);
    if Partitioned(q, t) {
      forall i | 0 <= i < |q| ensures i < k <==> q[i].lastUsed <= t {
        if i < k - 1 {
          assert q[k - 1].lastUsed <= t;
        } else if k < i && 0 < k {
          assert t < q[k].lastUsed;
        } else if k == 0 && 0 < i {
          assert t < q[0].lastUsed;
        }
      }
    }
  }

  lemma SortedIsPartitioned(q: seq<Worker>, t: int)
    requires Sorted(q)
    ensures Partitioned(q, t)
  {
  }

  lemma ExpiredAsSets(kind: Kind, q: seq<Worker>, t: int)
    requires Sorted(q)
    ensures var k := Expired(kind, q, t);
      && (forall w :: w in q[..k] <==> w in q && w.lastUsed <= t)
      && (forall w :: w in q[k..] <==> w in q && w.lastUsed > t)
  {
    var k := Expired(kind, q, t);
    SortedIsPartitioned(q, t);
    ExpiredIsExact(kind, q, t);
    forall w | w in q && w.lastUsed <= t ensures w in q[..k] {
      var i :| 0 <= i < |q| && q[i] == w;
      assert q[..k][i] == w;
    }
    forall w | w in q && w.lastUsed > t ensures w in q[k..] {
      var i :| 0 <= i < |q| && q[i] == w;
      assert q[k..][i - k] == w;
    }
  }

  /** ... and then the two implementations remove the same workers. */
  lemma ExpiredAgree(size: nat, q: seq<Worker>, t: int)
    requires Partitioned(q, t)
    ensures Expired(Ring(size), q, t) == Expired(Stack, q, t)
  {
    ExpiredIsExact(Ring(size), q, t);
    ExpiredIsExact(Stack, q, t);
  }

  /** The order in which a ring hands over an expired prefix whose first `split` workers sit at the
      end of the backing storage: the segment that starts at index zero comes first. */
  function Handed(q: seq<Worker>, k: nat, split: nat): (expired: seq<Worker>)
    requires split <= k <= |q|
    ensures |expired| == k
  {
    q[split..k] + q[..split]
  }

  /** Every worker of the prefix comes as far forward as `split` says, the first `split` of them excepted,
      which follow the others. */
  lemma HandedRotates(q: seq<Worker>, k: nat, split: nat, i: nat)
    requires split <= k <= |q| && i < k
    ensures Handed(q, k, split)[if i < split then i + (k - split) else i - split] == q[i]
  {
    if i < split {
      assert (q[split..k] + q[..split])[i + (k - split)] == q[..split][i];
    }
  }

  /** In whatever order, a ring hands over the same workers as a stack. */
  lemma HandedIsTheSame(q: seq<Worker>, k: nat, split: nat)
    requires split <= k <= |q|
    ensures multiset(Handed(q, k, split)) == multiset(q[..k])
  {
    assert q[..k] == q[..split] + q[split..k];
  }

  // ----- Counting a worker ---------------------------------------------------------------------

  /** How often the worker with this identity occurs. */
  ghost function Occurs(q: seq<Worker>, id: nat): (n: nat)
    ensures n > 0 ==> exists i :: 0 <= i < |q| && q[i].id == id
  {
    if q == [] then 0 else (if q[0].id == id then 1 else 0) + Occurs(q[1..], id)
  }

  lemma {:induction false} OccursConcat(a: seq<Worker>, b: seq<Worker>, id: nat)
    ensures Occurs(a + b, id) == Occurs(a, id) + Occurs(b, id)
  {
    if a == [] {
      assert a + b == b;
    } else {
      assert (a + b)[1..] == a[1..] + b;
      OccursConcat(a[1..], b, id);
    }
  }

  lemma OccursSplit(q: seq<Worker>, k: nat, id: nat)
    requires k <= |q|
    ensures Occurs(q, id) == Occurs(q[..k], id) + Occurs(q[k..], id)
  {
    assert q == q[..k] + q[k..];
    OccursConcat(q[..k], q[k..], id);
  }

  lemma OccursInserted(kind: Kind, q: seq<Worker>, w: Worker, id: nat)
    ensures Occurs(Inserted(kind, q, w), id)
         == Occurs(q, id) + if !Full(kind, q) && w.id == id then 1 else 0
  {
    OccursConcat(q, [w], id);
  }

  lemma OccursDetached(kind: Kind, q: seq<Worker>, id: nat)
    requires q != []
    ensures Occurs(q, id) == Occurs(Detached(kind, q), id) + if Next(kind, q).id == id then 1 else 0
  {
    OccursSplit(q, |q| - 1, id);
    assert q[|q| - 1..] == [q[|q| - 1]];
  }

  lemma OccursHanded(q: seq<Worker>, k: nat, split: nat, id: nat)
    requires split <= k <= |q|
    ensures Occurs(q, id) == Occurs(Handed(q, k, split), id) + Occurs(q[k..], id)
  {
    OccursSplit(q, k, id);
    OccursConcat(q[split..k], q[..split], id);
    OccursSplit(q[..k], split, id);
    assert q[..k][..split] == q[..split] && q[..k][split..] == q[split..k];
  }

  lemma {:induction false} OccursAt(q: seq<Worker>, i: nat)
    requires i < |q|
    ensures Occurs(q, q[i].id) >= 1
  {
    if i > 0 {
      OccursAt(q[1..], i - 1);
    }
  }

  lemma {:induction false} OccursTwice(q: seq<Worker>, i: nat, j: nat)
    requires i < j < |q| && q[i].id == q[j].id
    ensures Occurs(q, q[i].id) >= 2
  {
    if i == 0 {
      OccursAt(q[1..], j - 1);
    } else {
      OccursTwice(q[1..], i - 1, j - 1);
    }
  }

  // ----- Whole runs of a queue -----------------------------------------------------------------

  datatype Op = Insert(w: Worker) | Detach | Refresh(expiry: int) | Reset

  /** The contents after one operation. */
  function After(kind: Kind, q: seq<Worker>, op: Op): seq<Worker> {
    match op
    case Insert(w) => Inserted(kind, q, w)
    case Detach => if q == [] then q else Detached(kind, q)
    case Refresh(t) => q[Expired(kind, q, t)..]
    case Reset => []
  }

  /** What one operation hands out, oldest first. */
  function Out(kind: Kind, q: seq<Worker>, op: Op): seq<Worker> {
    match op
    case Insert(_) => []
    case Detach => if q == [] then [] else [Next(kind, q)]
    case Refresh(t) => q[..Expired(kind, q, t)]
    case Reset => q
  }

  /** What one operation takes in: nothing when a full ring refuses. */
  function In(kind: Kind, q: seq<Worker>, op: Op): seq<Worker> {
    if op.Insert? && !Full(kind, q) then [op.w] else []
  }

  function RunAfter(kind: Kind, q: seq<Worker>, ops: seq<Op>): seq<Worker>
    decreases |ops|
  {
    if ops == [] then q else RunAfter(kind, After(kind, q, ops[0]), ops[1..])
  }

  function RunOut(kind: Kind, q: seq<Worker>, ops: seq<Op>): seq<Worker>
    decreases |ops|
  {
    if ops == [] then [] else Out(kind, q, ops[0]) + RunOut(kind, After(kind, q, ops[0]), ops[1..])
  }

  function RunIn(kind: Kind, q: seq<Worker>, ops: seq<Op>): seq<Worker>
    decreases |ops|
  {
    if ops == [] then [] else In(kind, q, ops[0]) + RunIn(kind, After(kind, q, ops[0]), ops[1..])
  }

  /** A ring is first-in-first-out over every run: what came out followed by what is left is what
      was there followed by what was accepted, in order. */
  lemma {:induction false} RingIsFifo(size: nat, q: seq<Worker>, ops: seq<Op>)
    ensures RunOut(Ring(size), q, ops) + RunAfter(Ring(size), q, ops) == q + RunIn(Ring(size), q, ops)
    decreases |ops|
  {
    if ops != [] {
      var kind := Ring(size);
      var q1 := After(kind, q, ops[0]);
      RingStep(size, q, ops[0]);
      RingIsFifo(size, q1, ops[1..]);
      Spliced(Out(kind, q, ops[0]), q1, q, In(kind, q, ops[0]),
              RunOut(kind, q1, ops[1..]), RunAfter(kind, q1, ops[1..]), RunIn(kind, q1, ops[1..]));
    }
  }

  lemma RingStep(size: nat, q: seq<Worker>, op: Op)
    ensures Out(Ring(size), q, op) + After(Ring(size), q, op) == q + In(Ring(size), q, op)
  {
  }

  lemma Spliced(out: seq<Worker>, mid: seq<Worker>, start: seq<Worker>, taken: seq<Worker>,
                outs: seq<Worker>, end: seq<Worker>, takens: seq<Worker>)
    requires out + mid == start + taken && outs + end == mid + takens
    ensures (out + outs) + end == start + (taken + takens)
  {
    calc {
      (out + outs) + end;
      { Associates(out, outs, end); }
      out + (mid + takens);
      { Associates(out, mid, takens); }
      (start + taken) + takens;
      { Associates(start, taken, takens); }
      start + (taken + takens);
    }
  }

  lemma Associates<T>(a: seq<T>, b: seq<T>, c: seq<T>)
    ensures (a + b) + c == a + (b + c)
  {
  }

  /** Insertions and detachments that never take more than `above` workers and what they bring, and leave
      none of these. */
  ghost predicate Balanced(ops: seq<Op>, above: nat)
    decreases |ops|
  {
    if ops == [] then above == 0
    else
      match ops[0]
      case Insert(_) => Balanced(ops[1..], above + 1)
      case Detach => above > 0 && Balanced(ops[1..], above - 1)
      case _ => false
  }

  /** A stack serves such operations from the top: they take the workers above `q` and leave `q`, and what
      they hand out does not depend on `q`. */
  lemma {:induction false} StackServesFromTheTop(q: seq<Worker>, top: seq<Worker>, ops: seq<Op>)
    requires Balanced(ops, |top|)
    ensures RunAfter(Stack, q + top, ops) == q
    ensures RunOut(Stack, q + top, ops) == RunOut(Stack, top, ops)
    decreases |ops|
  {
    if ops == [] {
      assert q + top == q;
    } else {
      TopStep(q, top, ops[0]);
      StackServesFromTheTop(q, After(Stack, top, ops[0]), ops[1..]);
    }
  }

  lemma TopStep(q: seq<Worker>, top: seq<Worker>, op: Op)
    requires op.Insert? || (op.Detach? && top != [])
    ensures After(Stack, q + top, op) == q + After(Stack, top, op)
    ensures Out(Stack, q + top, op) == Out(Stack, top, op)
    ensures |After(Stack, top, op)| == if op.Insert? then |top| + 1 else |top| - 1
  {
    if op.Insert? {
      assert (q + top) + [op.w] == q + (top + [op.w]);
    } else {
      assert (q + top)[..|q + top| - 1] == q + top[..|top| - 1];
    }
  }

  /** A stack is last-in-first-out over every run: after a worker has been inserted and any balanced
      insertions and detachments have been made, a detachment hands out that worker and leaves what was
      there before it. */
  lemma StackIsLifo(q: seq<Worker>, w: Worker, ops: seq<Op>)
    requires Balanced(ops, 0)
    ensures var run := [Insert(w)] + ops + [Detach];
      && RunOut(Stack, q, run) == RunOut(Stack, [], ops) + [w]
      && RunAfter(Stack, q, run) == q
  {
    var q1 := q + [w];
    StackServesFromTheTop(q1, [], ops);
    assert q1 + [] == q1;
    var run := [Insert(w)] + ops + [Detach];
    assert run[0] == Insert(w) && run[1..] == ops + [Detach];
    RunOfTwo(Stack, q1, ops, [Detach]);
    assert RunOut(Stack, q1, [Detach]) == [w] && RunAfter(Stack, q1, [Detach]) == q;
  }

  lemma {:induction false} RunOfTwo(kind: Kind, q: seq<Worker>, ops: seq<Op>, more: seq<Op>)
    ensures RunAfter(kind, q, ops + more) == RunAfter(kind, RunAfter(kind, q, ops), more)
    ensures RunOut(kind, q, ops + more) == RunOut(kind, q, ops) + RunOut(kind, RunAfter(kind, q, ops), more)
    decreases |ops|
  {
    if ops == [] {
      assert ops + more == more;
    } else {
      var q1 := After(kind, q, ops[0]);
      assert (ops + more)[0] == ops[0] && (ops + more)[1..] == ops[1..] + more;
      RunOfTwo(kind, q1, ops[1..], more);
      hide Out, After;
      Associates(Out(kind, q, ops[0]), RunOut(kind, q1, ops[1..]), RunOut(kind, RunAfter(kind, q1, ops[1..]), more));
    }
  }

  /** Neither queue loses or duplicates a worker over any run, sorted or not. */
  lemma {:induction false} RunConserves(kind: Kind, q: seq<Worker>, ops: seq<Op>)
    ensures multiset(RunOut(kind, q, ops)) + multiset(RunAfter(kind, q, ops))
         == multiset(q) + multiset(RunIn(kind, q, ops))
    decreases |ops|
  {
    if ops != [] {
      var q1 := After(kind, q, ops[0]);
      StepConserves(kind, q, ops[0]);
      RunConserves(kind, q1, ops[1..]);
      Chained(multiset(Out(kind, q, ops[0])), multiset(q1), multiset(q), multiset(In(kind, q, ops[0])),
              multiset(RunOut(kind, q1, ops[1..])), multiset(RunAfter(kind, q1, ops[1..])),
              multiset(RunIn(kind, q1, ops[1..])));
    }
  }

  lemma Chained(out: multiset<Worker>, mid: multiset<Worker>, start: multiset<Worker>, taken: multiset<Worker>,
                outs: multiset<Worker>, end: multiset<Worker>, takens: multiset<Worker>)
    requires out + mid == start + taken && outs + end == mid + takens
    ensures (out + outs) + end == start + (taken + takens)
  {
    forall w: Worker ensures ((out + outs) + end)[w] == (start + (taken + takens))[w] {
      assert (out + mid)[w] == (start + taken)[w];
      assert (outs + end)[w] == (mid + takens)[w];
    }
  }

  lemma StepConserves(kind: Kind, q: seq<Worker>, op: Op)
    ensures multiset(Out(kind, q, op)) + multiset(After(kind, q, op)) == multiset(q) + multiset(In(kind, q, op))
  {
    match op
    case Insert(w) =>
    case Detach => DetachConserves(kind, q);
    case Refresh(t) => assert q == q[..Expired(kind, q, t)] + q[Expired(kind, q, t)..];
    case Reset =>
  }

  lemma DetachConserves(kind: Kind, q: seq<Worker>)
    ensures q != [] ==> multiset(q) == multiset([Next(kind, q)]) + multiset(Detached(kind, q))
  {
    if q != [] && kind.Ring? {
      assert q == [q[0]] + q[1..];
    } else if q != [] {
      assert q == q[..|q| - 1] + [q[|q| - 1]];
    }
  }

  lemma {:induction false} RunBounded(size: nat, q: seq<Worker>, ops: seq<Op>)
    requires |q| <= size
    ensures |RunAfter(Ring(size), q, ops)| <= size
    decreases |ops|
  {
    if ops != [] {
      RunBounded(size, After(Ring(size), q, ops[0]), ops[1..]);
    }
  }

  /** Every stamp in the queue is at most `newest`, and inserts arrive with stamps that never go
      back. */
  ghost predicate Arriving(ops: seq<Op>, newest: int) {
    ops == [] ||
    if ops[0].Insert? then newest <= ops[0].w.lastUsed && Arriving(ops[1..], ops[0].w.lastUsed)
    else Arriving(ops[1..], newest)
  }

  ghost predicate UpTo(q: seq<Worker>, newest: int) {
    forall i :: 0 <= i < |q| ==> q[i].lastUsed <= newest
  }

  /** With such stamps the queue is sorted after every run, on either implementation. */
  lemma {:induction false} RunStaysSorted(kind: Kind, q: seq<Worker>, ops: seq<Op>, newest: int)
    requires Sorted(q) && UpTo(q, newest) && Arriving(ops, newest)
    ensures Sorted(RunAfter(kind, q, ops))
    decreases |ops|
  {
    if ops != [] {
      var q1 := After(kind, q, ops[0]);
      RunStaysSorted(kind, q1, ops[1..], if ops[0].Insert? then ops[0].w.lastUsed else newest);
    }
  }

  /** Hence a refresh at the end of such a run removes exactly the workers last used at or before
      the expiry time and keeps exactly the others. */
  lemma RefreshAfterRun(kind: Kind, ops: seq<Op>, newest: int, t: int)
    requires Arriving(ops, newest)
    ensures var q := RunAfter(kind, [], ops);
      && (forall w :: w in Out(kind, q, Refresh(t)) <==> w in q && w.lastUsed <= t)
      && (forall w :: w in After(kind, q, Refresh(t)) <==> w in q && w.lastUsed > t)
  {
    RunStaysSorted(kind, [], ops, newest);
    ExpiredAsSets(kind, RunAfter(kind, [], ops), t);
  }
}
