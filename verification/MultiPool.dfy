/** Several pools behind one front (src/multipool.rs). */
module MultiPools {
  import opened Wrappers
  import opened Arithmetic

  const TWO_TO_THE_32: nat := 0x1_0000_0000

  const I32_MAX: int := 0x7FFF_FFFF

  type Int32 = x: int | -0x8000_0000 <= x <= 0x7FFF_FFFF

  const ROUND_ROBIN := 2

  const LEAST_TASKS := 4

  // ----- Rotation ------------------------------------------------------------------------------

  /** The `j`-th ticket from ticket `first` on. */
  function Ticket(first: nat, j: nat): nat {
    (first + j) % TWO_TO_THE_32
  }

  /** How many of `k` consecutive numbers from `first` on leave remainder `i` modulo `n`. */
  function Hits(first: nat, k: nat, n: nat, i: nat): nat
    requires n > 0
  {
    if k == 0 then 0 else Hits(first, k - 1, n, i) + if (first + k - 1) % n == i then 1 else 0
  }

  /** How many of `k` consecutive tickets choose pool `i`. */
  function Share(first: nat, k: nat, n: nat, i: nat): nat
    requires n > 0
  {
    if k == 0 then 0 else Share(first, k - 1, n, i) + if Ticket(first, k - 1) % n == i then 1 else 0
  }

  /** Remainder `i` comes up first after `d` numbers and then every `n`. */
  lemma ComesUp(first: nat, k: nat, n: nat, i: nat)
    requires i < n
    ensures (first + k) % n == i <==> k % n == (i - first) % n
  {
    var d := (i - first) % n;
    var p, q := (i - first) / n, k / n;
    assert i - first == p * n + d;
    assert k == q * n + k % n;
    if k % n == d {
      assert first + k == (q - p) * n + i;
      ModUnique(first + k, q - p, i, n);
    }
    if (first + k) % n == i {
      var r := (first + k) / n;
      assert first + k == r * n + i;
      assert k == (r + p) * n + d;
      ModUnique(k, r + p, d, n);
    }
  }

  lemma Increments(k: nat, n: nat)
    requires n > 0
    ensures (k + 1) / n == k / n + if k % n == n - 1 then 1 else 0
  {
    NextRemainder(k, n);
    var a, b := (k + 1) / n, k / n;
    assert k + 1 == a * n + (k + 1) % n && k == b * n + k % n;
    if k % n == n - 1 {
      assert (a - b - 1) * n == 0;
    } else {
      assert (a - b) * n == 0;
    }
  }

  /** Consecutive numbers are dealt out evenly: each remainder comes up `k / n` times, and once more
      if it is among the first `k % n` in turn. */
  lemma {:induction false} EvenHits(first: nat, k: nat, n: nat, i: nat)
    requires i < n
    ensures Hits(first, k, n, i) == k / n + if (i - first) % n < k % n then 1 else 0
  {
    if k > 0 {
      EvenHits(first, k - 1, n, i);
      ComesUp(first, k - 1, n, i);
      Increments(k - 1, n);
      NextRemainder(k - 1, n);
    } else {
      ModUnique(0, 0, 0, n);
    }
  }

  /** As long as the cursor does not wrap, tickets are consecutive numbers ... */
  lemma {:induction false} ShareIsHits(first: nat, k: nat, n: nat, i: nat)
    requires i < n && first + k <= TWO_TO_THE_32
    ensures Share(first, k, n, i) == Hits(first, k, n, i)
  {
    if k > 0 {
      ShareIsHits(first, k - 1, n, i);
      ModUnique(first + k - 1, 0, first + k - 1, TWO_TO_THE_32);
    }
  }

  /** ... and across a wrap they are two runs of consecutive numbers. */
  lemma {:induction false} ShareSplits(first: nat, k: nat, n: nat, i: nat)
    requires i < n && first < TWO_TO_THE_32 <= first + k <= 2 * TWO_TO_THE_32
    ensures Share(first, k, n, i)
         == Hits(first, TWO_TO_THE_32 - first, n, i) + Hits(0, first + k - TWO_TO_THE_32, n, i)
  {
    if first + k == TWO_TO_THE_32 {
      ShareIsHits(first, k, n, i);
    } else {
      ShareSplits(first, k - 1, n, i);
      ModUnique(first + k - 1, 1, first + k - 1 - TWO_TO_THE_32, TWO_TO_THE_32);
    }
  }

  /** The cursor is one behind the next ticket. */
  lemma NextTicket(start: nat, k: nat, index: nat)
    requires index < TWO_TO_THE_32 && (index + 1) % TWO_TO_THE_32 == Ticket(start, k)
    ensures (Ticket(start, k) + 1) % TWO_TO_THE_32 == Ticket(start, k + 1)
  {
    NextRemainder(start + k, TWO_TO_THE_32);
    NextRemainder(Ticket(start, k), TWO_TO_THE_32);
    ModUnique(Ticket(start, k), 0, Ticket(start, k), TWO_TO_THE_32);
  }

  /** Tickets counted from a later one are later tickets. */
  lemma LaterTicket(start: nat, from: nat, j: nat)
    ensures Ticket(Ticket(start, from), j) == Ticket(start, from + j)
  {
    var x := start + from;
    var p, q := x / TWO_TO_THE_32, (x % TWO_TO_THE_32 + j) / TWO_TO_THE_32;
    var r := (x % TWO_TO_THE_32 + j) % TWO_TO_THE_32;
    assert x + j == (p + q) * TWO_TO_THE_32 + r;
    ModUnique(x + j, p + q, r, TWO_TO_THE_32);
  }

  function Distance(a: int, b: int): nat {
    if a < b then b - a else a - b
  }

  /** Round robin is fair: any `k` consecutive tickets give any two pools shares that differ by at
      most one if the cursor does not wrap, by at most two across one wrap, and still by at most one
      if the number of pools divides the range of the cursor. */
  lemma RotationIsFair(first: nat, k: nat, n: nat, i: nat, j: nat)
    requires i < n && j < n && first < TWO_TO_THE_32 && first + k <= 2 * TWO_TO_THE_32
    ensures Distance(Share(first, k, n, i), Share(first, k, n, j)) <= 2
    ensures first + k <= TWO_TO_THE_32 || TWO_TO_THE_32 % n == 0 ==>
      Distance(Share(first, k, n, i), Share(first, k, n, j)) <= 1
  {
    if first + k <= TWO_TO_THE_32 {
      ShareIsHits(first, k, n, i);
      ShareIsHits(first, k, n, j);
      EvenHits(first, k, n, i);
      EvenHits(first, k, n, j);
    } else {
      var k1, k2 := TWO_TO_THE_32 - first, first + k - TWO_TO_THE_32;
      ShareSplits(first, k, n, i);
      ShareSplits(first, k, n, j);
      EvenHits(first, k1, n, i);
      EvenHits(first, k1, n, j);
      EvenHits(0, k2, n, i);
      EvenHits(0, k2, n, j);
      if TWO_TO_THE_32 % n == 0 {
        ShareWrapsEvenly(first, k, n, i);
        ShareWrapsEvenly(first, k, n, j);
        EvenHits(first, k, n, i);
        EvenHits(first, k, n, j);
      }
    }
  }

  /** If the number of pools divides the range of the cursor, a wrap goes unnoticed. */
  lemma {:induction false} ShareWrapsEvenly(first: nat, k: nat, n: nat, i: nat)
    requires i < n && TWO_TO_THE_32 % n == 0
    ensures Share(first, k, n, i) == Hits(first, k, n, i)
  {
    if k > 0 {
      ShareWrapsEvenly(first, k - 1, n, i);
      RemainderOfRemainder(first + k - 1, TWO_TO_THE_32, n);
    }
  }

  lemma RemainderOfRemainder(x: nat, m: nat, n: nat)
    requires n > 0 && m > 0 && m % n == 0
    ensures (x % m) % n == x % n
  {
    var p, q, y := x / m, m / n, x % m;
    assert x == p * m + y && m == q * n && y == (y / n) * n + y % n;
    Multiples(p, q, y / n, n);
    ModUnique(x, p * q + y / n, y % n, n);
  }

  lemma Multiples(p: int, q: int, r: int, n: int)
    ensures p * (q * n) + r * n == (p * q + r) * n
  {
  }

  /** Three pools: the two tickets around a wrap both choose pool 0. */
  lemma WrapMayFavourAPool()
    ensures Share(TWO_TO_THE_32 - 1, 2, 3, 0) == 2 && Share(TWO_TO_THE_32 - 1, 2, 3, 1) == 0
  {
    assert Share(TWO_TO_THE_32 - 1, 1, 3, 0) == 1;
    assert Share(TWO_TO_THE_32 - 1, 1, 3, 1) == 0;
  }

  // ----- The pool with the fewest running workers ----------------------------------------------

  /** Index of the first smallest entry. */
  ghost predicate IsFirstLeast(running: seq<Int32>, index: int) {
    && 0 <= index < |running|
    && (forall i :: 0 <= i < |running| ==> running[index] <= running[i])
    && (forall i :: 0 <= i < index ==> running[index] < running[i])
  }

  /** The `k`-th answer of a pool; a pool with no answer left takes the argument. */
  function Answer(answers: seq<Option<Error>>, k: nat): Result<()> {
    if k < |answers| && answers[k].Some? then Err(answers[k].value) else Ok(())
  }

  /** The answers that are left when pool `i` has been asked once more. */
  function Asked(answers: seq<seq<Option<Error>>>, i: int): (left: seq<seq<Option<Error>>>)
    ensures |left| == |answers|
    ensures forall j :: 0 <= j < |left| && j != i ==> left[j] == answers[j]
  {
    if 0 <= i < |answers| && answers[i] != [] then answers[i := answers[i][1..]] else answers
  }

  /** Every failure once, with the index of its pool, in index order. */
  ghost predicate ListsFailures(failures: seq<(nat, Error)>, outcomes: seq<Option<Error>>) {
    && (forall k :: 0 <= k < |failures| ==> failures[k].0 < |outcomes| && outcomes[failures[k].0] == Some(failures[k].1))
    && (forall i :: 0 <= i < |outcomes| && outcomes[i].Some? ==> (i, outcomes[i].value) in failures)
    && (forall k, l :: 0 <= k < l < |failures| ==> failures[k].0 < failures[l].0)
  }

  function Joined(failures: seq<(nat, Error)>, outcomes: seq<Option<Error>>, i: nat): (joined: seq<(nat, Error)>)
    requires i < |outcomes| && ListsFailures(failures, outcomes[..i])
    ensures ListsFailures(joined, outcomes[..i + 1])
  {
    match outcomes[i]
    case None => failures
    case Some(error) => failures + [(i, error)]
  }

  method Collect(outcomes: seq<Option<Error>>) returns (r: Result<()>)
    ensures if r.Ok? then forall i :: 0 <= i < |outcomes| ==> outcomes[i] == None
            else r.error.Pools? && r.error.failures != [] && ListsFailures(r.error.failures, outcomes)
  {
    var failures: seq<(nat, Error)> := [];
    for i := 0 to |outcomes|
      invariant ListsFailures(failures, outcomes[..i])
    {
      failures := Joined(failures, outcomes, i);
    }
    assert outcomes[..|outcomes|] == outcomes;
    r := if failures == [] then Ok(()) else Err(Pools(failures));
  }

  // ----- The pools -----------------------------------------------------------------------------

  /** A pool as the multi-pool sees it. */
  class Pool {
    var open: bool
    var accepted: seq<nat>
    // how it will answer the next arguments: `None` takes one
    var answers: seq<Option<Error>>

    constructor ()
      ensures open && accepted == []
    {
      open, accepted, answers := true, [], [];
    }

    method Deliver(argument: nat) returns (r: Result<()>)
      modifies this
      ensures r == if old(answers) == [] || old(answers[0]) == None then Ok(()) else Err(old(answers[0].value))
      ensures accepted == if r.Ok? then old(accepted) + [argument] else old(accepted)
      ensures answers == (if old(answers) == [] then [] else old(answers[1..])) && open == old(open)
    {
      if answers != [] {
        var answer := answers[0];
        answers := answers[1..];
        if answer.Some? {
          return Err(answer.value);
        }
      }
      accepted := accepted + [argument];
      r := Ok(());
    }

    method Release()
      modifies this
      ensures !open && accepted == old(accepted) && answers == old(answers)
    {
      open := false;
    }

    method Reboot()
      modifies this
      ensures open && accepted == old(accepted) && answers == old(answers)
    {
      open := true;
    }
  }

  class MultiPoolCore {
    var pools: seq<Pool>
    var index: nat
    var open: bool
    var lbs: int
    // the first ticket since the cursor was set, and the pools chosen in rotation since
    ghost var start: nat
    ghost var dealt: seq<int>

    ghost predicate Valid()
      reads this
    {
      && 0 < |pools| <= I32_MAX && index < TWO_TO_THE_32
      && start < TWO_TO_THE_32 && (index + 1) % TWO_TO_THE_32 == Ticket(start, |dealt|)
      && (forall j :: 0 <= j < |dealt| ==> dealt[j] == Ticket(start, j) % |pools|)
      && (lbs == ROUND_ROBIN || lbs == LEAST_TASKS)
      && forall i, j :: 0 <= i < j < |pools| ==> pools[i] != pools[j]
    }

    ghost function Accepted(): seq<seq<nat>>
      reads this`pools, pools
    {
      var ps := pools;
      seq(|ps|, i requires 0 <= i < |ps| reads ps => ps[i].accepted)
    }

    ghost function Answers(): (answers: seq<seq<Option<Error>>>)
      reads this`pools, pools
      ensures |answers| == |pools|
    {
      var ps := pools;
      seq(|ps|, i requires 0 <= i < |ps| reads ps => ps[i].answers)
    }

    constructor (ps: seq<Pool>, strategy: int)
      requires 0 < |ps| <= I32_MAX && (strategy == ROUND_ROBIN || strategy == LEAST_TASKS)
      requires forall i, j :: 0 <= i < j < |ps| ==> ps[i] != ps[j]
      ensures Valid() && pools == ps && lbs == strategy && open && index == 0xFFFF_FFFF
      ensures start == 0 && dealt == []
    {
      pools, lbs, open, index := ps, strategy, true, TWO_TO_THE_32 - 1;
      start, dealt := 0, [];
    }

    /** The next ticket in rotation, the first least loaded pool, or -1 for an unknown strategy.
        `loads` is what the pools answer, each when the scan comes to it, on how many workers they run. */
    method Next(strategy: int, loads: seq<Int32>) returns (choice: int)
      requires Valid() && |loads| == |pools|
      modifies this`index, this`dealt
      ensures Valid() && dealt == if strategy == ROUND_ROBIN then old(dealt) + [choice] else old(dealt)
      ensures strategy == ROUND_ROBIN ==> index == Ticket(old(index), 1) && choice == index % |pools|
      // the cursor is an unsigned 32-bit number, and 2 stands for rotation
      ensures strategy == 2 ==> index == if old(index) == 0xFFFF_FFFF then 0 else old(index) + 1
      ensures strategy != ROUND_ROBIN ==> index == old(index)
      ensures strategy == LEAST_TASKS ==> IsFirstLeast(loads, choice)
      ensures strategy == ROUND_ROBIN || strategy == LEAST_TASKS ==> 0 <= choice < |pools|
      ensures strategy != ROUND_ROBIN && strategy != LEAST_TASKS ==> choice == -1
    {
      if strategy == ROUND_ROBIN {
        NextTicket(start, |dealt|, index);
        NextRemainder(index, TWO_TO_THE_32);
        ModUnique(index, 0, index, TWO_TO_THE_32);
        index := (index + 1) % TWO_TO_THE_32;
        choice := index % |pools|;
        dealt := dealt + [choice];
        return;
      }
      if strategy == LEAST_TASKS {
        var least: Int32 := I32_MAX;
        choice := 0;
        for candidate := 0 to |pools|
          invariant index == old(index) && dealt == old(dealt) && 0 <= choice < |pools|
          invariant forall i :: 0 <= i < candidate ==> least <= loads[i]
          invariant least < I32_MAX ==>
            choice < candidate && least == loads[choice] && forall i :: 0 <= i < choice ==> least < loads[i]
          invariant least == I32_MAX ==> choice == 0
        {
          var running := loads[candidate];
          if running < least {
            least := running;
            choice := candidate;
          }
        }
        return;
      }
      choice := -1;
    }

    /** One delivery, as it shows in all pools. */
    method DeliverTo(choice: int, argument: nat) returns (r: Result<()>)
      requires Valid() && 0 <= choice < |pools|
      modifies pools
      ensures Valid() && r == Answer(old(Answers())[choice], 0)
      ensures Accepted() == if r.Ok? then old(Accepted())[choice := old(Accepted())[choice] + [argument]] else old(Accepted())
      ensures Answers() == Asked(old(Answers()), choice)
      ensures forall i :: 0 <= i < |pools| ==> pools[i].open == old(pools[i].open)
    {
      r := pools[choice].Deliver(argument);
      assert Answers() == Asked(old(Answers()), choice);
      if r.Ok? {
        assert Accepted() == old(Accepted())[choice := old(Accepted())[choice] + [argument]];
      } else {
        assert Accepted() == old(Accepted());
      }
    }

    /** Hands the argument to at most one pool: to the chosen one, or, if that one is overloaded and
        the pools take turns, to the one that then runs the fewest workers.  `loads` is what a scan
        before the first delivery finds, `later` what one after it finds. */
    method Dispatch(argument: nat, loads: seq<Int32>, later: seq<Int32>)
      returns (r: Result<()>, ghost first: int, ghost second: int)
      requires Valid() && |loads| == |later| == |pools|
      modifies this`index, this`dealt, pools
      ensures Valid() && pools == old(pools) && lbs == old(lbs) && open == old(open)
      ensures !open <==> first == -1
      ensures !open ==> r == Err(PoolClosed) && second == -1 && Accepted() == old(Accepted()) && index == old(index)
      // the pool asked first
      ensures open && lbs == ROUND_ROBIN ==> index == Ticket(old(index), 1) && first == index % |pools|
      ensures open && lbs == LEAST_TASKS ==> index == old(index) && IsFirstLeast(loads, first)
      // a second pool is asked exactly after an overload in rotation
      ensures open ==> 0 <= first < |pools| && -1 <= second < |pools|
      ensures open ==> (second >= 0 <==> lbs == ROUND_ROBIN && Answer(old(Answers())[first], 0) == Err(PoolOverload))
      ensures second >= 0 ==> IsFirstLeast(later, second)
      // nothing is delivered twice, and what is refused is delivered to nobody
      ensures open && r.Ok? ==>
        var taker := if second >= 0 then second else first;
        Accepted() == old(Accepted())[taker := old(Accepted())[taker] + [argument]]
      ensures r.Err? ==> Accepted() == old(Accepted())
      // the answer is that of the pool asked last, and nobody else is asked
      ensures open && second < 0 ==> r == Answer(old(Answers())[first], 0)
      ensures second >= 0 ==> r == Answer(old(Answers())[second], if second == first then 1 else 0)
      ensures Answers() == Asked(Asked(old(Answers()), first), second)
      ensures forall i :: 0 <= i < |pools| ==> pools[i].open == old(pools[i].open)
    {
      hide Accepted, Answers, IsFirstLeast;
      first, second := -1, -1;
      if !open {
        return Err(PoolClosed), -1, -1;
      }
      var choice := Next(lbs, loads);
      first := choice;
      r := DeliverTo(choice, argument);
      if r.Ok? {
        return;
      }
      if r.error != PoolOverload || lbs != ROUND_ROBIN {
        return;
      }
      choice := Next(LEAST_TASKS, later);
      second := choice;
      r := DeliverTo(choice, argument);
    }

    /** `outcomes` is how the release of each pool goes; what went wrong is reported in index order. */
    method ReleaseAll(outcomes: seq<Option<Error>>) returns (r: Result<()>)
      requires Valid() && |outcomes| == |pools|
      modifies this`open, pools
      ensures Valid() && !open && index == old(index) && Accepted() == old(Accepted())
      ensures !old(open) ==> r == Err(PoolClosed) && forall i :: 0 <= i < |pools| ==> pools[i].open == old(pools[i].open)
      ensures old(open) ==> forall i :: 0 <= i < |pools| ==> !pools[i].open
      ensures old(open) ==>
        if r.Ok? then forall i :: 0 <= i < |outcomes| ==> outcomes[i] == None
        else r.error.Pools? && r.error.failures != [] && ListsFailures(r.error.failures, outcomes)
    {
      if !open {
        return Err(PoolClosed);
      }
      open := false;
      for i := 0 to |pools|
        invariant Valid() && !open && index == old(index) && pools == old(pools)
        invariant forall j :: 0 <= j < i ==> !pools[j].open
        invariant forall j :: 0 <= j < |pools| ==> pools[j].accepted == old(pools[j].accepted)
      {
        pools[i].Release();
      }
      r := Collect(outcomes);
    }

    /** The cursor restarts at zero, so the first ticket after a reboot is 1, not 0. */
    method Reboot()
      requires Valid()
      modifies this`open, this`index, this`start, this`dealt, pools
      ensures Valid() && open && Accepted() == old(Accepted())
      ensures old(open) ==> index == old(index) && start == old(start) && dealt == old(dealt) && forall i :: 0 <= i < |pools| ==> pools[i].open == old(pools[i].open)
      ensures !old(open) ==> index == 0 && start == 1 && dealt == [] && forall i :: 0 <= i < |pools| ==> pools[i].open
    {
      if !open {
        open := true;
        index := 0;
        start, dealt := 1, [];
        for i := 0 to |pools|
          invariant Valid() && open && index == 0 && start == 1 && dealt == [] && pools == old(pools)
          invariant forall j :: 0 <= j < i ==> pools[j].open
          invariant forall j :: 0 <= j < |pools| ==> pools[j].accepted == old(pools[j].accepted)
        {
          pools[i].Reboot();
        }
      }
    }
  }

  /** `MultiPoolCore::new`; `outcomes` says how the creation of each pool goes.  If one fails, the
      pools made before it are released and nothing is returned but its error. */
  method New(size: int, lbs: int, outcomes: seq<Option<Error>>) returns (r: Result<MultiPoolCore>, ghost made: seq<Pool>)
    requires size <= |outcomes| && size <= I32_MAX
    ensures size <= 0 ==> r == Err(InvalidMultiPoolSize) && made == []
    ensures size > 0 && lbs != ROUND_ROBIN && lbs != LEAST_TASKS ==> r == Err(InvalidLoadBalancingStrategy) && made == []
    ensures size > 0 && (lbs == ROUND_ROBIN || lbs == LEAST_TASKS) ==>
      (r.Ok? <==> forall i :: 0 <= i < size ==> outcomes[i] == None)
    ensures r.Ok? ==> lbs == 2 || lbs == 4
    ensures r.Ok? ==>
      && fresh(r.value) && r.value.Valid() && r.value.pools == made && |made| == size
      && r.value.lbs == lbs && r.value.open && r.value.index == TWO_TO_THE_32 - 1
    ensures r.Ok? ==> forall p :: p in made ==> fresh(p) && p.open
    ensures r.Err? && size > 0 && (lbs == ROUND_ROBIN || lbs == LEAST_TASKS) ==>
      && |made| < size && outcomes[|made|] == Some(r.error)
      && (forall i :: 0 <= i < |made| ==> outcomes[i] == None)
      && forall p :: p in made ==> !p.open
  {
    made := [];
    if size <= 0 {
      return Err(InvalidMultiPoolSize), [];
    }
    if lbs != ROUND_ROBIN && lbs != LEAST_TASKS {
      return Err(InvalidLoadBalancingStrategy), [];
    }
    var pools: seq<Pool> := [];
    for i := 0 to size
      invariant |pools| == i && made == pools
      invariant forall j :: 0 <= j < i ==> outcomes[j] == None
      invariant forall j :: 0 <= j < i ==> fresh(pools[j]) && pools[j].open
      invariant forall j, k :: 0 <= j < k < i ==> pools[j] != pools[k]
    {
      match outcomes[i]
      case Some(error) =>
        for j := 0 to |pools|
          invariant forall k :: 0 <= k < |pools| ==> fresh(pools[k])
          invariant forall k :: 0 <= k < j ==> !pools[k].open
        {
          pools[j].Release();
        }
        return Err(error), pools;
      case None =>
        var pool := new Pool();
        pools := pools + [pool];
        made := pools;
    }
    var core := new MultiPoolCore(pools, lbs);
    return Ok(core), pools;
  }

  /** Of the choices a multi-pool has made, those from `from` on are the tickets whose shares are fair. */
  lemma {:induction false} DealtAsTickets(core: MultiPoolCore, from: nat, k: nat, i: nat)
    requires core.Valid() && from + k <= |core.dealt| && i < |core.pools|
    ensures multiset(core.dealt[from..from + k])[i] == Share(Ticket(core.start, from), k, |core.pools|, i)
  {
    if k > 0 {
      DealtAsTickets(core, from, k - 1, i);
      LaterTicket(core.start, from, k - 1);
      assert core.dealt[from..from + k] == core.dealt[from..from + k - 1] + [core.dealt[from + k - 1]];
    } else {
      assert core.dealt[from..from] == [];
    }
  }

  /** Any `k` choices in a row that a multi-pool has made in rotation since its cursor was set give two
      pools shares that differ by at most two, and by at most one if the cursor did not wrap among them
      or the number of pools divides its range. */
  lemma DealtFairly(core: MultiPoolCore, from: nat, k: nat, i: nat, j: nat)
    requires core.Valid() && from + k <= |core.dealt| && i < |core.pools| && j < |core.pools|
    requires Ticket(core.start, from) + k <= 2 * TWO_TO_THE_32
    ensures var row := multiset(core.dealt[from..from + k]);
      && Distance(row[i], row[j]) <= 2
      && (Ticket(core.start, from) + k <= TWO_TO_THE_32 || TWO_TO_THE_32 % |core.pools| == 0 ==> Distance(row[i], row[j]) <= 1)
  {
    DealtAsTickets(core, from, k, i);
    DealtAsTickets(core, from, k, j);
    RotationIsFair(Ticket(core.start, from), k, |core.pools|, i, j);
  }
}
