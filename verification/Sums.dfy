/** Sums of a weight over the values of a finite map.  The pool's counters (`running`, `waiting`,
    `parked`, ...) are each related to such a sum over the program counters of its threads. */
module Sums {

  ghost function Sum<K, V>(m: map<K, V>, weight: V -> nat): nat
  {
    if m == map[] then 0
    else
      var k :| k in m;
      weight(m[k]) + Sum(m - {k}, weight)
  }

  /** Any key may be taken out first, not only the one the definition happens to choose. */
  lemma {:induction false} SumRemove<K, V>(m: map<K, V>, k: K, weight: V -> nat)
    requires k in m
    ensures Sum(m, weight) == weight(m[k]) + Sum(m - {k}, weight)
    decreases |m|
  {
    var j :| j in m && Sum(m, weight) == weight(m[j]) + Sum(m - {j}, weight);
    if j != k {
      SumRemove(m - {j}, k, weight);
      SumRemove(m - {k}, j, weight);
      assert m - {j} - {k} == m - {k} - {j};
    }
  }

  /** Storing one entry changes the sum by the difference of the two weights. */
  lemma SumPut<K, V>(m: map<K, V>, k: K, v: V, weight: V -> nat)
    ensures Sum(m[k := v], weight) + (if k in m then weight(m[k]) else 0) == Sum(m, weight) + weight(v)
  {
    SumRemove(m[k := v], k, weight);
    assert m[k := v] - {k} == m - {k};
    if k in m {
      SumRemove(m, k, weight);
    } else {
      assert m - {k} == m;
    }
  }

  lemma SumAtLeast<K, V>(m: map<K, V>, k: K, weight: V -> nat)
    requires k in m
    ensures Sum(m, weight) >= weight(m[k])
  {
    SumRemove(m, k, weight);
  }

  /** A pointwise comparison of two weights carries over to the sums. */
  lemma {:induction false} SumCompare<K, V>(m: map<K, V>, low: V -> nat, high: V -> nat)
    requires forall k :: k in m ==> low(m[k]) <= high(m[k])
    ensures Sum(m, low) <= Sum(m, high)
    decreases |m|
  {
    if m != map[] {
      var k :| k in m;
      SumRemove(m, k, low);
      SumRemove(m, k, high);
      SumCompare(m - {k}, low, high);
    }
  }

  lemma {:induction false} SumZero<K, V>(m: map<K, V>, weight: V -> nat)
    requires forall k :: k in m ==> weight(m[k]) == 0
    ensures Sum(m, weight) == 0
    decreases |m|
  {
    if m != map[] {
      var k :| k in m;
      SumRemove(m, k, weight);
      SumZero(m - {k}, weight);
    }
  }

  /** A positive sum has a witness. */
  lemma SumPositive<K, V>(m: map<K, V>, weight: V -> nat) returns (k: K)
    requires Sum(m, weight) > 0
    ensures k in m && weight(m[k]) > 0
  {
    if forall j :: j in m ==> weight(m[j]) == 0 {
      SumZero(m, weight);
      assert false;
    }
    k :| k in m && weight(m[k]) > 0;
  }

  /** Distinct keys of positive weight are at most as many as the sum. */
  lemma {:induction false} SumBoundsKeys<K, V>(keys: seq<K>, m: map<K, V>, weight: V -> nat)
    requires forall i :: 0 <= i < |keys| ==> keys[i] in m && weight(m[keys[i]]) >= 1
    requires forall i, j :: 0 <= i < j < |keys| ==> keys[i] != keys[j]
    ensures |keys| <= Sum(m, weight)
  {
    if keys != [] {
      SumRemove(m, keys[0], weight);
      SumBoundsKeys(keys[1..], m - {keys[0]}, weight);
    }
  }

  /** The keys whose values satisfy a predicate. */
  ghost function Where<K, V>(m: map<K, V>, counted: V -> bool): set<K> {
    set k | k in m && counted(m[k])
  }

  /** A sum of zeros and ones counts the entries that weigh one. */
  lemma {:induction false} SumCounts<K, V>(m: map<K, V>, weight: V -> nat, counted: V -> bool)
    requires forall k :: k in m ==> weight(m[k]) == if counted(m[k]) then 1 else 0
    ensures Sum(m, weight) == |Where(m, counted)|
    decreases |m|
  {
    if m == map[] {
      assert Where(m, counted) == {};
    } else {
      var k :| k in m;
      SumRemove(m, k, weight);
      SumCounts(m - {k}, weight, counted);
      var rest := Where(m - {k}, counted);
      assert Where(m, counted) == if counted(m[k]) then rest + {k} else rest;
    }
  }

  /** A sum of at most one leaves room for one positive entry only. */
  lemma SumUnique<K, V>(m: map<K, V>, j: K, k: K, weight: V -> nat)
    requires j in m && k in m && weight(m[j]) > 0 && weight(m[k]) > 0 && Sum(m, weight) <= 1
    ensures j == k
  {
    SumRemove(m, j, weight);
    if j != k {
      SumRemove(m - {j}, k, weight);
    }
  }
}
