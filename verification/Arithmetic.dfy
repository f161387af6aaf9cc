/** Facts about the Euclidean remainder. */
module Arithmetic {

  lemma ModUnique(a: int, q: int, r: int, n: int)
    requires 0 <= r < n && a == q * n + r
    ensures a % n == r
  {
    var q', r' := a / n, a % n;
    assert a == q' * n + r' && 0 <= r' < n;
    assert (q + 1) * n == q * n + n && (q' + 1) * n == q' * n + n;
    if q' > q {
      Scale(q + 1, q', n);
    } else if q' < q {
      Scale(q' + 1, q, n);
    }
  }

  lemma Scale(x: int, y: int, n: int)
    requires x <= y && 0 < n
    ensures x * n <= y * n
  {
    assert (y - x) * n >= 0;
  }

  /** Counting modulo `m`: the next remainder. */
  lemma NextRemainder(n: nat, m: nat)
    requires m > 0
    ensures (n + 1) % m == if n % m == m - 1 then 0 else n % m + 1
  {
    var q, r := n / m, n % m;
    if r == m - 1 {
      ModUnique(n + 1, q + 1, 0, m);
    } else {
      ModUnique(n + 1, q, r + 1, m);
    }
  }

  /** Less than one turn apart, only equal numbers have equal remainders. */
  lemma SameRemainder(a: nat, b: nat, m: nat)
    requires m > 0 && a <= b < a + m
    ensures a % m == b % m <==> a == b
  {
    if a % m == b % m {
      assert a == (a / m) * m + a % m && b == (b / m) * m + b % m;
      assert b - a == (b / m - a / m) * m;
      if b / m > a / m {
        Scale(1, b / m - a / m, m);
      }
    }
  }

  /** Equal remainders mean a difference of whole turns. */
  lemma Congruent(a: nat, b: nat, m: nat)
    requires m > 0 && a <= b
    ensures a % m == b % m <==> (b - a) % m == 0
  {
    var p, q, d := a / m, b / m, (b - a) / m;
    assert a == p * m + a % m && b == q * m + b % m && b - a == d * m + (b - a) % m;
    if a % m == b % m {
      assert b - a == (q - p) * m + 0;
      ModUnique(b - a, q - p, 0, m);
    } else if (b - a) % m == 0 {
      assert b == (p + d) * m + a % m;
      ModUnique(b, p + d, a % m, m);
    }
  }
}
