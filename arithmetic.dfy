/** Facts about Euclidean division that the solver does not find alone. */
module Arithmetic {

  /** Division by a positive number has one quotient and one remainder. */
  lemma {:induction false} DivModUnique(i: int, n: int, q: int, m: int)
    requires n > 0 && 0 <= m < n && i == q * n + m
    ensures i / n == q && i % n == m
  {
    var q', m' := i / n, i % n;
    assert (q' - q) * n == m - m';
    MultipleBelowDivisor(q' - q, n);
  }

  /** The only multiple of n strictly between -n and n is 0. */
  lemma {:induction false} MultipleBelowDivisor(a: int, n: int)
    requires n > 0 && -n < a * n < n
    ensures a == 0
  {
    if a >= 1 {
      MultipleAtLeast(a, n);
    } else if a <= -1 {
      MultipleAtLeast(-a, n);
    }
  }

  lemma {:induction false} MultipleAtLeast(a: int, n: int)
    requires a >= 1 && n > 0
    ensures a * n >= n
    decreases a
  {
    if a > 1 {
      MultipleAtLeast(a - 1, n);
    }
  }

  /** Dividing an exact multiple gives the factor back. */
  lemma {:induction false} DivExact(k: int, p: int)
    requires p > 0
    ensures (k * p) / p == k && (k * p) % p == 0
  {
    DivModUnique(k * p, p, k, 0);
  }

  /** Multiplying by a non-negative number keeps the order. */
  lemma {:induction false} MulMonotone(a: int, b: int, n: int)
    requires a <= b && n >= 0
    ensures a * n <= b * n
  {
    assert b * n - a * n == (b - a) * n;
  }

  /** Products regroup. */
  lemma {:induction false} MulRegroup(a: int, b: int, c: int)
    ensures a * b * c == a * (b * c)
  {
  }

  /** Moving a start by r blocks of m units of b beats. */
  lemma {:induction false} ShiftedStart(a: int, r: int, m: int, b: int)
    ensures (a + r * m) * b == a * b + r * (m * b)
  {
    MulRegroup(r, m, b);
  }

  /** One more copy of n. */
  lemma {:induction false} MulSucc(a: int, n: int)
    ensures (a - 1) * n + n == a * n
  {
    assert a * n - (a - 1) * n == n * (a - (a - 1));
  }

  /** A number is its quotient times the divisor plus its remainder. */
  lemma {:induction false} DivModSplit(a: int, n: int)
    requires n > 0
    ensures a == (a / n) * n + a % n && 0 <= a % n < n
  {
  }

  /** The quotient of a natural number by a positive one is a natural number
      no larger than it. */
  lemma {:induction false} DivBounds(a: int, n: int)
    requires a >= 0 && n > 0
    ensures 0 <= a / n <= a
  {
    DivModSplit(a, n);
    if a / n < 0 {
      MulMonotone(a / n, -1, n);
    } else if a / n > a {
      MulMonotone(a + 1, a / n, n);
      MulMonotone(1, n, a + 1);
    }
  }
}
