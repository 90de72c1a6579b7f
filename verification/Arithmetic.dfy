/** Sums, and facts about products and remainders that the solver does not find
    alone. */
module Arithmetic {
  lemma MultipleAtLeast(d: int, w: int)
    requires d >= 1 && w > 0
    ensures d * w >= w
  {
  }

  lemma {:induction false} RemainderUnique(a: int, w: int, q: int, r: int)
    requires w > 0 && 0 <= r < w && a == q * w + r
    ensures a % w == r
  {
    var q', r' := a / w, a % w;
    assert a == q' * w + r';
    assert (q - q') * w == q * w - q' * w;
    assert (q' - q) * w == q' * w - q * w;
    if q > q' {
      MultipleAtLeast(q - q', w);
    } else if q < q' {
      MultipleAtLeast(q' - q, w);
    }
  }

  lemma RemainderAdd(a: nat, w: nat)
    requires w > 0
    ensures (a + w) % w == a % w
  {
    var q := a / w;
    assert a == q * w + a % w;
    assert (q + 1) * w == q * w + w;
    RemainderUnique(a + w, w, q + 1, a % w);
  }

  /** The sum of a list of integers. */
  function Sum(ns: seq<int>): int {
    if ns == [] then 0 else Sum(ns[..|ns| - 1]) + ns[|ns| - 1]
  }

  // ----- products of reals -----

  lemma Distribute(c: real, x: real, y: real, sum: real)
    requires sum == x + y
    ensures c * sum == c * x + c * y
  {
  }

  lemma NonNegativeProduct(x: real, y: real)
    requires x >= 0.0 && y >= 0.0
    ensures x * y >= 0.0
  {
  }

  lemma PositiveProduct(x: real, y: real)
    requires x > 0.0 && y > 0.0
    ensures x * y > 0.0
  {
  }

  /** Multiplying by a non-negative number keeps the order. */
  lemma ScaleMonotone(x: real, y: real, c: real)
    requires x <= y && c >= 0.0
    ensures c * x <= c * y
  {
    NonNegativeProduct(c, y - x);
    Distribute(c, y - x, x, y);
  }

  lemma ScaleStrictlyMonotone(x: real, y: real, c: real)
    requires x < y && c > 0.0
    ensures c * x < c * y
  {
    PositiveProduct(c, y - x);
    Distribute(c, y - x, x, y);
  }

  /** A fraction of a non-negative number. */
  lemma Shrinks(t: real, d: real)
    requires 0.0 <= t <= 1.0 && d >= 0.0
    ensures 0.0 <= t * d <= d
  {
    NonNegativeProduct(t, d);
    NonNegativeProduct(1.0 - t, d);
    Distribute(d, 1.0 - t, t, 1.0);
  }
}
