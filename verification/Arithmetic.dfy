/** Integer quotients: the few facts the solver does not find by itself. */
module Arithmetic {
  lemma MulAtLeast(d: nat, k: int)
    requires k >= 1
    ensures d * k >= d
  {
  }

  function Quotient(n: nat, d: nat): nat
    requires d >= 1
  {
    n / d
  }

  /** Quotient and remainder are unique. */
  lemma QuotientIs(n: int, d: int, q: int, r: int)
    requires d > 0 && n == d * q + r && 0 <= r < d
    ensures n / d == q
  {
    var k := q - n / d;
    assert n == d * (n / d) + n % d;
    assert d * k == d * q - d * (n / d);
    if k > 0 { MulAtLeast(d, k); }
  }

  lemma QuotientStep(n: int, d: int)
    requires d > 0
    ensures (n + d) / d == n / d + 1
  {
    assert n == d * (n / d) + n % d;
    assert d * (n / d + 1) == d * (n / d) + d;
    QuotientIs(n + d, d, n / d + 1, n % d);
  }

  lemma FactorAtMost(d: nat, x: int, y: int)
    requires d * x < d * y + d
    ensures x <= y
  {
    assert d * (x - y) == d * x - d * y;
    if x > y { MulAtLeast(d, x - y); }
  }
}
