/**
  Exact rational arithmetic facts used by the curve proofs: the ceiling
  function, and how division and multiplication by a positive period length
  move bounds.  Each fact is stated on plain variables so that the solver
  proves it in isolation.
*/
module Arithmetic {

  /** The least integer not below x, the ceiling in v(t) = a * ceil(t / b). */
  function Ceil(x: real): (n: int)
    ensures (n - 1) as real < x <= n as real
  {
    -((-x).Floor)
  }

  lemma Cancel(p: real, q: real, d: real)
    requires d > 0.0 && p * d == q * d
    ensures p == q
  {
  }

  lemma QuotientStep(x: real, d: real)
    requires d > 0.0
    ensures (x - d) / d == x / d - 1.0
  {
    var p, q := (x - d) / d, x / d - 1.0;
    assert p * d == x - d;
    assert q * d == x / d * d - d;
    assert x / d * d == x;
    assert p * d == q * d;
    Cancel(p, q, d);
  }

  lemma QuotientNonNegative(x: real, d: real)
    requires d > 0.0 && x >= 0.0
    ensures x / d >= 0.0
  {
  }

  lemma QuotientMonotone(x: real, y: real, d: real)
    requires d > 0.0 && x <= y
    ensures x / d <= y / d
  {
  }

  lemma AtMostQuotient(x: real, m: real, d: real)
    requires d > 0.0 && x / d <= m
    ensures x <= m * d
  {
  }

  lemma BelowQuotient(x: real, m: real, d: real)
    requires d > 0.0 && m < x / d
    ensures m * d < x
  {
  }

  /** n copies of x added up: n * x without a product the solver must reason about. */
  function Multiple(n: nat, x: real): real
  {
    if n == 0 then 0.0 else Multiple(n - 1, x) + x
  }

  lemma {:induction false} MultipleIsProduct(n: nat, x: real)
    ensures Multiple(n, x) == (n as real) * x
  {
    if n > 0 {
      MultipleIsProduct(n - 1, x);
      DistributeSuccessor((n - 1) as real, x);
    }
  }

  lemma DistributeSuccessor(k: real, d: real)
    ensures (k + 1.0) * d == k * d + d
  {
  }

  lemma {:induction false} MultipleNonNegative(n: nat, x: real)
    requires x >= 0.0
    ensures Multiple(n, x) >= 0.0
  {
    if n > 0 {
      MultipleNonNegative(n - 1, x);
    }
  }

  lemma {:induction false} MultipleMonotone(m: nat, n: nat, x: real)
    requires m <= n && x >= 0.0
    ensures Multiple(m, x) <= Multiple(n, x)
    decreases n
  {
    if m < n {
      MultipleMonotone(m, n - 1, x);
    }
  }

  lemma CeilQuotientMonotone(s: real, t: real, d: real)
    requires d > 0.0 && s <= t
    ensures Ceil(s / d) <= Ceil(t / d)
  {
    QuotientMonotone(s, t, d);
  }
}
