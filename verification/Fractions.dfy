/** Numbers between nothing and one. */
module Fractions {

  predicate Unit(x: real) { 0.0 <= x <= 1.0 }

  lemma FactorNonNegative(x: real, d: real)
    requires d > 0.0 && x * d >= 0.0
    ensures x >= 0.0
  {
  }

  /** A part of a positive whole is a fraction of it. */
  lemma Share(n: real, d: real)
    requires d > 0.0 && 0.0 <= n <= d
    ensures d * (n / d) == n && Unit(n / d)
  {
    var x := n / d;
    assert x * d == n;
    FactorNonNegative(x, d);
    FactorNonNegative(1.0 - x, d);
  }
}
