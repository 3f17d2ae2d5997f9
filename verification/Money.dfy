/** Money as integers. */
module Money {

  /** Conversion to an integer drops the fraction, towards zero. */
  function Truncate(x: real): int {
    if x >= 0.0 then x.Floor else -((-x).Floor)
  }

  function Abs(x: real): real { if x < 0.0 then -x else x }

  /** `n` is `x` without its fraction: no further from zero, by less than one, and on the same
      side of it. */
  predicate WithoutFraction(n: int, x: real) {
    && Abs(n as real) <= Abs(x) < Abs(n as real) + 1.0
    && (x >= 0.0 ==> n >= 0) && (x <= 0.0 ==> n <= 0)
  }

  /** That is what conversion does, and nothing else is. */
  lemma Truncates(x: real, n: int)
    ensures n == Truncate(x) <==> WithoutFraction(n, x)
  {
  }
}
