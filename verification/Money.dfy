/** Amounts of money (dinars) and weights (kilograms) are exact reals. */
module Money {

  /**
   * JavaScript's `Math.round`: the nearest integer, halves rounded towards
   * positive infinity (`Math.round(2.5) == 3`, `Math.round(-2.5) == -2`).
   */
  function Round(x: real): (r: int)
    ensures r as real - 0.5 <= x < r as real + 0.5
  {
    (x + 0.5).Floor
  }

  /** The rounding contract pins the result down: only one integer satisfies it. */
  lemma RoundIsUnique(x: real, n: int)
    requires n as real - 0.5 <= x < n as real + 0.5
    ensures Round(x) == n
  {
  }

  lemma RoundMonotone(x: real, y: real)
    requires x <= y
    ensures Round(x) <= Round(y)
  {
  }

  lemma RoundOfInteger(n: int)
    ensures Round(n as real) == n
  {
    RoundIsUnique(n as real, n);
  }
}
