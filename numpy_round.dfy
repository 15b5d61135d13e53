/**
 * `np.round(x)` with no `decimals` argument: rounding to the nearest
 * integer, where a value exactly half-way between two integers goes to the
 * even one ("banker's rounding").
 */
module NumpyRound {

  /** `n` is the round-half-to-even value of `x`. */
  predicate IsRoundHalfEven(x: real, n: int) {
    var e := n as real - x;
    -0.5 <= e <= 0.5 && ((e == 0.5 || e == -0.5) ==> n % 2 == 0)
  }

  function RoundHalfEven(x: real): (n: int)
    ensures IsRoundHalfEven(x, n)
  {
    var f := x.Floor;
    var frac := x - f as real;
    if frac < 0.5 then f
    else if frac > 0.5 then f + 1
    else if f % 2 == 0 then f
    else f + 1
  }

  /** The characterisation above leaves exactly one answer. */
  lemma RoundHalfEvenUnique(x: real, n: int)
    requires IsRoundHalfEven(x, n)
    ensures n == RoundHalfEven(x)
  {
  }
}
