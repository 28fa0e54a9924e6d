/** Decimal quantization as `Decimal.quantize` performs it under the default context:
    rounding to a multiple of 10^-digits, halves going to the even neighbour. */
module Rounding {

  /** 10^n, the number of units of 10^-n in one. */
  function Pow10(n: nat): (p: real)
    ensures p >= 1.0
  {
    if n == 0 then 1.0 else 10.0 * Pow10(n - 1)
  }

  /** `k` is `y` rounded to an integer, halves to even. */
  predicate IsHalfEvenRounding(y: real, k: int) {
    -0.5 <= k as real - y <= 0.5 &&
    ((k as real - y == 0.5 || k as real - y == -0.5) ==> k % 2 == 0)
  }

  /** The number of units of 10^-digits that `x` quantizes to. */
  function RoundHalfEven(x: real, digits: nat): (k: int)
    ensures IsHalfEvenRounding(x * Pow10(digits), k)
  {
    var y := x * Pow10(digits);
    var f := y.Floor;
    var fraction := y - f as real;
    if fraction < 0.5 then f
    else if fraction > 0.5 then f + 1
    else if f % 2 == 0 then f
    else f + 1
  }

  /** Half-even rounding admits one result only, so `RoundHalfEven` is the rounding. */
  lemma RoundingIsUnique(y: real, k: int, j: int)
    requires IsHalfEvenRounding(y, k) && IsHalfEvenRounding(y, j)
    ensures k == j
  {
  }

  /** `x` is a whole number of units of 10^-digits. */
  predicate WholeUnits(x: real, digits: nat) {
    (x * Pow10(digits)).Floor as real == x * Pow10(digits)
  }

  /** `x` quantized to `digits` decimal places: a whole number of units of 10^-digits (the
      half-even rounding of `x` in those units), within half a unit of `x`. */
  function Quantize(x: real, digits: nat): (q: real)
    ensures q * Pow10(digits) == RoundHalfEven(x, digits) as real
    ensures WholeUnits(q, digits)
    ensures -0.5 <= (q - x) * Pow10(digits) <= 0.5
  {
    var p := Pow10(digits);
    var k := RoundHalfEven(x, digits);
    var units := k as real / p;
    assert units * p == k as real;
    assert (units - x) * p == k as real - x * p;
    units
  }
}
