/**
 * Real-number stand-ins for the JavaScript and Python numeric primitives the pricing code uses.
 *
 * Prices are `real`. The transcendental functions (`Math.exp`, `Math.log`, `Math.sqrt`,
 * `Math.erf`, `scipy.stats.norm.cdf`) are passed in as arrow-typed parameters, and the only
 * facts known about them are the axioms below, which the lemmas that need them take as
 * preconditions.
 */
module Numerics {

  /** The elementary functions a pricer calls. */
  datatype MathLib = MathLib(exp: real -> real, ln: real -> real, sqrt: real -> real)

  function Abs(x: real): real {
    if x < 0.0 then -x else x
  }

  function Min(a: int, b: int): int {
    if a < b then a else b
  }

  function Max(a: int, b: int): int {
    if a < b then b else a
  }

  // ---------------------------------------------------------------------------
  // Axioms about the abstract primitives

  /** `exp` is positive everywhere. */
  ghost predicate ExpPositive(exp: real -> real) {
    forall x :: exp(x) > 0.0
  }

  /** `exp(0) = 1`. */
  ghost predicate ExpZeroIsOne(exp: real -> real) {
    exp(0.0) == 1.0
  }

  /** `sqrt` vanishes exactly at 0 (for a negative argument JavaScript gives NaN, which is not 0). */
  ghost predicate SqrtZeroOnlyAtZero(sqrt: real -> real) {
    forall x :: sqrt(x) == 0.0 <==> x == 0.0
  }

  /** The symmetry of a cumulative distribution function: `Φ(x) + Φ(-x) = 1`. */
  ghost predicate CdfSymmetric(phi: real -> real) {
    forall x :: phi(x) + phi(-x) == 1.0
  }

  /** A cumulative distribution function takes values in [0, 1]. */
  ghost predicate CdfBounded(phi: real -> real) {
    forall x :: 0.0 <= phi(x) <= 1.0
  }

  /** `f` is an odd function, as the error function is. */
  ghost predicate Odd(f: real -> real) {
    forall x :: f(-x) == -f(x)
  }

  // ---------------------------------------------------------------------------
  // Number.prototype.toFixed, on exact reals

  function Pow10(n: nat): (r: real)
    ensures r >= 1.0
  {
    if n == 0 then 1.0 else 10.0 * Pow10(n - 1)
  }

  /** The integer nearest to `y`, the larger one on a tie. */
  function RoundHalfUp(y: real): int {
    (y + 0.5).Floor
  }

  /** `x` rounded to a multiple of `1 / scale`. The magnitude is rounded, ties away from zero. */
  function RoundToScale(x: real, scale: real): real
    requires scale > 0.0
  {
    if x < 0.0 then -((RoundHalfUp(-x * scale) as real) / scale)
    else (RoundHalfUp(x * scale) as real) / scale
  }

  /**
   * The value of `x.toFixed(digits)`: the magnitude is rounded to `digits` decimal places,
   * ties going away from zero, and the sign is put back afterwards.
   */
  function ToFixed(x: real, digits: nat): real {
    RoundToScale(x, Pow10(digits))
  }

  lemma RoundHalfUpError(y: real)
    ensures -0.5 < RoundHalfUp(y) as real - y <= 0.5
  {
  }

  lemma DivideBounds(e: real, scale: real)
    requires scale > 0.0 && -0.5 <= e <= 0.5
    ensures -0.5 / scale <= e / scale <= 0.5 / scale
  {
    assert (0.5 - e) / scale >= 0.0;
    assert (e + 0.5) / scale >= 0.0;
  }

  lemma RoundToScaleError(x: real, scale: real)
    requires scale > 0.0
    ensures Abs(RoundToScale(x, scale) - x) <= 0.5 / scale
  {
    var y := if x < 0.0 then -x else x;
    var n := RoundHalfUp(y * scale) as real;
    RoundHalfUpError(y * scale);
    DivideBounds(n - y * scale, scale);
    assert (n - y * scale) / scale == n / scale - y;
  }

  /** Rounding to `digits` places moves a number by at most half a unit in the last place. */
  lemma ToFixedError(x: real, digits: nat)
    ensures Abs(ToFixed(x, digits) - x) <= 0.5 / Pow10(digits)
  {
    RoundToScaleError(x, Pow10(digits));
  }

  /** An integer is its own nearest integer. */
  lemma RoundHalfUpOfInteger(n: int)
    ensures RoundHalfUp(n as real) == n
  {
    assert n as real <= n as real + 0.5 < (n + 1) as real;
  }

  /** Dividing by `scale` and multiplying back gives the number again. */
  lemma ScaleBack(y: real, scale: real)
    requires scale > 0.0
    ensures (y / scale) * scale == y
  {
  }

  /** A number that is not negative is rounded as it stands. */
  lemma RoundToScaleNonNegative(x: real, scale: real)
    requires scale > 0.0 && x >= 0.0
    ensures RoundToScale(x, scale) == (RoundHalfUp(x * scale) as real) / scale
  {
  }

  lemma RoundToScaleIdempotentNonNegative(x: real, scale: real)
    requires scale > 0.0 && x >= 0.0
    ensures RoundToScale(x, scale) >= 0.0
    ensures RoundToScale(RoundToScale(x, scale), scale) == RoundToScale(x, scale)
  {
    var n := RoundHalfUp(x * scale);
    assert n >= 0;
    var q := n as real / scale;
    RoundToScaleNonNegative(x, scale);
    assert q >= 0.0;
    ScaleBack(n as real, scale);
    assert q * scale == n as real;
    RoundHalfUpOfInteger(n);
    assert RoundHalfUp(q * scale) == n;
    RoundToScaleNonNegative(q, scale);
    assert RoundToScale(q, scale) == q;
  }

  lemma RoundToScaleOdd(x: real, scale: real)
    requires scale > 0.0
    ensures RoundToScale(-x, scale) == -RoundToScale(x, scale)
  {
  }

  /** A number that has already been rounded is left as it is. */
  lemma ToFixedIdempotent(x: real, digits: nat)
    ensures ToFixed(ToFixed(x, digits), digits) == ToFixed(x, digits)
  {
    var scale := Pow10(digits);
    if x < 0.0 {
      RoundToScaleOdd(-x, scale);
      RoundToScaleIdempotentNonNegative(-x, scale);
      RoundToScaleOdd(RoundToScale(-x, scale), scale);
    } else {
      RoundToScaleIdempotentNonNegative(x, scale);
    }
  }

  /** Rounding commutes with negation. */
  lemma ToFixedOdd(x: real, digits: nat)
    ensures ToFixed(-x, digits) == -ToFixed(x, digits)
  {
    RoundToScaleOdd(x, Pow10(digits));
  }
}
