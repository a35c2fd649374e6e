/**
 * The server action `calculateOption` and its polynomial normal CDF (app/actions/calculate.ts).
 *
 * This variant forms d1 without the dividend yield, never forms d2, and prices the call as
 * S·N(d1) and the put as X·N(−d1), with no discount factor.
 */
module Calculate {
  import opened Numerics
  import opened OptionTypes

  /**
   * The polynomial part p of the Zelen–Severo approximation, given |x| and x·x: these are the
   * only two ways in which the approximation looks at its argument.
   */
  function CdfTail(exp: real -> real, absX: real, xSquared: real): real
    requires absX >= 0.0
  {
    var t := 1.0 / (1.0 + 0.2316419 * absX);
    var d := 0.3989423 * exp(-xSquared / 2.0);
    d * t * (0.3193815 + t * (-0.3565638 + t * (1.781478 + t * (-1.821256 + t * 1.330274))))
  }

  /** `normalCDF`: 1 − p for positive arguments, p otherwise. */
  function NormalCdf(exp: real -> real, x: real): real {
    var p := CdfTail(exp, Abs(x), x * x);
    if x > 0.0 then 1.0 - p else p
  }

  /** For every non-zero argument the approximation is exactly symmetric. */
  lemma NormalCdfSymmetric(exp: real -> real, x: real)
    requires x != 0.0
    ensures NormalCdf(exp, x) + NormalCdf(exp, -x) == 1.0
  {
    assert Abs(-x) == Abs(x);
    assert (-x) * (-x) == x * x;
  }

  /**
   * At 0 both sides take the `p` branch, so N(0) + N(−0) = 2·p(0), which with exp(0) = 1 is
   * 0.9999998…, not 1.
   */
  lemma NormalCdfAtZero(exp: real -> real)
    requires ExpZeroIsOne(exp)
    ensures NormalCdf(exp, 0.0) == CdfTail(exp, 0.0, 0.0)
    ensures NormalCdf(exp, 0.0) + NormalCdf(exp, -0.0) == 2.0 * 0.3989423 * 1.2533137
    ensures NormalCdf(exp, 0.0) + NormalCdf(exp, -0.0) != 1.0
  {
    assert -0.0 / 2.0 == 0.0;
  }

  /** The divisions of the d1 formula are by non-zero numbers. */
  ghost predicate Divisible(m: MathLib, inputs: OptionInputs) {
    inputs.strikePrice != 0.0 && inputs.volatility * m.sqrt(inputs.timeToExpiration) != 0.0
  }

  /** d1 of this variant: (ln(S/X) + (r + σ²/2)·t) / (σ·√t), with no dividend term. */
  function D1(m: MathLib, inputs: OptionInputs): real
    requires Divisible(m, inputs)
  {
    var OptionInputs(s, x, r, _, t, v) := inputs;
    (m.ln(s / x) + (r + v * v / 2.0) * t) / (v * m.sqrt(t))
  }

  /** The unrounded prices and delta. */
  datatype Quote = Quote(call: real, put: real, delta: real)

  function PriceQuote(m: MathLib, inputs: OptionInputs): Quote
    requires Divisible(m, inputs)
  {
    var n1 := NormalCdf(m.exp, D1(m, inputs));
    Quote(inputs.stockPrice * n1, inputs.strikePrice * NormalCdf(m.exp, -D1(m, inputs)), n1)
  }

  /**
   * `calculateOption`: call and put rounded to 2 places, delta to 3, and the input volatility
   * echoed as a percentage with one decimal. `now` is the timestamp the caller's clock gives.
   */
  function CalculateOption(m: MathLib, inputs: OptionInputs, now: string): CalculationResult
    requires Divisible(m, inputs)
  {
    var q := PriceQuote(m, inputs);
    CalculationResult(
      ToFixed(q.call, 2),
      ToFixed(q.put, 2),
      ToFixed(inputs.volatility * 100.0, 1),
      ToFixed(q.delta, 3),
      now)
  }

  /** The dividend yield is never read: changing it changes nothing in the result. */
  lemma DividendYieldIgnored(m: MathLib, inputs: OptionInputs, q: real, now: string)
    requires Divisible(m, inputs)
    ensures Divisible(m, inputs.(dividendYield := q))
    ensures CalculateOption(m, inputs.(dividendYield := q), now) == CalculateOption(m, inputs, now)
  {
    var other := inputs.(dividendYield := q);
    assert D1(m, other) == D1(m, inputs);
    assert PriceQuote(m, other) == PriceQuote(m, inputs);
  }

  /**
   * The "implied volatility" is the input σ in percent, rounded to one place: two inputs with
   * the same σ report the same value whatever their prices, and it is within 0.05 of 100·σ.
   */
  lemma ImpliedVolatilityEchoesInput(m: MathLib, a: OptionInputs, b: OptionInputs, now: string)
    requires Divisible(m, a) && Divisible(m, b)
    requires a.volatility == b.volatility
    ensures CalculateOption(m, a, now).impliedVolatility == CalculateOption(m, b, now).impliedVolatility
    ensures Abs(CalculateOption(m, a, now).impliedVolatility - 100.0 * a.volatility) <= 0.05
  {
    ToFixedError(a.volatility * 100.0, 1);
  }

  /**
   * The call price is the stock price times the very N(d1) that is reported as delta, and the
   * put price is the strike times N(−d1).
   */
  lemma QuoteUsesOneFactor(m: MathLib, inputs: OptionInputs)
    requires Divisible(m, inputs)
    ensures PriceQuote(m, inputs).delta == NormalCdf(m.exp, D1(m, inputs))
    ensures PriceQuote(m, inputs).call == inputs.stockPrice * PriceQuote(m, inputs).delta
    ensures PriceQuote(m, inputs).put == inputs.strikePrice * NormalCdf(m.exp, -D1(m, inputs))
  {
  }

  /** The displayed prices are within half a cent of the unrounded ones. */
  lemma DisplayedPricesRounded(m: MathLib, inputs: OptionInputs, now: string)
    requires Divisible(m, inputs)
    ensures Abs(CalculateOption(m, inputs, now).callOptionPrice - PriceQuote(m, inputs).call) <= 0.005
    ensures Abs(CalculateOption(m, inputs, now).putOptionPrice - PriceQuote(m, inputs).put) <= 0.005
  {
    var q := PriceQuote(m, inputs);
    ToFixedError(q.call, 2);
    ToFixedError(q.put, 2);
  }

  /** The displayed delta is within 0.0005 of N(d1). */
  lemma DisplayedDeltaRounded(m: MathLib, inputs: OptionInputs, now: string)
    requires Divisible(m, inputs)
    ensures Abs(CalculateOption(m, inputs, now).delta - NormalCdf(m.exp, D1(m, inputs))) <= 0.0005
  {
    ToFixedError(PriceQuote(m, inputs).delta, 3);
  }

  /**
   * What this variant has in place of put-call parity: for d1 ≠ 0 the unrounded prices satisfy
   * call/S + put/X = 1, i.e. call·X + put·S = S·X.
   */
  lemma QuoteParity(m: MathLib, inputs: OptionInputs)
    requires Divisible(m, inputs)
    requires D1(m, inputs) != 0.0
    ensures PriceQuote(m, inputs).call * inputs.strikePrice
          + PriceQuote(m, inputs).put * inputs.stockPrice
         == inputs.stockPrice * inputs.strikePrice
  {
    var d1 := D1(m, inputs);
    NormalCdfSymmetric(m.exp, d1);
    var n1, n2 := NormalCdf(m.exp, d1), NormalCdf(m.exp, -d1);
    var s, x := inputs.stockPrice, inputs.strikePrice;
    calc {
      (s * n1) * x + (x * n2) * s;
      s * x * (n1 + n2);
      s * x;
    }
  }
}
