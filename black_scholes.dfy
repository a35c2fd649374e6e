/**
 * `option_pricing` (pricing_model/black_scholes.py): Black–Scholes with a continuous dividend
 * yield. `phi` stands for `scipy.stats.norm.cdf`.
 */
module BlackScholes {
  import opened Numerics

  /** The divisions of the d1 formula (S0/X and by v·√t) are by non-zero numbers. */
  ghost predicate Divisible(m: MathLib, x: real, t: real, v: real) {
    x != 0.0 && v * m.sqrt(t) != 0.0
  }

  /** d1 = (ln(S0/X) + (r − q + v²/2)·t) / (v·√t). */
  function D1(m: MathLib, s0: real, x: real, r: real, q: real, t: real, v: real): real
    requires Divisible(m, x, t, v)
  {
    (m.ln(s0 / x) + (r - q + (v * v) / 2.0) * t) / (v * m.sqrt(t))
  }

  /** d2 = d1 − v·√t. */
  function D2(m: MathLib, s0: real, x: real, r: real, q: real, t: real, v: real): real
    requires Divisible(m, x, t, v)
  {
    D1(m, s0, x, r, q, t, v) - v * m.sqrt(t)
  }

  /** The pair (C, P): call first, then put. */
  function OptionPricing(m: MathLib, phi: real -> real, s0: real, x: real, r: real, q: real, t: real, v: real): (real, real)
    requires Divisible(m, x, t, v)
  {
    var d1 := D1(m, s0, x, r, q, t, v);
    var d2 := D2(m, s0, x, r, q, t, v);
    var c := s0 * m.exp(-q * t) * phi(d1) - x * m.exp(-r * t) * phi(d2);
    var p := x * m.exp(-r * t) * phi(-d2) - s0 * m.exp(-q * t) * phi(-d1);
    (c, p)
  }

  /** Put-call parity: C − P = S0·e^{−qt} − X·e^{−rt}, from Φ(x) + Φ(−x) = 1 alone. */
  lemma PutCallParity(m: MathLib, phi: real -> real, s0: real, x: real, r: real, q: real, t: real, v: real)
    requires Divisible(m, x, t, v)
    requires CdfSymmetric(phi)
    ensures OptionPricing(m, phi, s0, x, r, q, t, v).0 - OptionPricing(m, phi, s0, x, r, q, t, v).1
         == s0 * m.exp(-q * t) - x * m.exp(-r * t)
  {
    var d1 := D1(m, s0, x, r, q, t, v);
    var d2 := D2(m, s0, x, r, q, t, v);
    var a, b := s0 * m.exp(-q * t), x * m.exp(-r * t);
    assert phi(d1) + phi(-d1) == 1.0;
    assert phi(d2) + phi(-d2) == 1.0;
    calc {
      OptionPricing(m, phi, s0, x, r, q, t, v).0 - OptionPricing(m, phi, s0, x, r, q, t, v).1;
      (a * phi(d1) - b * phi(d2)) - (b * phi(-d2) - a * phi(-d1));
      a * (phi(d1) + phi(-d1)) - b * (phi(d2) + phi(-d2));
      a - b;
    }
  }

  /**
   * No-arbitrage upper bounds: with Φ in [0, 1] and positive prices, C ≤ S0·e^{−qt} and
   * P ≤ X·e^{−rt}; symmetrically C ≥ −X·e^{−rt} and P ≥ −S0·e^{−qt}.
   */
  lemma PriceBounds(m: MathLib, phi: real -> real, s0: real, x: real, r: real, q: real, t: real, v: real)
    requires Divisible(m, x, t, v)
    requires CdfBounded(phi) && ExpPositive(m.exp)
    requires s0 > 0.0 && x > 0.0
    ensures OptionPricing(m, phi, s0, x, r, q, t, v).0 <= s0 * m.exp(-q * t)
    ensures OptionPricing(m, phi, s0, x, r, q, t, v).1 <= x * m.exp(-r * t)
    ensures OptionPricing(m, phi, s0, x, r, q, t, v).0 >= -(x * m.exp(-r * t))
    ensures OptionPricing(m, phi, s0, x, r, q, t, v).1 >= -(s0 * m.exp(-q * t))
  {
    var d1 := D1(m, s0, x, r, q, t, v);
    var d2 := D2(m, s0, x, r, q, t, v);
    var a, b := s0 * m.exp(-q * t), x * m.exp(-r * t);
    assert a > 0.0 && b > 0.0 by {
      assert m.exp(-q * t) > 0.0 && m.exp(-r * t) > 0.0;
    }
    var prices := OptionPricing(m, phi, s0, x, r, q, t, v);
    assert prices.0 == a * phi(d1) - b * phi(d2);
    assert prices.1 == b * phi(-d2) - a * phi(-d1);
    DifferenceBounds(a, b, phi(d1), phi(d2));
    DifferenceBounds(b, a, phi(-d2), phi(-d1));
  }

  /** For a, b > 0 and u, w in [0, 1]: −b ≤ a·u − b·w ≤ a. */
  lemma DifferenceBounds(a: real, b: real, u: real, w: real)
    requires a > 0.0 && b > 0.0 && 0.0 <= u <= 1.0 && 0.0 <= w <= 1.0
    ensures -b <= a * u - b * w <= a
  {
    ScaledUnitBounds(a, u);
    ScaledUnitBounds(b, w);
  }

  lemma ScaledUnitBounds(a: real, u: real)
    requires a > 0.0 && 0.0 <= u <= 1.0
    ensures 0.0 <= a * u <= a
  {
  }

  /** At the money with r = q = 0 the call and the put are worth the same. */
  lemma AtTheMoneyCallEqualsPut(m: MathLib, phi: real -> real, s: real, t: real, v: real)
    requires Divisible(m, s, t, v)
    requires CdfSymmetric(phi)
    ensures OptionPricing(m, phi, s, s, 0.0, 0.0, t, v).0 == OptionPricing(m, phi, s, s, 0.0, 0.0, t, v).1
  {
    PutCallParity(m, phi, s, s, 0.0, 0.0, t, v);
  }
}
