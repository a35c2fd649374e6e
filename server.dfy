/**
 * The Express server of the old stack (archive/old_stack/back/server/index.js): the
 * `POST /api/data` handler, `calculateBlackScholes` and the erf-based `normalCDF`.
 *
 * A request field is `None` when it is absent or `null`; in the JSON body it is otherwise a
 * number.
 */
module Server {
  import opened Wrappers
  import opened Numerics
  import BlackScholes

  /** `normalCDF`: Φ(x) = (1 + erf(x/√2)) / 2. */
  function ErfNormalCdf(m: MathLib, erf: real -> real, x: real): real
    requires m.sqrt(2.0) != 0.0
  {
    (1.0 + erf(x / m.sqrt(2.0))) / 2.0
  }

  /** With an odd `erf`, the derived CDF satisfies Φ(x) + Φ(−x) = 1 at every point. */
  lemma ErfNormalCdfSymmetric(m: MathLib, erf: real -> real, x: real)
    requires m.sqrt(2.0) != 0.0 && Odd(erf)
    ensures ErfNormalCdf(m, erf, x) + ErfNormalCdf(m, erf, -x) == 1.0
  {
    assert -x / m.sqrt(2.0) == -(x / m.sqrt(2.0));
    assert erf(-(x / m.sqrt(2.0))) == -erf(x / m.sqrt(2.0));
  }

  /** The divisions of the formula are by non-zero numbers. */
  ghost predicate Divisible(m: MathLib, x: real, t: real, v: real) {
    x != 0.0 && v * m.sqrt(t) != 0.0 && m.sqrt(2.0) != 0.0
  }

  /** d1 = (ln(S0/X) + (r − q + 0.5·v·v)·t) / (v·√t). */
  function D1(m: MathLib, s0: real, x: real, r: real, q: real, t: real, v: real): real
    requires Divisible(m, x, t, v)
  {
    (m.ln(s0 / x) + (r - q + 0.5 * v * v) * t) / (v * m.sqrt(t))
  }

  lemma D1MatchesPython(m: MathLib, s0: real, x: real, r: real, q: real, t: real, v: real)
    requires Divisible(m, x, t, v)
    ensures BlackScholes.Divisible(m, x, t, v)
    ensures D1(m, s0, x, r, q, t, v) == BlackScholes.D1(m, s0, x, r, q, t, v)
  {
    assert 0.5 * v * v == (v * v) / 2.0;
  }

  /** The call and put of `calculateBlackScholes` before `toFixed(4)`. */
  function ExactPrices(m: MathLib, erf: real -> real, s0: real, x: real, r: real, q: real, t: real, v: real): (real, real)
    requires Divisible(m, x, t, v)
  {
    var d1 := D1(m, s0, x, r, q, t, v);
    var d2 := d1 - v * m.sqrt(t);
    var c := s0 * m.exp(-q * t) * ErfNormalCdf(m, erf, d1) - x * m.exp(-r * t) * ErfNormalCdf(m, erf, d2);
    var p := x * m.exp(-r * t) * ErfNormalCdf(m, erf, -d2) - s0 * m.exp(-q * t) * ErfNormalCdf(m, erf, -d1);
    (c, p)
  }

  /** The response body of a priced request: only the two fields C and P. */
  datatype Body = ErrorBody(error: string) | PriceBody(c: real, p: real)

  datatype Response = Response(status: int, body: Body)

  /** `calculateBlackScholes`: both prices rounded to four decimals. */
  function CalculateBlackScholes(m: MathLib, erf: real -> real, s0: real, x: real, r: real, q: real, t: real, v: real): Body
    requires Divisible(m, x, t, v)
  {
    var (c, p) := ExactPrices(m, erf, s0, x, r, q, t, v);
    PriceBody(ToFixed(c, 4), ToFixed(p, 4))
  }

  /**
   * The server formula is the Python `option_pricing` formula with Φ taken to be the erf-based
   * CDF, so both parity and the bounds carry over from there.
   */
  lemma ExactPricesMatchPython(m: MathLib, erf: real -> real, phi: real -> real,
                               s0: real, x: real, r: real, q: real, t: real, v: real)
    requires Divisible(m, x, t, v)
    requires forall y :: phi(y) == ErfNormalCdf(m, erf, y)
    ensures BlackScholes.Divisible(m, x, t, v)
    ensures ExactPrices(m, erf, s0, x, r, q, t, v) == BlackScholes.OptionPricing(m, phi, s0, x, r, q, t, v)
  {
    D1MatchesPython(m, s0, x, r, q, t, v);
    var d1 := D1(m, s0, x, r, q, t, v);
    var d2 := d1 - v * m.sqrt(t);
    assert BlackScholes.D2(m, s0, x, r, q, t, v) == d2;
    var a, b := s0 * m.exp(-q * t), x * m.exp(-r * t);
    var e1, e2, e1m, e2m := ErfNormalCdf(m, erf, d1), ErfNormalCdf(m, erf, d2),
      ErfNormalCdf(m, erf, -d1), ErfNormalCdf(m, erf, -d2);
    assert phi(d1) == e1 && phi(d2) == e2 && phi(-d1) == e1m && phi(-d2) == e2m;
    var ours := ExactPrices(m, erf, s0, x, r, q, t, v);
    var theirs := BlackScholes.OptionPricing(m, phi, s0, x, r, q, t, v);
    assert ours.0 == a * e1 - b * e2 && ours.1 == b * e2m - a * e1m;
    assert theirs.0 == a * e1 - b * e2 && theirs.1 == b * e2m - a * e1m;
  }

  /** Before rounding, C − P = S0·e^{−qt} − X·e^{−rt}, given only that erf is odd. */
  lemma ExactPutCallParity(m: MathLib, erf: real -> real, s0: real, x: real, r: real, q: real, t: real, v: real)
    requires Divisible(m, x, t, v) && Odd(erf)
    ensures ExactPrices(m, erf, s0, x, r, q, t, v).0 - ExactPrices(m, erf, s0, x, r, q, t, v).1
         == s0 * m.exp(-q * t) - x * m.exp(-r * t)
  {
    var phi := y => ErfNormalCdf(m, erf, y);
    forall y ensures phi(y) + phi(-y) == 1.0 {
      ErfNormalCdfSymmetric(m, erf, y);
    }
    ExactPricesMatchPython(m, erf, phi, s0, x, r, q, t, v);
    BlackScholes.PutCallParity(m, phi, s0, x, r, q, t, v);
  }

  /** The rounded prices keep parity to within 0.0001. */
  lemma RoundedPutCallParity(m: MathLib, erf: real -> real, s0: real, x: real, r: real, q: real, t: real, v: real)
    requires Divisible(m, x, t, v) && Odd(erf)
    ensures CalculateBlackScholes(m, erf, s0, x, r, q, t, v).PriceBody?
    ensures var b := CalculateBlackScholes(m, erf, s0, x, r, q, t, v);
      Abs((b.c - b.p) - (s0 * m.exp(-q * t) - x * m.exp(-r * t))) <= 0.0001
  {
    var (c, p) := ExactPrices(m, erf, s0, x, r, q, t, v);
    ExactPutCallParity(m, erf, s0, x, r, q, t, v);
    RoundedDifference(c, p);
  }

  lemma RoundedDifference(c: real, p: real)
    ensures Abs((ToFixed(c, 4) - ToFixed(p, 4)) - (c - p)) <= 0.0001
  {
    ToFixedError(c, 4);
    ToFixedError(p, 4);
  }

  /** JavaScript truthiness of a numeric field: present and non-zero. */
  predicate Truthy(field: Option<real>) {
    field.Some? && field.value != 0.0
  }

  /** The body fields S0, X, r, q, t and v. */
  datatype Request = Request(
    s0: Option<real>, x: Option<real>, r: Option<real>, q: Option<real>, t: Option<real>, v: Option<real>)

  predicate AllFieldsGiven(req: Request) {
    Truthy(req.s0) && Truthy(req.x) && Truthy(req.r) && Truthy(req.q) && Truthy(req.t) && Truthy(req.v)
  }

  const MissingFields := "All fields are required."

  /** The `POST /api/data` handler. */
  function HandleData(m: MathLib, erf: real -> real, req: Request): (res: Response)
    requires SqrtZeroOnlyAtZero(m.sqrt)
    ensures res.status == 400 || res.status == 200
    ensures res.status == 400 <==> !AllFieldsGiven(req)
    ensures res.status == 400 ==> res.body == ErrorBody(MissingFields)
    ensures res.status == 200 ==> res.body.PriceBody? && Divisible(m, req.x.value, req.t.value, req.v.value)
    ensures res.status == 200 ==> res.body == CalculateBlackScholes(m, erf,
      req.s0.value, req.x.value, req.r.value, req.q.value, req.t.value, req.v.value)
  {
    if !AllFieldsGiven(req) then
      Response(400, ErrorBody(MissingFields))
    else
      assert m.sqrt(req.t.value) != 0.0 && m.sqrt(2.0) != 0.0;
      Response(200, CalculateBlackScholes(m, erf,
        req.s0.value, req.x.value, req.r.value, req.q.value, req.t.value, req.v.value))
  }

  /** A zero interest rate or a zero dividend yield is rejected like a missing field. */
  lemma ZeroRateOrYieldRejected(m: MathLib, erf: real -> real, req: Request)
    requires SqrtZeroOnlyAtZero(m.sqrt)
    requires req.r == Some(0.0) || req.q == Some(0.0)
    ensures HandleData(m, erf, req) == Response(400, ErrorBody(MissingFields))
  {
  }

  /**
   * A priced response satisfies put-call parity up to the two roundings: the reported C − P is
   * within 0.0001 of S0·e^{−qt} − X·e^{−rt}.
   */
  lemma ResponseParity(m: MathLib, erf: real -> real, s0: real, x: real, r: real, q: real, t: real, v: real)
    requires SqrtZeroOnlyAtZero(m.sqrt) && Odd(erf)
    requires s0 != 0.0 && x != 0.0 && r != 0.0 && q != 0.0 && t != 0.0 && v != 0.0
    ensures var res := HandleData(m, erf, Request(Some(s0), Some(x), Some(r), Some(q), Some(t), Some(v)));
      res.status == 200 && res.body.PriceBody? &&
      Abs((res.body.c - res.body.p) - (s0 * m.exp(-q * t) - x * m.exp(-r * t))) <= 0.0001
  {
    assert Divisible(m, x, t, v) by {
      assert m.sqrt(t) != 0.0 && m.sqrt(2.0) != 0.0;
    }
    RoundedPutCallParity(m, erf, s0, x, r, q, t, v);
  }
}
