/**
 * The enhanced option calculator (components/OptionCalculator.tsx): ticker entry, the loading
 * progress counter, the handlers that update the inputs, and its own call/put pricer.
 *
 * `isLoading` and `data` come from the SWR hook; here they are delivered by the methods
 * `OnLoadingChange` and `OnQuoteData`, which run what the component's two effects run. The
 * interval timer is not modelled, only what one tick does (`Tick`).
 */
module OptionCalculator {
  import opened Wrappers
  import opened Numerics
  import opened OptionTypes
  import Ticker
  import Calculate
  import BlackScholes

  /** The form's numeric inputs and the option type; there is no dividend yield. */
  datatype CalculatorInputs = CalculatorInputs(
    stockPrice: real,
    strikePrice: real,
    timeToExpiration: real,
    interestRate: real,
    volatility: real,
    optionType: OptionKind)

  /** The `name` of a numeric input field. */
  datatype Field = StockPrice | StrikePrice | TimeToExpiration | InterestRate | Volatility

  function Get(inputs: CalculatorInputs, field: Field): real {
    match field
    case StockPrice => inputs.stockPrice
    case StrikePrice => inputs.strikePrice
    case TimeToExpiration => inputs.timeToExpiration
    case InterestRate => inputs.interestRate
    case Volatility => inputs.volatility
  }

  /** `{ ...prev, [name]: value }`: the named field gets the value, everything else is kept. */
  function WithField(inputs: CalculatorInputs, field: Field, value: real): (r: CalculatorInputs)
    ensures Get(r, field) == value
    ensures forall f :: f != field ==> Get(r, f) == Get(inputs, f)
    ensures r.optionType == inputs.optionType
  {
    match field
    case StockPrice => inputs.(stockPrice := value)
    case StrikePrice => inputs.(strikePrice := value)
    case TimeToExpiration => inputs.(timeToExpiration := value)
    case InterestRate => inputs.(interestRate := value)
    case Volatility => inputs.(volatility := value)
  }

  datatype PriceResult = PriceResult(optionPrice: real, timestamp: int)

  // ---------------------------------------------------------------------------
  // Loading progress

  const ProgressCap := 90

  /** One interval tick: five more, but never past 90. */
  function Step(progress: int): (next: int)
    requires 0 <= progress <= ProgressCap
    ensures progress <= next <= ProgressCap
    ensures next == Min(progress + 5, ProgressCap)
    ensures progress % 5 == 0 ==> next % 5 == 0
  {
    var newProgress := progress + 5;
    if newProgress > ProgressCap then ProgressCap else newProgress
  }

  /** The progress after n ticks since loading started. */
  ghost function Progress(n: nat): int
    ensures 0 <= Progress(n) <= ProgressCap
  {
    if n == 0 then 0 else Step(Progress(n - 1))
  }

  /** After n ticks the bar shows min(5n, 90). */
  lemma {:induction false} ProgressAfterTicks(n: nat)
    ensures Progress(n) == Min(5 * n, ProgressCap)
  {
    if n > 0 {
      ProgressAfterTicks(n - 1);
    }
  }

  // ---------------------------------------------------------------------------
  // The component's own pricer (no dividend term, d2 = d1 − σ√t)

  ghost predicate Divisible(m: MathLib, inputs: CalculatorInputs) {
    inputs.strikePrice != 0.0 && inputs.volatility * m.sqrt(inputs.timeToExpiration) != 0.0
  }

  /** d1 = (ln(S/X) + (r + σ²/2)·t) / (σ·√t). */
  function D1(m: MathLib, s: real, x: real, t: real, r: real, v: real): real
    requires x != 0.0 && v * m.sqrt(t) != 0.0
  {
    (m.ln(s / x) + (r + v * v / 2.0) * t) / (v * m.sqrt(t))
  }

  /** d2 = d1 − σ·√t. */
  function D2(m: MathLib, s: real, x: real, t: real, r: real, v: real): real
    requires x != 0.0 && v * m.sqrt(t) != 0.0
  {
    D1(m, s, x, t, r, v) - v * m.sqrt(t)
  }

  /** The component's local `normalCDF`, which is the same polynomial as the server action's. */
  function Cdf(exp: real -> real): real -> real {
    y => Calculate.NormalCdf(exp, y)
  }

  /** The call branch: S·N(d1) − X·e^{−rt}·N(d2), for a normal CDF `n`. */
  function CallPrice(m: MathLib, n: real -> real, s: real, x: real, t: real, r: real, v: real): real
    requires x != 0.0 && v * m.sqrt(t) != 0.0
  {
    s * n(D1(m, s, x, t, r, v)) - x * m.exp(-r * t) * n(D2(m, s, x, t, r, v))
  }

  /** The put branch: X·e^{−rt}·N(−d2) − S·N(−d1). */
  function PutPrice(m: MathLib, n: real -> real, s: real, x: real, t: real, r: real, v: real): real
    requires x != 0.0 && v * m.sqrt(t) != 0.0
  {
    x * m.exp(-r * t) * n(-D2(m, s, x, t, r, v)) - s * n(-D1(m, s, x, t, r, v))
  }

  /** The call formula exactly when `optionType` is a call, the put formula otherwise. */
  function OptionPrice(m: MathLib, inputs: CalculatorInputs): (price: real)
    requires Divisible(m, inputs)
  {
    var CalculatorInputs(s, x, t, r, v, kind) := inputs;
    if kind == Call then CallPrice(m, Cdf(m.exp), s, x, t, r, v) else PutPrice(m, Cdf(m.exp), s, x, t, r, v)
  }

  /**
   * The two branches obey put-call parity, call − put = S − X·e^{−rt}, for any CDF that is
   * symmetric at d1 and at d2.
   */
  lemma BranchParity(m: MathLib, n: real -> real, s: real, x: real, t: real, r: real, v: real)
    requires x != 0.0 && v * m.sqrt(t) != 0.0
    requires var d1, d2 := D1(m, s, x, t, r, v), D2(m, s, x, t, r, v);
      n(d1) + n(-d1) == 1.0 && n(d2) + n(-d2) == 1.0
    ensures CallPrice(m, n, s, x, t, r, v) - PutPrice(m, n, s, x, t, r, v) == s - x * m.exp(-r * t)
  {
    var d1, d2 := D1(m, s, x, t, r, v), D2(m, s, x, t, r, v);
    ParityAlgebra(s, x * m.exp(-r * t), n(d1), n(-d1), n(d2), n(-d2));
  }

  /** The component's polynomial CDF is symmetric wherever d1 and d2 are non-zero, so parity holds there. */
  lemma PolynomialBranchParity(m: MathLib, s: real, x: real, t: real, r: real, v: real)
    requires x != 0.0 && v * m.sqrt(t) != 0.0
    requires D1(m, s, x, t, r, v) != 0.0 && D2(m, s, x, t, r, v) != 0.0
    ensures CallPrice(m, Cdf(m.exp), s, x, t, r, v) - PutPrice(m, Cdf(m.exp), s, x, t, r, v) == s - x * m.exp(-r * t)
  {
    CdfSymmetricAt(m.exp, D1(m, s, x, t, r, v));
    CdfSymmetricAt(m.exp, D2(m, s, x, t, r, v));
    BranchParity(m, Cdf(m.exp), s, x, t, r, v);
  }

  lemma CdfSymmetricAt(exp: real -> real, y: real)
    requires y != 0.0
    ensures Cdf(exp)(y) + Cdf(exp)(-y) == 1.0
  {
    Calculate.NormalCdfSymmetric(exp, y);
  }

  /** The algebra behind parity: a·n1 − b·n2 − (b·(1 − n2) − a·(1 − n1)) = a − b. */
  lemma ParityAlgebra(a: real, b: real, n1: real, n1m: real, n2: real, n2m: real)
    requires n1 + n1m == 1.0 && n2 + n2m == 1.0
    ensures (a * n1 - b * n2) - (b * n2m - a * n1m) == a - b
  {
    assert (a * n1 - b * n2) - (b * n2m - a * n1m) == a * (n1 + n1m) - b * (n2 + n2m);
  }

  /**
   * With the same normal CDF, the call branch is the dividend-free Black–Scholes call of
   * pricing_model/black_scholes.py and the put branch its put.
   */
  lemma AgreesWithDividendFreeModel(m: MathLib, n: real -> real, s: real, x: real, t: real, r: real, v: real)
    requires x != 0.0 && v * m.sqrt(t) != 0.0
    requires ExpZeroIsOne(m.exp)
    ensures BlackScholes.Divisible(m, x, t, v)
    ensures CallPrice(m, n, s, x, t, r, v) == BlackScholes.OptionPricing(m, n, s, x, r, 0.0, t, v).0
    ensures PutPrice(m, n, s, x, t, r, v) == BlackScholes.OptionPricing(m, n, s, x, r, 0.0, t, v).1
  {
    assert BlackScholes.D1(m, s, x, r, 0.0, t, v) == D1(m, s, x, t, r, v);
    assert -0.0 * t == 0.0;
    assert m.exp(-0.0 * t) == 1.0;
  }

  /** Pricing the same inputs as a call and as a put obeys put-call parity where d1 and d2 are non-zero. */
  lemma OptionPriceParity(m: MathLib, s: real, x: real, t: real, r: real, v: real)
    requires x != 0.0 && v * m.sqrt(t) != 0.0
    requires D1(m, s, x, t, r, v) != 0.0 && D2(m, s, x, t, r, v) != 0.0
    ensures OptionPrice(m, CalculatorInputs(s, x, t, r, v, Call)) - OptionPrice(m, CalculatorInputs(s, x, t, r, v, Put))
      == s - x * m.exp(-r * t)
  {
    PolynomialBranchParity(m, s, x, t, r, v);
  }

  /**
   * The component prices an option as pricing_model/black_scholes.py does with no dividend yield and
   * the same CDF: the first of the Python pair for a call, the second for a put.
   */
  lemma OptionPriceMatchesPython(m: MathLib, inputs: CalculatorInputs)
    requires Divisible(m, inputs)
    requires ExpZeroIsOne(m.exp)
    ensures var CalculatorInputs(s, x, t, r, v, kind) := inputs;
      var prices := BlackScholes.OptionPricing(m, Cdf(m.exp), s, x, r, 0.0, t, v);
      OptionPrice(m, inputs) == if kind == Call then prices.0 else prices.1
  {
    var CalculatorInputs(s, x, t, r, v, kind) := inputs;
    AgreesWithDividendFreeModel(m, Cdf(m.exp), s, x, t, r, v);
  }

  // ---------------------------------------------------------------------------
  // The component

  class OptionCalculator {
    var ticker: string
    var submittedTicker: string
    var loadingProgress: int
    var isLoading: bool
    var autoPrice: Option<real>
    var result: Option<PriceResult>
    var inputs: CalculatorInputs

    /** The progress bar stays a multiple of 5 in [0, 100], and at most 90 while loading. */
    predicate Valid()
      reads this
    {
      0 <= loadingProgress <= 100 && loadingProgress % 5 == 0
      && (isLoading ==> loadingProgress <= ProgressCap)
    }

    /** First render: empty tickers, progress 0, no price, all inputs 0 and a call. */
    constructor ()
      ensures Valid()
      ensures ticker == "" && submittedTicker == "" && loadingProgress == 0 && !isLoading
      ensures autoPrice == None && result == None
      ensures inputs == CalculatorInputs(0.0, 0.0, 0.0, 0.0, 0.0, Call)
    {
      ticker, submittedTicker := "", "";
      loadingProgress := 0;
      isLoading := false;
      autoPrice, result := None, None;
      inputs := CalculatorInputs(0.0, 0.0, 0.0, 0.0, 0.0, Call);
    }

    /** The ticker field stores what was typed, upper-cased. */
    method SetTicker(typed: string)
      modifies this`ticker
      ensures ticker == Ticker.ToUpper(typed)
    {
      ticker := Ticker.ToUpper(typed);
    }

    /** Submitting the form submits the current ticker. */
    method HandleSubmit()
      modifies this`submittedTicker
      ensures submittedTicker == ticker
    {
      submittedTicker := ticker;
    }

    /** The SWR key: a quote is requested only for a valid submitted ticker. */
    function QuoteKey(): (key: Option<string>)
      reads this
      ensures key.Some? <==> Ticker.IsValidTicker(submittedTicker)
      ensures key == Ticker.FetchKey(submittedTicker)
    {
      Ticker.FetchKey(submittedTicker)
    }

    /** The loading effect: progress is reset to 0, and to 100 when loading has finished. */
    method OnLoadingChange(loading: bool)
      modifies this`isLoading, this`loadingProgress
      ensures Valid()
      ensures isLoading == loading
      ensures loading ==> loadingProgress == 0
      ensures !loading ==> loadingProgress == 100
    {
      isLoading := loading;
      loadingProgress := 0;
      if !loading {
        loadingProgress := 100;
      }
    }

    /** One tick of the interval, which only runs while loading. */
    method Tick()
      requires Valid() && isLoading
      modifies this`loadingProgress
      ensures Valid()
      ensures loadingProgress == Step(old(loadingProgress))
      ensures old(loadingProgress) <= loadingProgress
    {
      var newProgress := loadingProgress + 5;
      loadingProgress := if newProgress > ProgressCap then ProgressCap else newProgress;
    }

    /**
     * The price effect: once loading is over and the quote carries a non-empty price, progress
     * goes to 100 and the parsed price becomes `autoPrice` and the stock-price input; the other
     * inputs are kept. `parse` is `Number.parseFloat`.
     */
    method OnQuoteData(data: Option<Ticker.StockData>, parse: string -> real)
      requires Valid()
      modifies this`loadingProgress, this`autoPrice, this`inputs
      ensures Valid()
      ensures old(!isLoading && data.Some? && data.value.price.Some? && data.value.price.value != "") ==>
        loadingProgress == 100
        && autoPrice == Some(parse(data.value.price.value))
        && inputs == old(inputs).(stockPrice := parse(data.value.price.value))
      ensures !old(!isLoading && data.Some? && data.value.price.Some? && data.value.price.value != "") ==>
        loadingProgress == old(loadingProgress) && autoPrice == old(autoPrice) && inputs == old(inputs)
    {
      if !isLoading && data.Some? && data.value.price.Some? && data.value.price.value != "" {
        loadingProgress := 100;
        var price := parse(data.value.price.value);
        autoPrice := Some(price);
        inputs := inputs.(stockPrice := price);
      }
    }

    /** `handleInputChange`: only the named field changes. */
    method HandleInputChange(field: Field, value: real)
      modifies this`inputs
      ensures inputs == WithField(old(inputs), field, value)
    {
      inputs := WithField(inputs, field, value);
    }

    /** `handleOptionTypeChange`: only the option type changes. */
    method HandleOptionTypeChange(kind: OptionKind)
      modifies this`inputs
      ensures inputs == old(inputs).(optionType := kind)
    {
      inputs := inputs.(optionType := kind);
    }

    /** `calculateOption`: stores the price for the chosen type and the caller's clock reading. */
    method CalculateOption(m: MathLib, now: int)
      requires Divisible(m, inputs)
      modifies this`result
      ensures result == Some(PriceResult(OptionPrice(m, inputs), now))
    {
      result := Some(PriceResult(OptionPrice(m, inputs), now));
    }
  }
}
