/**
 * The volatility heat map (components/VolatilityHeatMap.tsx): the sweep that prices the option at
 * 19 volatilities, and the arithmetic that colours and sizes the bars.
 *
 * The pricer is the server action `calculateOption`, passed in as a function that may fail
 * (a rejected promise is a `Failure`). Its numeric strings are modelled by the value they spell,
 * so `parseFloat` of one is that value.
 */
module HeatMap {
  import opened Wrappers
  import opened Numerics
  import opened OptionTypes

  /** Number of points on the grid. */
  const GridSize: nat := 19

  /** The k-th volatility of the loop `for (vol = 5; vol <= 50; vol += 2.5)`, in percent. */
  function GridVolatility(k: nat): (vol: real)
    ensures vol >= 5.0
    ensures vol <= 50.0 <==> k < GridSize
    ensures k == GridSize - 1 ==> vol == 50.0
  {
    5.0 + 2.5 * k as real
  }

  /** The grid is strictly ascending. */
  lemma GridAscending(j: nat, k: nat)
    requires j < k
    ensures GridVolatility(j) < GridVolatility(k)
  {
  }

  /** The pricer's inputs for one grid point: the form's inputs with `volatility` replaced. */
  function InputsAt(base: OptionInputs, vol: real): (inputs: OptionInputs)
    ensures inputs.volatility * 100.0 == vol
    ensures inputs.(volatility := base.volatility) == base
  {
    base.(volatility := vol / 100.0)
  }

  /** The heat-map entry built from one pricer result. */
  function Point(vol: real, r: CalculationResult): HeatMapData {
    HeatMapData(vol, r.callOptionPrice, r.putOptionPrice, r.delta)
  }

  /**
   * The first n points of the sweep, or the first failure: entry k is grid point k priced by the
   * k-th call, and the sweep succeeds exactly when each of its calls does.
   */
  function Sweep(pricer: OptionInputs -> Result<CalculationResult>, base: OptionInputs, n: nat)
    : (r: Result<seq<HeatMapData>>)
    ensures r.Success? <==> forall k :: 0 <= k < n ==> pricer(InputsAt(base, GridVolatility(k))).Success?
    ensures r.Success? ==> |r.value| == n
    ensures r.Success? ==> forall k :: 0 <= k < n ==>
      r.value[k] == Point(GridVolatility(k), pricer(InputsAt(base, GridVolatility(k))).value)
  {
    if n == 0 then Success([])
    else
      match Sweep(pricer, base, n - 1)
      case Failure(e) => Failure(e)
      case Success(points) =>
        match pricer(InputsAt(base, GridVolatility(n - 1)))
        case Failure(e) => Failure(e)
        case Success(res) => Success(points + [Point(GridVolatility(n - 1), res)])
  }

  const InvalidInputs := "Please ensure all inputs are valid before generating heat map"
  const GenerationFailed := "Failed to generate heat map. Please check your inputs and try again."

  class HeatMap {
    // props
    var optionInputs: OptionInputs
    var canGenerate: bool
    // state
    var showHeatMap: bool
    var heatMapData: seq<HeatMapData>
    var isGeneratingHeatMap: bool
    var error: Option<string>

    constructor (optionInputs: OptionInputs, canGenerate: bool)
      ensures this.optionInputs == optionInputs && this.canGenerate == canGenerate
      ensures !showHeatMap && heatMapData == [] && !isGeneratingHeatMap && error == None
    {
      this.optionInputs := optionInputs;
      this.canGenerate := canGenerate;
      showHeatMap := false;
      heatMapData := [];
      isGeneratingHeatMap := false;
      error := None;
    }

    method SetProps(optionInputs: OptionInputs, canGenerate: bool)
      modifies this`optionInputs, this`canGenerate
      ensures this.optionInputs == optionInputs && this.canGenerate == canGenerate
    {
      this.optionInputs := optionInputs;
      this.canGenerate := canGenerate;
    }

    /**
     * `generateHeatMap`. When generation is not allowed only the error is set and the pricer is not
     * consulted. Otherwise the 19 grid points are priced in order; the data and `showHeatMap` are
     * committed only if every call succeeds, a failure sets the error and keeps the old data, and
     * `isGeneratingHeatMap` ends false either way.
     */
    method GenerateHeatMap(pricer: OptionInputs -> Result<CalculationResult>)
      modifies this`showHeatMap, this`heatMapData, this`isGeneratingHeatMap, this`error
      ensures !old(canGenerate) ==>
        error == Some(InvalidInputs) && heatMapData == old(heatMapData)
        && showHeatMap == old(showHeatMap) && isGeneratingHeatMap == old(isGeneratingHeatMap)
      ensures old(canGenerate) ==> !isGeneratingHeatMap
      ensures old(canGenerate) && Sweep(pricer, optionInputs, GridSize).Success? ==>
        heatMapData == Sweep(pricer, optionInputs, GridSize).value && showHeatMap && error == None
      ensures old(canGenerate) && Sweep(pricer, optionInputs, GridSize).Failure? ==>
        heatMapData == old(heatMapData) && showHeatMap == old(showHeatMap) && error == Some(GenerationFailed)
    {
      if !canGenerate {
        error := Some(InvalidInputs);
        return;
      }
      isGeneratingHeatMap := true;
      error := None;

      var heatMapResults: seq<HeatMapData> := [];
      var vol := 5.0;
      ghost var k: nat := 0;
      while vol <= 50.0
        invariant k <= GridSize && vol == GridVolatility(k)
        invariant Sweep(pricer, optionInputs, k) == Success(heatMapResults)
        decreases GridSize - k
      {
        var inputs := optionInputs.(volatility := vol / 100.0);
        var calculationResult := pricer(inputs);
        if calculationResult.Failure? {
          assert !Sweep(pricer, optionInputs, GridSize).Success?;
          error := Some(GenerationFailed);
          isGeneratingHeatMap := false;
          return;
        }
        heatMapResults := heatMapResults + [HeatMapData(vol, calculationResult.value.callOptionPrice,
          calculationResult.value.putOptionPrice, calculationResult.value.delta)];
        vol := vol + 2.5;
        k := k + 1;
      }
      heatMapData := heatMapResults;
      showHeatMap := true;
      isGeneratingHeatMap := false;
    }
  }

  // ---------------------------------------------------------------------------
  // Display arithmetic

  /** `Math.max(...s)`; `None` stands for the `-Infinity` of an empty list. */
  function MaxOf(s: seq<real>): (r: Option<real>)
    ensures r.None? <==> |s| == 0
    ensures r.Some? ==> r.value in s && forall i :: 0 <= i < |s| ==> s[i] <= r.value
  {
    if |s| == 0 then None
    else
      match MaxOf(s[1..])
      case None => Some(s[0])
      case Some(m) => Some(if s[0] > m then s[0] else m)
  }

  /** `Math.min(...s)`; `None` stands for the `Infinity` of an empty list. */
  function MinOf(s: seq<real>): (r: Option<real>)
    ensures r.None? <==> |s| == 0
    ensures r.Some? ==> r.value in s && forall i :: 0 <= i < |s| ==> r.value <= s[i]
  {
    if |s| == 0 then None
    else
      match MinOf(s[1..])
      case None => Some(s[0])
      case Some(m) => Some(if s[0] < m then s[0] else m)
  }

  /** Position of `value` in [lo, hi]; `None` where JavaScript divides by zero (hi == lo). */
  function Normalized(value: real, lo: real, hi: real): (r: Option<real>)
    ensures r.Some? <==> hi != lo
    ensures r.Some? ==> r.value * (hi - lo) == value - lo
    ensures r.Some? && lo <= value <= hi ==> 0.0 <= r.value <= 1.0
    ensures r.Some? && value == lo ==> r.value == 0.0
    ensures r.Some? && value == hi ==> r.value == 1.0
  {
    if hi == lo then None
    else
      QuotientInUnit(value - lo, hi - lo);
      Some((value - lo) / (hi - lo))
  }

  lemma QuotientInUnit(a: real, d: real)
    requires d != 0.0
    ensures (a / d) * d == a
    ensures 0.0 <= a <= d ==> 0.0 <= a / d <= 1.0
    ensures a == d ==> a / d == 1.0
  {
    if 0.0 <= a <= d {
      assert (d - a) / d >= 0.0;
    }
  }

  /** The hue of `getHeatMapColor`: 240 (blue) at the minimum down to 0 (red) at the maximum. */
  function Hue(value: real, lo: real, hi: real): (r: Option<real>)
    ensures r.Some? <==> hi != lo
    ensures r.Some? && lo <= value <= hi ==> 0.0 <= r.value <= 240.0
    ensures r.Some? && value == lo ==> r.value == 240.0
    ensures r.Some? && value == hi ==> r.value == 0.0
  {
    match Normalized(value, lo, hi)
    case None => None
    case Some(n) => Some((1.0 - n) * 240.0)
  }

  /** The bar width in percent: 0 at the minimum, 100 at the maximum. */
  function BarWidth(value: real, lo: real, hi: real): (r: Option<real>)
    ensures r.Some? <==> hi != lo
    ensures r.Some? && lo <= value <= hi ==> 0.0 <= r.value <= 100.0
    ensures r.Some? && value == lo ==> r.value == 0.0
    ensures r.Some? && value == hi ==> r.value == 100.0
  {
    match Normalized(value, lo, hi)
    case None => None
    case Some(n) => Some(n * 100.0)
  }

  /** Colour and width agree: the longer the bar, the redder it is. */
  lemma HueFollowsWidth(value: real, lo: real, hi: real)
    requires hi != lo
    ensures Hue(value, lo, hi).value == 240.0 - 2.4 * BarWidth(value, lo, hi).value
  {
  }

  function CallPrices(data: seq<HeatMapData>): (s: seq<real>)
    ensures |s| == |data| && forall i :: 0 <= i < |data| ==> s[i] == data[i].callPrice
  {
    seq(|data|, i requires 0 <= i < |data| => data[i].callPrice)
  }

  function PutPrices(data: seq<HeatMapData>): (s: seq<real>)
    ensures |s| == |data| && forall i :: 0 <= i < |data| ==> s[i] == data[i].putPrice
  {
    seq(|data|, i requires 0 <= i < |data| => data[i].putPrice)
  }

  /**
   * Every bar of a column drawn against that column's own minimum and maximum has a width in
   * [0, 100] and a hue in [0, 240], unless all its prices are equal.
   */
  lemma BarsInRange(prices: seq<real>, i: nat)
    requires i < |prices|
    ensures MinOf(prices).Some? && MaxOf(prices).Some?
    ensures MinOf(prices).value <= prices[i] <= MaxOf(prices).value
    ensures MinOf(prices).value != MaxOf(prices).value ==>
      0.0 <= BarWidth(prices[i], MinOf(prices).value, MaxOf(prices).value).value <= 100.0
      && 0.0 <= Hue(prices[i], MinOf(prices).value, MaxOf(prices).value).value <= 240.0
  {
  }

  /** The colour class of a delta cell. */
  datatype DeltaBand = Red | Yellow | Green

  function DeltaBandOf(delta: real): (b: DeltaBand)
    ensures b == Red <==> Abs(delta) > 0.7
    ensures b == Yellow <==> 0.3 < Abs(delta) <= 0.7
    ensures b == Green <==> Abs(delta) <= 0.3
  {
    if Abs(delta) > 0.7 then Red
    else if Abs(delta) > 0.3 then Yellow
    else Green
  }

  /** A long and a short position with the same sensitivity get the same colour. */
  lemma DeltaBandSymmetric(delta: real)
    ensures DeltaBandOf(-delta) == DeltaBandOf(delta)
  {
  }
}
