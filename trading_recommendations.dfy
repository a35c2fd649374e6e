/**
 * The `TradingRecommendations` component (components/TradingRecommendations.tsx): its state,
 * the click handler that classifies the entered market prices with ±5% bands, and the choice
 * of the list it shows.
 *
 * A market-price input is `None` while its text is empty and otherwise holds the number typed.
 */
module TradingRecommendations {
  import opened Wrappers
  import opened OptionTypes
  import Recommendations

  /** The entries this component builds (its message text is not modelled). */
  datatype Advice = Advice(action: Action, optionType: OptionKind)

  /**
   * Buy below 95% of the theoretical price, sell above 105%, hold otherwise; hold is exactly the
   * closed band [0.95·theoretical, 1.05·theoretical], which is empty when the price is negative.
   */
  function Band(theoretical: real, market: real): (a: Action)
    ensures a == Hold <==> theoretical * 0.95 <= market <= theoretical * 1.05
    ensures a == Buy <==> market < theoretical * 0.95
    ensures a == Sell <==> theoretical * 0.95 <= market && market > theoretical * 1.05
  {
    if market < theoretical * 0.95 then Buy
    else if market > theoretical * 1.05 then Sell
    else Hold
  }

  /**
   * How this table relates to the server action's (10%/2% bands): for a non-negative theoretical
   * price a server hold is a hold here, and a high-confidence server signal is the same action here.
   */
  lemma BandAgreesWithServerRule(theoretical: real, market: real)
    requires theoretical >= 0.0
    ensures Recommendations.Classify(theoretical, market).0 == Hold ==> Band(theoretical, market) == Hold
    ensures Recommendations.Classify(theoretical, market).1 == High ==>
      Band(theoretical, market) == Recommendations.Classify(theoretical, market).0
  {
  }

  const MissingPrices := "Please calculate theoretical prices and enter market prices first."

  class TradingRecommendations {
    // props
    var result: Option<CalculationResult>
    var displayOnly: bool
    var externalRecommendations: Option<seq<Advice>>
    // state
    var marketCallPrice: Option<real>
    var marketPutPrice: Option<real>
    var showRecommendations: bool
    var internalRecommendations: seq<Advice>
    var error: Option<string>

    /** First render: empty inputs, nothing shown, no error. */
    constructor (result: Option<CalculationResult>, displayOnly: bool, externalRecommendations: Option<seq<Advice>>)
      ensures this.result == result && this.displayOnly == displayOnly
      ensures this.externalRecommendations == externalRecommendations
      ensures marketCallPrice == None && marketPutPrice == None
      ensures !showRecommendations && internalRecommendations == [] && error == None
    {
      this.result := result;
      this.displayOnly := displayOnly;
      this.externalRecommendations := externalRecommendations;
      marketCallPrice, marketPutPrice := None, None;
      showRecommendations := false;
      internalRecommendations := [];
      error := None;
    }

    /** A re-render with new props keeps the state. */
    method SetProps(result: Option<CalculationResult>, displayOnly: bool, externalRecommendations: Option<seq<Advice>>)
      modifies this`result, this`displayOnly, this`externalRecommendations
      ensures this.result == result && this.displayOnly == displayOnly
      ensures this.externalRecommendations == externalRecommendations
    {
      this.result := result;
      this.displayOnly := displayOnly;
      this.externalRecommendations := externalRecommendations;
    }

    method SetMarketCallPrice(price: Option<real>)
      modifies this`marketCallPrice
      ensures marketCallPrice == price
    {
      marketCallPrice := price;
    }

    method SetMarketPutPrice(price: Option<real>)
      modifies this`marketPutPrice
      ensures marketPutPrice == price
    {
      marketPutPrice := price;
    }

    /** The list shown: the external one (or none) in display-only mode, else the internal one. */
    function Displayed(): (list: seq<Advice>)
      reads this
      ensures displayOnly && externalRecommendations.Some? ==> list == externalRecommendations.value
      ensures displayOnly && externalRecommendations.None? ==> list == []
      ensures !displayOnly ==> list == internalRecommendations
    {
      if displayOnly then (if externalRecommendations.Some? then externalRecommendations.value else [])
      else internalRecommendations
    }

    /** The component renders nothing when there is no result and it is not display-only. */
    predicate RendersNothing()
      reads this
    {
      result.None? && !displayOnly
    }

    /**
     * The "Generate Recommendations" handler. Without a result or with an empty market price it
     * only sets the error; otherwise it clears the error and stores the call advice, then the put
     * advice, and shows them.
     */
    method GenerateRecommendations()
      modifies this`error, this`internalRecommendations, this`showRecommendations
      ensures old(result.None? || marketCallPrice.None? || marketPutPrice.None?) ==>
        error == Some(MissingPrices)
        && internalRecommendations == old(internalRecommendations)
        && showRecommendations == old(showRecommendations)
      ensures old(result.Some? && marketCallPrice.Some? && marketPutPrice.Some?) ==>
        error == None
        && showRecommendations
        && internalRecommendations == [
             Advice(Band(result.value.callOptionPrice, marketCallPrice.value), Call),
             Advice(Band(result.value.putOptionPrice, marketPutPrice.value), Put)]
    {
      if result.None? || marketCallPrice.None? || marketPutPrice.None? {
        error := Some(MissingPrices);
        return;
      }
      error := None;
      var theoreticalCall := result.value.callOptionPrice;
      var theoreticalPut := result.value.putOptionPrice;
      var marketCall := marketCallPrice.value;
      var marketPut := marketPutPrice.value;

      var newRecommendations: seq<Advice> := [];
      if marketCall < theoreticalCall * 0.95 {
        newRecommendations := newRecommendations + [Advice(Buy, Call)];
      } else if marketCall > theoreticalCall * 1.05 {
        newRecommendations := newRecommendations + [Advice(Sell, Call)];
      } else {
        newRecommendations := newRecommendations + [Advice(Hold, Call)];
      }
      if marketPut < theoreticalPut * 0.95 {
        newRecommendations := newRecommendations + [Advice(Buy, Put)];
      } else if marketPut > theoreticalPut * 1.05 {
        newRecommendations := newRecommendations + [Advice(Sell, Put)];
      } else {
        newRecommendations := newRecommendations + [Advice(Hold, Put)];
      }
      internalRecommendations := newRecommendations;
      showRecommendations := true;
    }
  }
}
