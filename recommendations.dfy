/**
 * The server action `generateRecommendations` (app/actions/recommendations.ts): the market price
 * of each option is compared with its theoretical price, with bands at 10% and 2% of the
 * theoretical price. The simulated delay and the free-text reasons are not modelled.
 */
module Recommendations {
  import opened Numerics
  import opened OptionTypes

  /** The rule table, on the difference market − theoretical. */
  function Classify(theoretical: real, market: real): (Action, Confidence) {
    var diff := market - theoretical;
    if diff > theoretical * 0.10 then (Sell, High)
    else if diff < -theoretical * 0.10 then (Buy, High)
    else if Abs(diff) > theoretical * 0.02 then (if diff > 0.0 then Sell else Buy, Medium)
    else (Hold, Low)
  }

  /** The entry the action builds for one option. */
  function Recommend(kind: OptionKind, theoretical: real, market: real): OptionRecommendation {
    var (action, confidence) := Classify(theoretical, market);
    OptionRecommendation(kind, action, confidence, theoretical, market, market - theoretical)
  }

  /**
   * `generateRecommendations`: the call entry, then the put entry, each classified on its own
   * pair of prices.
   */
  method GenerateRecommendations(theoreticalCallPrice: real, marketCallPrice: real,
                                 theoreticalPutPrice: real, marketPutPrice: real)
    returns (recommendations: seq<OptionRecommendation>)
    ensures |recommendations| == 2
    ensures recommendations[0].kind == Call && recommendations[1].kind == Put
    ensures recommendations[0] == Recommend(Call, theoreticalCallPrice, marketCallPrice)
    ensures recommendations[1] == Recommend(Put, theoreticalPutPrice, marketPutPrice)
  {
    recommendations := [];

    var callPriceDifference := marketCallPrice - theoreticalCallPrice;
    var callAction: Action;
    var callConfidence: Confidence;
    if callPriceDifference > theoreticalCallPrice * 0.10 {
      callAction, callConfidence := Sell, High;
    } else if callPriceDifference < -theoreticalCallPrice * 0.10 {
      callAction, callConfidence := Buy, High;
    } else if Abs(callPriceDifference) > theoreticalCallPrice * 0.02 {
      callAction := if callPriceDifference > 0.0 then Sell else Buy;
      callConfidence := Medium;
    } else {
      callAction, callConfidence := Hold, Low;
    }
    recommendations := recommendations + [OptionRecommendation(
      Call, callAction, callConfidence, theoreticalCallPrice, marketCallPrice, callPriceDifference)];

    var putPriceDifference := marketPutPrice - theoreticalPutPrice;
    var putAction: Action;
    var putConfidence: Confidence;
    if putPriceDifference > theoreticalPutPrice * 0.10 {
      putAction, putConfidence := Sell, High;
    } else if putPriceDifference < -theoreticalPutPrice * 0.10 {
      putAction, putConfidence := Buy, High;
    } else if Abs(putPriceDifference) > theoreticalPutPrice * 0.02 {
      putAction := if putPriceDifference > 0.0 then Sell else Buy;
      putConfidence := Medium;
    } else {
      putAction, putConfidence := Hold, Low;
    }
    recommendations := recommendations + [OptionRecommendation(
      Put, putAction, putConfidence, theoreticalPutPrice, marketPutPrice, putPriceDifference)];
  }

  /** Each entry echoes its two prices and reports their difference, market − theoretical. */
  lemma RecommendEchoesPrices(kind: OptionKind, theoretical: real, market: real)
    ensures Recommend(kind, theoretical, market).kind == kind
    ensures Recommend(kind, theoretical, market).theoreticalPrice == theoretical
    ensures Recommend(kind, theoretical, market).marketPrice == market
    ensures Recommend(kind, theoretical, market).priceDifference == market - theoretical
  {
  }

  /** A premium of more than 10% is a high-confidence sell. */
  lemma StrongPremiumSells(theoretical: real, market: real)
    requires market - theoretical > theoretical * 0.10
    ensures Classify(theoretical, market) == (Sell, High)
  {
  }

  /** Otherwise a discount of more than 10% is a high-confidence buy. */
  lemma StrongDiscountBuys(theoretical: real, market: real)
    requires !(market - theoretical > theoretical * 0.10)
    requires market - theoretical < -theoretical * 0.10
    ensures Classify(theoretical, market) == (Buy, High)
  {
  }

  /** Otherwise a difference beyond 2% gives medium confidence, selling a premium, buying a discount. */
  lemma ModerateDifference(theoretical: real, market: real)
    requires var diff := market - theoretical;
      !(diff > theoretical * 0.10) && !(diff < -theoretical * 0.10) && Abs(diff) > theoretical * 0.02
    ensures Classify(theoretical, market).1 == Medium
    ensures Classify(theoretical, market).0 == (if market - theoretical > 0.0 then Sell else Buy)
  {
  }

  /**
   * The confidence depends on the size of the difference alone, whatever the sign of the
   * theoretical price: high beyond 10%, medium between 2% and 10%, low within 2%.
   */
  lemma ConfidenceBands(theoretical: real, market: real)
    ensures Classify(theoretical, market).1 == High <==> Abs(market - theoretical) > theoretical * 0.10
    ensures Classify(theoretical, market).1 == Medium <==>
      theoretical * 0.02 < Abs(market - theoretical) <= theoretical * 0.10
    ensures Classify(theoretical, market).1 == Low <==> Abs(market - theoretical) <= theoretical * 0.02
  {
  }

  /**
   * Hold happens exactly within the 2% band, and only with low confidence; low confidence never
   * comes with buy or sell, and high confidence never with hold.
   */
  lemma HoldIffWithinTwoPercent(theoretical: real, market: real)
    ensures Classify(theoretical, market).0 == Hold <==> Abs(market - theoretical) <= theoretical * 0.02
    ensures Classify(theoretical, market).0 == Hold <==> Classify(theoretical, market).1 == Low
    ensures Classify(theoretical, market).1 == High ==> Classify(theoretical, market).0 != Hold
  {
  }

  /**
   * For a non-negative theoretical price, sell means the market price is above it and buy means
   * it is below it. (With a negative theoretical price every difference is "high", and a
   * market price below the theoretical one can still be a sell.)
   */
  lemma ActionFollowsSign(theoretical: real, market: real)
    requires theoretical >= 0.0
    ensures Classify(theoretical, market).0 == Sell ==> market > theoretical
    ensures Classify(theoretical, market).0 == Buy ==> market < theoretical
  {
  }

  /** A concrete case of the remark above: theoretical −10, market −10.5 is a high-confidence sell. */
  lemma NegativeTheoreticalSellsBelow()
    ensures Classify(-10.0, -10.5) == (Sell, High)
  {
  }
}
