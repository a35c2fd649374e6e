# Option pricing and statement scraping: a Dafny model

This project models the computational core of a small options-trading web application, plus two
scrapers for financial statements. The parts it covers are:

- **Black–Scholes pricing.** Three variants exist in the repository.
  - The Python `option_pricing` function.
  - The old Express server (`POST /api/data`, with an erf-based normal CDF).
  - The `calculateOption` server action, which drops the dividend and the discount factor and
    uses a polynomial (Zelen–Severo) CDF.
- **The recommendation rules.** The `generateRecommendations` server action uses 10% and 2% bands
  with a confidence level. The `TradingRecommendations` component uses a 5% band.
- **The client components' state logic.**
  - `VolatilityHeatMap`: the 19-point volatility sweep and the bar and colour arithmetic.
  - `OptionCalculator`: ticker validation, the loading-progress timer step, the input handlers
    and its own pricing formula.
  - `StockTicker`: the callbacks its data effect fires.
- **The Yahoo financial-statement scrapers.** There is a JavaScript version (cheerio) and a
  Python version (BeautifulSoup). Both turn a page's `div` texts into rows of 6 cells (5 for the
  balance sheet) headed by `Breakdown`.

## How the model is built

- **Transcendental functions are parameters.** `exp`, `ln` and `sqrt` are bundled in
  `Numerics.MathLib`; `erf` and the Python `norm.cdf` appear as `real -> real`. Each lemma needs
  only a few facts about them, and those facts are stated as predicates in its `requires`:
  - `ExpPositive`: exp is positive.
  - `ExpZeroIsOne`: exp(0) = 1.
  - `SqrtZeroOnlyAtZero`: √ is zero only at 0.
  - `Odd`: erf is odd.
  - `CdfSymmetric`: Φ(x) + Φ(−x) = 1.
  - `CdfBounded`: Φ lies in [0, 1].
- **Numbers are exact reals.**
  - `Number.prototype.toFixed(d)` is `Numerics.ToFixed`: rounding to d decimals with ties away
    from zero.
  - A field the source holds as a `toFixed` string is held as the decimal number it spells, so
    `parseFloat` of such a field is the identity.
- **The components are classes.** A React component with state is a `class`. Its `useState`
  cells are fields. Its handlers are methods whose `modifies` lists the cells they set, and whose
  `ensures` states the whole new state. Loops the source has (the volatility sweep, the scrapers'
  `div` collection, chunking and record building) are `while` loops with invariants. Each loop is
  proved equal to a specification function, and the properties are proved about that function.
- **The outside world is parameters.**
  - Clocks: a timestamp `now`.
  - Network results: an `Option`/`Result` value.
  - `parseFloat`: a `string -> real` or `string -> Option<real>` function (`None` meaning NaN).
  - The server action called by the heat map: a `pricer` function returning a `Result`.

## Model

| member | source | states |
|---|---|---|
| Recommendations.Classify | src/breaking-bad/app/actions/recommendations.ts:24-40 | no contract of its own: the rule table on market − theoretical; StrongPremiumSells, StrongDiscountBuys, ModerateDifference, ConfidenceBands, HoldIffWithinTwoPercent and ActionFollowsSign state it branch by branch |
| Recommendations.Recommend | src/breaking-bad/app/actions/recommendations.ts:42-50 | no contract of its own: the entry pushed for one option; RecommendEchoesPrices states what it carries |
| Recommendations.GenerateRecommendations | src/breaking-bad/app/actions/recommendations.ts:6-88 | exactly two entries, the call first and the put second, each classified on its own pair of prices by the rule table |
| Recommendations.RecommendEchoesPrices | src/breaking-bad/app/actions/recommendations.ts:42-50 | an entry carries its option type, both prices unchanged, and the difference market − theoretical |
| Recommendations.StrongPremiumSells | src/breaking-bad/app/actions/recommendations.ts:24-27 | a difference above 10% of the theoretical price gives sell with high confidence |
| Recommendations.StrongDiscountBuys | src/breaking-bad/app/actions/recommendations.ts:28-31 | otherwise a difference below −10% of the theoretical price gives buy with high confidence |
| Recommendations.ModerateDifference | src/breaking-bad/app/actions/recommendations.ts:32-35 | otherwise a difference beyond 2% gives medium confidence: sell for a premium, buy for a discount |
| Recommendations.ConfidenceBands | src/breaking-bad/app/actions/recommendations.ts:24-40 | high ⇔ abs(diff) > 10%·theoretical; medium ⇔ 2% < abs(diff) ≤ 10%; low ⇔ abs(diff) ≤ 2% (both directions) |
| Recommendations.HoldIffWithinTwoPercent | src/breaking-bad/app/actions/recommendations.ts:36-40 | hold ⇔ abs(diff) ≤ 2%·theoretical ⇔ low confidence; high confidence never holds |
| Recommendations.ActionFollowsSign | src/breaking-bad/app/actions/recommendations.ts:24-35 | for a non-negative theoretical price, sell implies market > theoretical and buy implies market < theoretical |
| Recommendations.NegativeTheoreticalSellsBelow | src/breaking-bad/app/actions/recommendations.ts:24-27 | with theoretical −10 and market −10.5 the rule says strong sell, although the market price is below |
| Calculate.NormalCdf | src/breaking-bad/app/actions/calculate.ts:29-34 | no contract of its own: the Zelen–Severo polynomial; NormalCdfSymmetric and NormalCdfAtZero state where it is and is not symmetric |
| Calculate.CalculateOption | src/breaking-bad/app/actions/calculate.ts:12-27 | no contract of its own: the rounded result; DividendYieldIgnored, ImpliedVolatilityEchoesInput, DisplayedPricesRounded and DisplayedDeltaRounded state what it reports |
| Calculate.NormalCdfSymmetric | src/breaking-bad/app/actions/calculate.ts:29-34 | the polynomial CDF satisfies N(x) + N(−x) = 1 exactly at every x ≠ 0 |
| Calculate.NormalCdfAtZero | src/breaking-bad/app/actions/calculate.ts:33 | at 0 both sides take the `p` branch, so N(0) + N(−0) = 2·0.3989423·1.2533137 ≠ 1 |
| Calculate.DividendYieldIgnored | src/breaking-bad/app/actions/calculate.ts:14-17 | changing the dividend yield changes nothing in the result |
| Calculate.ImpliedVolatilityEchoesInput | src/breaking-bad/app/actions/calculate.ts:23 | the "implied volatility" depends on σ alone and lies within 0.05 of 100·σ |
| Calculate.QuoteUsesOneFactor | src/breaking-bad/app/actions/calculate.ts:15-24 | delta is N(d1), call = S·delta and put = X·N(−d1), with no discount factor |
| Calculate.DisplayedPricesRounded | src/breaking-bad/app/actions/calculate.ts:18-19 | the displayed call and put are within 0.005 of the unrounded prices |
| Calculate.DisplayedDeltaRounded | src/breaking-bad/app/actions/calculate.ts:24 | the displayed delta is within 0.0005 of N(d1) |
| Calculate.QuoteParity | src/breaking-bad/app/actions/calculate.ts:15-19 | for d1 ≠ 0 the unrounded prices satisfy call·X + put·S = S·X, which this variant has in place of put-call parity |
| BlackScholes.OptionPricing | pricing_model/black_scholes.py:6-30 | no contract of its own: the pair (C, P); PutCallParity, PriceBounds and AtTheMoneyCallEqualsPut state its properties |
| BlackScholes.PutCallParity | pricing_model/black_scholes.py:22-30 | C − P = S0·e^{−qt} − X·e^{−rt} for every CDF with Φ(x) + Φ(−x) = 1 |
| BlackScholes.PriceBounds | pricing_model/black_scholes.py:24-29 | for positive S0 and X and Φ in [0,1]: C ≤ S0·e^{−qt}, P ≤ X·e^{−rt}, C ≥ −X·e^{−rt}, P ≥ −S0·e^{−qt} |
| BlackScholes.AtTheMoneyCallEqualsPut | pricing_model/black_scholes.py:6-30 | with S0 = X and r = q = 0 the call and the put are equal |
| Server.ErfNormalCdf | archive/old_stack/back/server/index.js:19-21 | no contract of its own: (1 + erf(x/√2))/2; ErfNormalCdfSymmetric states its symmetry |
| Server.ErfNormalCdfSymmetric | archive/old_stack/back/server/index.js:19-21 | for odd erf, (1 + erf(x/√2))/2 satisfies Φ(x) + Φ(−x) = 1 |
| Server.D1MatchesPython | archive/old_stack/back/server/index.js:10 | the server's d1 (with 0.5·v·v) equals the Python d1 (with v²/2) |
| Server.ExactPrices | archive/old_stack/back/server/index.js:10-14 | no contract of its own: (C, P) before rounding; ExactPricesMatchPython and ExactPutCallParity state what they are |
| Server.CalculateBlackScholes | archive/old_stack/back/server/index.js:9-17 | no contract of its own: both prices passed through `toFixed(4)`; RoundedPutCallParity states what survives the rounding |
| Server.ExactPricesMatchPython | archive/old_stack/back/server/index.js:9-15 | before rounding, the server's (C, P) is the Python `option_pricing` pair under the erf-based CDF |
| Server.ExactPutCallParity | archive/old_stack/back/server/index.js:10-14 | before rounding C − P = S0·e^{−qt} − X·e^{−rt}, given only that erf is odd |
| Server.RoundedPutCallParity | archive/old_stack/back/server/index.js:16 | after `toFixed(4)` the body still keeps parity to within 0.0001 |
| Server.HandleData | archive/old_stack/back/server/index.js:23-32 | status 400 ⇔ some field is falsy, and then the body is the fixed error message; otherwise status 200 with the rounded prices of the given fields |
| Server.ZeroRateOrYieldRejected | archive/old_stack/back/server/index.js:26-28 | a zero interest rate or a zero dividend yield is rejected with 400, like a missing field |
| Server.ResponseParity | archive/old_stack/back/server/index.js:23-32 | a request with six non-zero fields is priced, and its C − P is within 0.0001 of S0·e^{−qt} − X·e^{−rt} |
| Numerics.ToFixed | src/breaking-bad/app/actions/calculate.ts:18-24 | no contract of its own: the magnitude rounded to d places, ties away from zero, then the sign; ToFixedError, ToFixedIdempotent and ToFixedOdd state its properties |
| Numerics.ToFixedError | src/breaking-bad/app/actions/calculate.ts:18-24 | `toFixed(d)` moves a number by at most half a unit in the d-th decimal place |
| Numerics.RoundToScaleError | archive/old_stack/back/server/index.js:16 | rounding to a scale s moves a number by at most 0.5/s |
| Numerics.ToFixedIdempotent | src/breaking-bad/app/actions/calculate.ts:18-19 | rounding an already rounded number again changes nothing |
| Numerics.RoundToScaleIdempotentNonNegative | src/breaking-bad/app/actions/calculate.ts:18-19 | a non-negative number stays non-negative when rounded to scale s, and rounding it twice is the same as rounding once |
| Numerics.ToFixedOdd | src/breaking-bad/app/actions/calculate.ts:18-24 | rounding is symmetric: toFixed(−x) = −toFixed(x) |
| Numerics.RoundToScaleOdd | src/breaking-bad/app/actions/calculate.ts:18-24 | rounding to a scale is symmetric in the sign |
| TradingRecommendations.Band | src/breaking-bad/components/TradingRecommendations.tsx:42-81 | hold ⇔ 0.95·theo ≤ market ≤ 1.05·theo; buy ⇔ market < 0.95·theo; sell ⇔ not buy and market > 1.05·theo |
| TradingRecommendations.BandAgreesWithServerRule | src/breaking-bad/components/TradingRecommendations.tsx:42-60 | for a non-negative theoretical price, a server hold is a component hold, and a high-confidence server action is also the component's action |
| TradingRecommendations.TradingRecommendations.constructor | src/breaking-bad/components/TradingRecommendations.tsx:13-22 | the first render holds the props, empty market prices, no recommendations, nothing shown and no error |
| TradingRecommendations.TradingRecommendations.SetProps | src/breaking-bad/components/TradingRecommendations.tsx:13-17 | new props replace the old ones and leave the state cells alone |
| TradingRecommendations.TradingRecommendations.SetMarketCallPrice | src/breaking-bad/components/TradingRecommendations.tsx:18 | the market call price cell holds the entered value |
| TradingRecommendations.TradingRecommendations.SetMarketPutPrice | src/breaking-bad/components/TradingRecommendations.tsx:19 | the market put price cell holds the entered value |
| TradingRecommendations.TradingRecommendations.Displayed | src/breaking-bad/components/TradingRecommendations.tsx:24 | in display-only mode the list shown is the external list, or empty without one; otherwise it is the internal list |
| TradingRecommendations.TradingRecommendations.RendersNothing | src/breaking-bad/components/TradingRecommendations.tsx:87-89 | no contract of its own: the component returns null exactly when there is no result and it is not display-only |
| TradingRecommendations.TradingRecommendations.GenerateRecommendations | src/breaking-bad/components/TradingRecommendations.tsx:26-85 | without a result or with an empty market price, only the error message is set; otherwise the error is cleared, the call advice then the put advice are stored, and they are shown |
| HeatMap.GridVolatility | src/breaking-bad/components/VolatilityHeatMap.tsx:33 | the k-th loop value is at least 5; it is ≤ 50 exactly for the 19 indices k < 19; the last one is 50 |
| HeatMap.GridAscending | src/breaking-bad/components/VolatilityHeatMap.tsx:33 | the grid is strictly increasing |
| HeatMap.InputsAt | src/breaking-bad/components/VolatilityHeatMap.tsx:34-37 | the priced inputs have volatility vol/100 and agree with the base inputs in every other field |
| HeatMap.Sweep | src/breaking-bad/components/VolatilityHeatMap.tsx:30-47 | the sweep succeeds ⇔ every one of the n pricer calls succeeds; then it has n points, and point k is grid volatility k with the k-th call's prices and delta |
| HeatMap.HeatMap.constructor | src/breaking-bad/components/VolatilityHeatMap.tsx:13-17 | the first render holds the props, no data, nothing shown, not generating, no error |
| HeatMap.HeatMap.SetProps | src/breaking-bad/components/VolatilityHeatMap.tsx:8-13 | new props replace the old ones |
| HeatMap.HeatMap.GenerateHeatMap | src/breaking-bad/components/VolatilityHeatMap.tsx:20-56 | when generation is not allowed only the error is set; otherwise the data is the 19-point sweep, committed and shown only when every call succeeds, a failure sets the error and keeps the old data, and generation ends false |
| HeatMap.MaxOf | src/breaking-bad/components/VolatilityHeatMap.tsx:65-68 | `Math.max` of a non-empty list is an element and bounds every element from above; an empty list has none (−Infinity) |
| HeatMap.MinOf | src/breaking-bad/components/VolatilityHeatMap.tsx:65-68 | `Math.min` of a non-empty list is an element and bounds every element from below; an empty list has none (+Infinity) |
| HeatMap.Normalized | src/breaking-bad/components/VolatilityHeatMap.tsx:60 | defined ⇔ max ≠ min; then the value times (max − min) is value − min, it lies in [0,1] for values in range, with 0 at min and 1 at max |
| HeatMap.Hue | src/breaking-bad/components/VolatilityHeatMap.tsx:59-63 | defined ⇔ max ≠ min; in [0,240] for values in range; 240 (blue) at the minimum, 0 (red) at the maximum |
| HeatMap.BarWidth | src/breaking-bad/components/VolatilityHeatMap.tsx:162 | defined ⇔ max ≠ min; a percentage in [0,100] for values in range; 0 at the minimum, 100 at the maximum |
| HeatMap.HueFollowsWidth | src/breaking-bad/components/VolatilityHeatMap.tsx:161-162 | a bar's hue is 240 − 2.4·its width |
| HeatMap.CallPrices | src/breaking-bad/components/VolatilityHeatMap.tsx:65-66 | the mapped list has one entry per point, the point's call price |
| HeatMap.PutPrices | src/breaking-bad/components/VolatilityHeatMap.tsx:67-68 | the mapped list has one entry per point, the point's put price |
| HeatMap.BarsInRange | src/breaking-bad/components/VolatilityHeatMap.tsx:158-164 | every plotted price lies between the list's min and max, so when they differ its width is in [0,100] and its hue in [0,240] |
| HeatMap.DeltaBandOf | src/breaking-bad/components/VolatilityHeatMap.tsx:217-221 | red ⇔ abs(delta) > 0.7; yellow ⇔ 0.3 < abs(delta) ≤ 0.7; green ⇔ abs(delta) ≤ 0.3 |
| HeatMap.DeltaBandSymmetric | src/breaking-bad/components/VolatilityHeatMap.tsx:217-221 | a delta and its negation get the same colour |
| Ticker.UpperRun | src/breaking-bad/components/OptionCalculator.tsx:23 | the result is the length of the longest prefix made of capital letters A–Z |
| Ticker.IsValidTickerIff | src/breaking-bad/components/StockTicker.tsx:22 | `/^[A-Z]{1,5}$/` accepts exactly the strings of 1 to 5 characters that are all capital letters |
| Ticker.UpperChar | src/breaking-bad/components/OptionCalculator.tsx:121 | 'a'..'z' become the capital 32 code points below; the result is all capitals A–Z ⇔ the character is an ASCII letter, ı, ſ, ß or a ligature U+FB00..U+FB06 (ß and the ligatures give two or three capitals); any other character is kept |
| Ticker.ToUpper | src/breaking-bad/components/OptionCalculator.tsx:121 | between one and three characters per input character; all capitals ⇔ every input character folds into capitals |
| Ticker.ToUpperAppend | src/breaking-bad/components/OptionCalculator.tsx:121 | conversion distributes over concatenation |
| Ticker.ToUpperAscii | src/breaking-bad/components/OptionCalculator.tsx:121 | on ASCII text the length is kept and each character is converted in place |
| Ticker.ToUpperIdempotent | src/breaking-bad/components/OptionCalculator.tsx:121 | converting twice is the same as converting once |
| Ticker.ToUpperValidIff | src/breaking-bad/components/OptionCalculator.tsx:121 | typed text becomes a valid ticker ⇔ every character folds into capitals and there are 1 to 5 capitals in all |
| Ticker.NonAsciiTickers | src/breaking-bad/components/OptionCalculator.tsx:121 | typing "ıbm" fetches the quote of IBM, and typing "ßa" fetches SSA |
| Ticker.ToUpperMakesLettersValid | src/breaking-bad/components/OptionCalculator.tsx:121 | 1–5 ASCII letters of any case are a valid ticker once converted |
| Ticker.FetchKey | src/breaking-bad/components/OptionCalculator.tsx:42-43 | a key exists ⇔ the ticker is valid, and then it is `/api/stock?ticker=` followed by the ticker |
| Ticker.FetchKeyInjective | src/breaking-bad/components/StockTicker.tsx:25-26 | different valid tickers fetch different keys |
| OptionCalculator.WithField | src/breaking-bad/components/OptionCalculator.tsx:80-83 | the named input takes the new value and every other input, and the option type, is kept |
| OptionCalculator.Step | src/breaking-bad/components/OptionCalculator.tsx:51-54 | progress goes up by 5 but never past 90, and stays a multiple of 5 |
| OptionCalculator.ProgressAfterTicks | src/breaking-bad/components/OptionCalculator.tsx:48-55 | after n ticks from 0 the progress is min(5n, 90) |
| OptionCalculator.CallPrice | src/breaking-bad/components/OptionCalculator.tsx:92-104 | no contract of its own: S·N(d1) − X·e^{−rt}·N(d2); BranchParity and AgreesWithDividendFreeModel state its properties |
| OptionCalculator.PutPrice | src/breaking-bad/components/OptionCalculator.tsx:106 | no contract of its own: X·e^{−rt}·N(−d2) − S·N(−d1); BranchParity and AgreesWithDividendFreeModel state its properties |
| OptionCalculator.OptionPrice | src/breaking-bad/components/OptionCalculator.tsx:102-107 | no contract of its own: the call branch for a call, the put branch otherwise; OptionPriceParity and OptionPriceMatchesPython state what it computes |
| OptionCalculator.OptionPriceParity | src/breaking-bad/components/OptionCalculator.tsx:95-107 | the same inputs priced as a call and as a put differ by S − X·e^{−rt} whenever d1 and d2 are non-zero |
| OptionCalculator.OptionPriceMatchesPython | src/breaking-bad/components/OptionCalculator.tsx:92-107 | the component's price is the Python `option_pricing` call (for a call) or put (for a put) with dividend yield 0 and the same CDF |
| OptionCalculator.BranchParity | src/breaking-bad/components/OptionCalculator.tsx:103-107 | call − put = S − X·e^{−rt} for any CDF symmetric at d1 and d2 |
| OptionCalculator.PolynomialBranchParity | src/breaking-bad/components/OptionCalculator.tsx:95-107 | with the component's own polynomial CDF, the same parity holds whenever d1 and d2 are non-zero |
| OptionCalculator.AgreesWithDividendFreeModel | src/breaking-bad/components/OptionCalculator.tsx:92-107 | the call and put branches are the Python `option_pricing` pair with dividend yield 0 |
| OptionCalculator.OptionCalculator.constructor | src/breaking-bad/components/OptionCalculator.tsx:26-38 | the initial state: empty tickers, progress 0, no auto price, no result, all inputs 0 with a call |
| OptionCalculator.OptionCalculator.SetTicker | src/breaking-bad/components/OptionCalculator.tsx:121 | the ticker cell holds the upper-cased text |
| OptionCalculator.OptionCalculator.HandleSubmit | src/breaking-bad/components/OptionCalculator.tsx:75-78 | the submitted ticker becomes the typed one |
| OptionCalculator.OptionCalculator.QuoteKey | src/breaking-bad/components/OptionCalculator.tsx:42-45 | a quote is fetched ⇔ the submitted ticker is valid, under the ticker key |
| OptionCalculator.OptionCalculator.OnLoadingChange | src/breaking-bad/components/OptionCalculator.tsx:47-64 | the loading flag is tracked; progress restarts at 0 while loading and is 100 once loading stops |
| OptionCalculator.OptionCalculator.Tick | src/breaking-bad/components/OptionCalculator.tsx:50-55 | while loading, one interval tick applies the capped +5 step and never lowers progress |
| OptionCalculator.OptionCalculator.OnQuoteData | src/breaking-bad/components/OptionCalculator.tsx:66-73 | when loading is done and a non-empty price arrived, progress is 100 and the parsed price becomes both the auto price and the stock-price input; otherwise nothing changes |
| OptionCalculator.OptionCalculator.HandleInputChange | src/breaking-bad/components/OptionCalculator.tsx:80-83 | only the named input changes |
| OptionCalculator.OptionCalculator.HandleOptionTypeChange | src/breaking-bad/components/OptionCalculator.tsx:85-87 | only the option type changes |
| OptionCalculator.OptionCalculator.CalculateOption | src/breaking-bad/components/OptionCalculator.tsx:89-113 | the result is the price for the current inputs and option type, stamped with the clock's time |
| StockTicker.OrElse | src/breaking-bad/components/StockTicker.tsx:57-61 | the JavaScript or-operator on an optional string: a when present and non-empty, otherwise b |
| StockTicker.EffectCalls | src/breaking-bad/components/StockTicker.tsx:43-64 | no contract of its own: the callbacks one effect run fires; EffectCallsConsistent, UnmountedIsSilent, ErrorTakesPrecedence, NaNIsSilent and SuccessReportsPriceThenData state them case by case |
| StockTicker.EffectCallsConsistent | src/breaking-bad/components/StockTicker.tsx:43-64 | at most two callbacks per run, one of each kind, carrying the same price, which is 0 on error and the parsed price otherwise |
| StockTicker.UnmountedIsSilent | src/breaking-bad/components/StockTicker.tsx:45-47 | an unmounted component fires no callback |
| StockTicker.ErrorTakesPrecedence | src/breaking-bad/components/StockTicker.tsx:49-51 | an error reports price 0, whatever the data, with the data update before the price update |
| StockTicker.NaNIsSilent | src/breaking-bad/components/StockTicker.tsx:53-54 | a price that parses to NaN fires nothing |
| StockTicker.SuccessReportsPriceThenData | src/breaking-bad/components/StockTicker.tsx:52-62 | a parsed price is reported first, then the data with symbol and trading day falling back to the ticker and the clock |
| StockTicker.StockTicker.constructor | src/breaking-bad/components/StockTicker.tsx:24-31 | a new component holds its ticker, is not mounted, and has fired nothing |
| StockTicker.StockTicker.FetchKey | src/breaking-bad/components/StockTicker.tsx:25-28 | nothing is fetched ⇔ the ticker is invalid |
| StockTicker.StockTicker.Render | src/breaking-bad/components/StockTicker.tsx:67 | the component renders nothing |
| StockTicker.StockTicker.Mount | src/breaking-bad/components/StockTicker.tsx:33-35 | mounting sets the mounted flag |
| StockTicker.StockTicker.Unmount | src/breaking-bad/components/StockTicker.tsx:38-40 | unmounting clears the mounted flag |
| StockTicker.StockTicker.RunDataEffect | src/breaking-bad/components/StockTicker.tsx:43-64 | one effect run appends exactly the callbacks the effect specifies to the log of fired callbacks |
| ListOps.ResolveIndex | src/front/my-app/lib/scrapers/yahoo_financial_statements_scraper.js:18 | a slice index is clamped into [0, length], and a negative index counts from the end |
| ListOps.Slice | src/front/my-app/lib/scrapers/yahoo_financial_statements_scraper.js:18-22 | a slice is never longer than the list |
| ListOps.SliceMiddle | src/front/my-app/lib/scrapers/yahoo_financial_statements_scraper.js:18 | `slice(13, -5)` is empty for at most 18 items and otherwise drops the first 13 and the last 5 |
| ListOps.Filter | src/front/my-app/lib/scrapers/yahoo_financial_statements_scraper.js:16-17 | a filter keeps exactly the items satisfying the predicate: each kept item satisfies it and was in the list, and every satisfying item is kept |
| ListOps.FilterAppend | src/front/my-app/lib/scrapers/yahoo_financial_statements_scraper.js:16-17 | filtering distributes over concatenation, so it keeps the order |
| ListOps.FlattenAppend | src/front/my-app/lib/scrapers/yahoo_financial_statements_scraper.js:21-23 | flattening distributes over concatenation |
| ListOps.Chunks | src/front/my-app/lib/scrapers/yahoo_financial_statements_scraper.js:21-23 | every row but the last has k cells; the last has 1 to k; there are rows ⇔ the list is non-empty |
| ListOps.ChunksFlatten | src/front/my-app/lib/scrapers/yahoo_financial_statements_scraper.js:21-23 | the rows concatenated give back the list: no item is lost, repeated or reordered |
| ListOps.ChunksBounds | src/front/my-app/lib/scrapers/yahoo_financial_statements_scraper.js:21-23 | k·rows − k < length ≤ k·rows |
| ListOps.ChunksCount | src/front/my-app/lib/scrapers/yahoo_financial_statements_scraper.js:21-23 | there are ⌈length/k⌉ rows |
| ListOps.Groups | scrapers/souped_up/yahoo_financial_statements_scraper.py:20 | `zip(*[iter(l)]*k)` gives groups of exactly k; there are none ⇔ fewer than k items |
| ListOps.GroupsBounds | scrapers/souped_up/yahoo_financial_statements_scraper.py:20 | k·groups ≤ length < k·groups + k: fewer than k items are dropped |
| ListOps.GroupsFlatten | scrapers/souped_up/yahoo_financial_statements_scraper.py:20 | the groups concatenated are the list truncated to k·groups items: nothing else is lost, repeated or reordered |
| ListOps.GroupsCount | scrapers/souped_up/yahoo_financial_statements_scraper.py:20 | there are ⌊length/k⌋ groups |
| ListOps.GroupsArePrefixOfChunks | scrapers/souped_up/yahoo_financial_statements_scraper.py:20 | the Python groups are the first JavaScript rows, and all of them when k divides the length |
| StatementLayout.RowWidth | src/front/my-app/lib/scrapers/yahoo_financial_statements_scraper.js:21-23 | 5 cells per row for the balance sheet, 6 for the income statement and the cash flow |
| StatementLayout.StartsWith | src/front/my-app/lib/scrapers/yahoo_financial_statements_scraper.js:17 | true ⇔ the string is the prefix followed by some rest |
| StatementLayout.Body | src/front/my-app/lib/scrapers/yahoo_financial_statements_scraper.js:18-19 | `Breakdown` is first; after it come the items without their first 13 and last 5, or nothing when there are at most 18 |
| StatementScraperJs.TrimStart | src/front/my-app/lib/scrapers/yahoo_financial_statements_scraper.js:11 | the result is a suffix; everything removed is whitespace, and it does not start with whitespace |
| StatementScraperJs.TrimEnd | src/front/my-app/lib/scrapers/yahoo_financial_statements_scraper.js:11 | the result is a prefix; everything removed is whitespace, and it does not end with whitespace |
| StatementScraperJs.Trim | src/front/my-app/lib/scrapers/yahoo_financial_statements_scraper.js:11 | a non-empty result has no whitespace at either end; the result is empty ⇔ the text is all whitespace |
| StatementScraperJs.Trimmed | src/front/my-app/lib/scrapers/yahoo_financial_statements_scraper.js:10-11 | each div's text is trimmed at its own position |
| StatementScraperJs.CollectTexts | src/front/my-app/lib/scrapers/yahoo_financial_statements_scraper.js:9-15 | the loop collects exactly the non-empty trimmed texts, in document order |
| StatementScraperJs.Filtered | src/front/my-app/lib/scrapers/yahoo_financial_statements_scraper.js:16-17 | what survives is a non-empty, non-label, non-script item from the list, and every such item survives |
| StatementScraperJs.ChunkRows | src/front/my-app/lib/scrapers/yahoo_financial_statements_scraper.js:20-23 | the `i += k` loop produces exactly the row chunking of the list |
| StatementScraperJs.Record | src/front/my-app/lib/scrapers/yahoo_financial_statements_scraper.js:27-30 | a record's keys are exactly the headers |
| StatementScraperJs.RecordLastOccurrenceWins | src/front/my-app/lib/scrapers/yahoo_financial_statements_scraper.js:28-30 | for a header not repeated later, its value is the row cell at its position (undefined past the row's end): a repeated header keeps its last column |
| StatementScraperJs.RowRecord | src/front/my-app/lib/scrapers/yahoo_financial_statements_scraper.js:26-31 | the `forEach` loop builds exactly the record of the row |
| StatementScraperJs.Records | src/front/my-app/lib/scrapers/yahoo_financial_statements_scraper.js:26-32 | one record per data row, in order, each the record of its row |
| StatementScraperJs.Rows | src/front/my-app/lib/scrapers/yahoo_financial_statements_scraper.js:18-25 | there is always a header row, and its first cell is `Breakdown` |
| StatementScraperJs.YahooStatement | src/front/my-app/lib/scrapers/yahoo_financial_statements_scraper.js:4-38 | no records (undefined) ⇔ the fetch failed; otherwise the statement of the fetched page |
| StatementScraperJs.Statement | src/front/my-app/lib/scrapers/yahoo_financial_statements_scraper.js:9-32 | no contract of its own: the records of a page; StatementFromRecords, StatementCount, RecordsHaveFirstHeader and ShortPageHasNoRecords state their shape |
| StatementScraperJs.StatementCount | src/front/my-app/lib/scrapers/yahoo_financial_statements_scraper.js:21-32 | the number of records is ⌈body length / row width⌉ − 1 |
| StatementScraperJs.RecordsHaveFirstHeader | src/front/my-app/lib/scrapers/yahoo_financial_statements_scraper.js:24-30 | every record has a `Breakdown` key |
| StatementScraperJs.ShortPageHasNoRecords | src/front/my-app/lib/scrapers/yahoo_financial_statements_scraper.js:18-25 | a page with at most 18 surviving items gives no records |
| StatementScraperPy.Contribution | scrapers/souped_up/yahoo_financial_statements_scraper.py:12-14 | a div adds its string, then its title exactly when the two differ |
| StatementScraperPy.Contributions | scrapers/souped_up/yahoo_financial_statements_scraper.py:11-14 | one contribution per div, in document order |
| StatementScraperPy.CollectDivs | scrapers/souped_up/yahoo_financial_statements_scraper.py:10-14 | the loop collects exactly the concatenated contributions |
| StatementScraperPy.DropFalsy | scrapers/souped_up/yahoo_financial_statements_scraper.py:16 | `filter(None, …)` keeps exactly the present, non-empty strings |
| StatementScraperPy.DropFalsyAppend | scrapers/souped_up/yahoo_financial_statements_scraper.py:16 | `filter(None, …)` distributes over concatenation, so it keeps the order |
| StatementScraperPy.Filtered | scrapers/souped_up/yahoo_financial_statements_scraper.py:15-17 | every survivor is a non-empty, non-label, non-script string from the list, and every such string in the list survives |
| StatementScraperPy.FilteredAppend | scrapers/souped_up/yahoo_financial_statements_scraper.py:15-17 | the three filters together distribute over concatenation, so the survivors keep their document order |
| StatementScraperPy.TableOf | scrapers/souped_up/yahoo_financial_statements_scraper.py:21-24 | `iloc[0]` fails ⇔ there are no groups; otherwise the first group is the header and the rest are the rows |
| StatementScraperPy.YahooTable | scrapers/souped_up/yahoo_financial_statements_scraper.py:6-27 | the loop-based scraper returns exactly the specified table |
| StatementScraperPy.Statement | scrapers/souped_up/yahoo_financial_statements_scraper.py:10-24 | no contract of its own: the table of a page; YahooTable, StatementShape, ShortPageFails and AgreesWithJavaScriptRows state it |
| StatementScraperPy.StatementShape | scrapers/souped_up/yahoo_financial_statements_scraper.py:18-24 | a table exists ⇔ the body fills one row; then the header starts with `Breakdown`, the header and every row have the row width, and there are ⌊body length / width⌋ − 1 rows |
| StatementScraperPy.ShortPageFails | scrapers/souped_up/yahoo_financial_statements_scraper.py:18-22 | at most 18 surviving items leave only `Breakdown`, which is too few for one group, so `iloc[0]` raises |
| StatementScraperPy.AgreesWithJavaScriptRows | scrapers/souped_up/yahoo_financial_statements_scraper.py:20 | from the same items, the Python groups are the JavaScript rows without a short last row |

## Left out

- **Floating point.** Arithmetic is on exact reals. IEEE rounding, NaN and ±Infinity are not
  modelled. Where a formula divides by X or by v·√t, the model requires the divisor to be
  non-zero. What the source does with a zero divisor is not modelled:
  - The JavaScript formulas (Calculate.CalculateOption, Server.ExactPrices and
    OptionCalculator.OptionCalculator.CalculateOption) would continue with Infinity or NaN.
  - BlackScholes.OptionPricing: `S0 / X` in pricing_model/black_scholes.py is a division of
    Python numbers (pricing_model/helper.py:5 reads them with `float`), so X = 0 raises
    `ZeroDivisionError`. A zero v·√t is a division of NumPy floats, which gives inf or nan.
  - Server.HandleData needs no such precondition, because its own guard rules out zero fields.
- Numerics.ToFixed: rounds the exact decimal value, ties away from zero. `toFixed` on a binary
  double can round a tie such as 1.005 the other way.
- **Transcendentals.** `Math.exp`, `Math.log`, `Math.sqrt`, `Math.erf` and `scipy.stats.norm.cdf`
  are parameters constrained only by the stated predicates.
  - Standard JavaScript has no `Math.erf`, so the old server would throw at run time. The model
    takes erf as given.
- **String results.** `toFixed` strings are exact decimal numbers. The `"%"` suffix of the
  implied volatility is not modelled. The free-text `reason` and `message` fields of
  recommendations are not modelled.
- **Timers and asynchrony.**
  - The simulated delays (`setTimeout`) are left out.
  - `async`/`await` ordering is left out.
  - The 100 ms `setInterval` is left out; only one tick of it is modelled (OptionCalculator.Tick).
  - SWR caching and deduplication are left out.
- **I/O and libraries.**
  - The network (`fetch`, `axios.get`, `urlopen`), cheerio and BeautifulSoup parsing, and
    `console`/`warnings` output are left out.
  - A scraper receives the page's div texts (JavaScript) or div string/title pairs (Python) as a
    value.
  - The JavaScript scraper's caught error is modelled as a `Failure` page; the Python scraper has
    no `try`.
- **pandas.** The Python scraper's `set_index('Breakdown')` and the DataFrame itself are not
  modelled; the result is a header plus rows.
- **Clocks.** `new Date()` values are parameters (`now`).
- **Server request fields.** Each field is a number or absent. JSON strings and booleans, which
  JavaScript truthiness would also accept, are not modelled.
- **Math.max and Math.min of an empty list.** These give −Infinity and +Infinity; the model
  returns `None` and does not compute the NaN bar widths that would follow.
- TradingRecommendations.TradingRecommendations.GenerateRecommendations: a market-price field is
  `None` when empty and otherwise the number `parseFloat` reads from it. Text that parses to NaN
  is not modelled; there every comparison is false and the source would advise hold.
- OptionCalculator.OptionCalculator.HandleInputChange and OnQuoteData: `parseFloat` is a total
  function to reals, so a NaN input value is not modelled.
- Ticker.UpperChar: models the case mappings of `toUpperCase` that end in capitals A–Z only:
  'a'..'z', the dotless ı (to I), the long ſ (to S), the sharp ß (to SS) and the ligatures
  U+FB00..U+FB06 (to FF, FI, FL, FFI, FFL, ST, ST). Every other character is kept as it is,
  although `toUpperCase` maps many of them (é to É, Greek and Cyrillic letters, and so on). None
  of those results consists of capitals A–Z alone, so validity and the fetch key are the same in
  the model and the source; only the text shown in the ticker field differs.
- Ticker.ToUpper: inherits that gap, character by character; its length can therefore differ from
  the source's for characters that `toUpperCase` expands into non-ASCII text (such as ŉ).
- **Rendering.** JSX markup, animations and CSS are left out, except the arithmetic behind bar
  widths, hues and delta colours. The `RendersNothing` and `Render` conditions are kept.
- **The heat map's own parsing.** In VolatilityHeatMap.tsx, `parseFloat` of the prices is the
  identity, because the points hold numbers.
- **Object keys.** In the JavaScript record objects, a key such as `__proto__` is special; keys
  are modelled as ordinary map keys. A JavaScript object also keeps its keys in insertion order
  (integer-like keys first, ascending); the model's `map` has no key order.
