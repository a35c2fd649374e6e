/**
 * The headless `StockTicker` component (components/StockTicker.tsx): it requests a quote for a
 * valid ticker and reports it through the optional callbacks `onPriceUpdate` and `onDataUpdate`.
 *
 * The callbacks are modelled by the log `calls` of the invocations made, in order. SWR's
 * `data`, `error` and `isLoading` are arguments of the effect; `parse` is `Number.parseFloat`,
 * with `None` for NaN, and `now` is what `new Date().toLocaleString()` gives.
 */
module StockTicker {
  import opened Wrappers
  import Ticker

  datatype Callback =
    | PriceUpdate(price: real)
    | DataUpdate(ticker: string, price: real, lastUpdate: string)

  const ErrorMessage := "Error fetching data"

  /** JavaScript's `a || b` on an optional string: a missing or empty `a` falls back to `b`. */
  function OrElse(a: Option<string>, b: string): (r: string)
    ensures a.Some? && a.value != "" ==> r == a.value
    ensures a.None? || a.value == "" ==> r == b
  {
    if a.Some? && a.value != "" then a.value else b
  }

  /** The guard of the loaded branch: not loading, and a non-empty price string. */
  predicate Loaded(isLoading: bool, data: Option<Ticker.StockData>) {
    !isLoading && data.Some? && data.value.price.Some? && data.value.price.value != ""
  }

  /** The callbacks one run of the data effect invokes, in order. */
  function EffectCalls(mounted: bool, hasOnPrice: bool, hasOnData: bool, ticker: string, error: bool,
                       isLoading: bool, data: Option<Ticker.StockData>, parse: string -> Option<real>, now: string)
    : seq<Callback>
  {
    if !mounted then []
    else if error then
      (if hasOnData then [DataUpdate(ticker, 0.0, ErrorMessage)] else [])
      + (if hasOnPrice then [PriceUpdate(0.0)] else [])
    else if Loaded(isLoading, data) then
      match parse(data.value.price.value)
      case None => []
      case Some(price) =>
        (if hasOnPrice then [PriceUpdate(price)] else [])
        + (if hasOnData then [DataUpdate(OrElse(data.value.symbol, ticker), price, OrElse(data.value.tradingDay, now))] else [])
    else []
  }

  /**
   * What the effect reports is consistent: at most one call per callback, the price update comes
   * before the data update only on success and after it only on error, and both carry the same
   * price, which is 0 on error and the parsed price otherwise.
   */
  lemma EffectCallsConsistent(mounted: bool, hasOnPrice: bool, hasOnData: bool, ticker: string,
                                error: bool, isLoading: bool, data: Option<Ticker.StockData>,
                                parse: string -> Option<real>, now: string)
    ensures var calls := EffectCalls(mounted, hasOnPrice, hasOnData, ticker, error, isLoading, data, parse, now);
      |calls| <= 2
      && (forall i, j :: 0 <= i < j < |calls| ==> calls[i].price == calls[j].price && calls[i].PriceUpdate? != calls[j].PriceUpdate?)
      && (forall i :: 0 <= i < |calls| ==>
            if error then calls[i].price == 0.0
            else Loaded(isLoading, data) && Some(calls[i].price) == parse(data.value.price.value))
  {
  }

  /** After unmounting nothing is reported. */
  lemma UnmountedIsSilent(hasOnPrice: bool, hasOnData: bool, ticker: string, error: bool, isLoading: bool,
                          data: Option<Ticker.StockData>, parse: string -> Option<real>, now: string)
    ensures EffectCalls(false, hasOnPrice, hasOnData, ticker, error, isLoading, data, parse, now) == []
  {
  }

  /** An error wins over any data: the error report does not depend on the quote or on loading. */
  lemma ErrorTakesPrecedence(hasOnPrice: bool, hasOnData: bool, ticker: string, isLoading: bool,
                             data: Option<Ticker.StockData>, parse: string -> Option<real>, now: string)
    ensures EffectCalls(true, hasOnPrice, hasOnData, ticker, true, isLoading, data, parse, now)
         == EffectCalls(true, hasOnPrice, hasOnData, ticker, true, true, None, parse, now)
    ensures hasOnPrice && hasOnData ==>
      EffectCalls(true, true, true, ticker, true, isLoading, data, parse, now)
      == [DataUpdate(ticker, 0.0, ErrorMessage), PriceUpdate(0.0)]
  {
  }

  /** A price that parses to NaN reports nothing. */
  lemma NaNIsSilent(hasOnPrice: bool, hasOnData: bool, ticker: string, data: Option<Ticker.StockData>,
                    parse: string -> Option<real>, now: string)
    requires Loaded(false, data) && parse(data.value.price.value).None?
    ensures EffectCalls(true, hasOnPrice, hasOnData, ticker, false, false, data, parse, now) == []
  {
  }

  /**
   * On success the price is reported first, then the data, whose ticker is the quote's symbol
   * unless it is missing or empty, and whose timestamp is the trading day unless missing or empty.
   */
  lemma SuccessReportsPriceThenData(ticker: string, data: Option<Ticker.StockData>,
                                    parse: string -> Option<real>, now: string)
    requires Loaded(false, data) && parse(data.value.price.value).Some?
    ensures var price := parse(data.value.price.value).value;
      EffectCalls(true, true, true, ticker, false, false, data, parse, now)
      == [PriceUpdate(price), DataUpdate(OrElse(data.value.symbol, ticker), price, OrElse(data.value.tradingDay, now))]
  {
  }

  class StockTicker {
    var ticker: string
    var isMounted: bool
    /** The callback invocations made so far. */
    var calls: seq<Callback>

    constructor (ticker: string)
      ensures this.ticker == ticker && !isMounted && calls == []
    {
      this.ticker := ticker;
      isMounted := false;
      calls := [];
    }

    /** The request key: no request for an invalid ticker. */
    function FetchKey(): (key: Option<string>)
      reads this
      ensures key.None? <==> !Ticker.IsValidTicker(ticker)
    {
      Ticker.FetchKey(ticker)
    }

    /** Whatever the state, the component renders `null`. */
    function Render(): (view: Option<string>)
      reads this
      ensures view.None?
    {
      None
    }

    /** The mount effect sets the ref. */
    method Mount()
      modifies this`isMounted
      ensures isMounted
    {
      isMounted := true;
    }

    /** Its cleanup clears it. */
    method Unmount()
      modifies this`isMounted
      ensures !isMounted
    {
      isMounted := false;
    }

    /** One run of the data effect appends exactly the callbacks `EffectCalls` describes. */
    method RunDataEffect(hasOnPrice: bool, hasOnData: bool, error: bool, isLoading: bool,
                         data: Option<Ticker.StockData>, parse: string -> Option<real>, now: string)
      modifies this`calls
      ensures calls == old(calls) + EffectCalls(isMounted, hasOnPrice, hasOnData, ticker, error, isLoading, data, parse, now)
    {
      if !isMounted {
        return;
      }
      if error {
        if hasOnData {
          calls := calls + [DataUpdate(ticker, 0.0, ErrorMessage)];
        }
        if hasOnPrice {
          calls := calls + [PriceUpdate(0.0)];
        }
      } else if !isLoading && data.Some? && data.value.price.Some? && data.value.price.value != "" {
        var price := parse(data.value.price.value);
        if price.Some? {
          if hasOnPrice {
            calls := calls + [PriceUpdate(price.value)];
          }
          if hasOnData {
            var symbol := if data.value.symbol.Some? && data.value.symbol.value != "" then data.value.symbol.value else ticker;
            var lastUpdate := if data.value.tradingDay.Some? && data.value.tradingDay.value != "" then data.value.tradingDay.value else now;
            calls := calls + [DataUpdate(symbol, price.value, lastUpdate)];
          }
        }
      }
    }
  }
}
