/** The market-data handlers of backend/api/market_data_routes.py: the comma-separated
    symbol and indicator lists, the batch price route and the two candle routes with their
    period and count checks. The ticker, candle and indicator services are function
    parameters; `None` from one of them is an exception it raised. */
module MarketDataRoutes {
  import opened Wrappers
  import opened Seqs
  import opened Text
  import HyperliquidMarketData

  // ---------------------------------------------------------------- comma-separated lists

  /** What a list entry looks like after parsing: not empty, no comma, no surrounding space. */
  predicate Clean(x: string) {
    x != "" && ',' !in x && Unpadded(x)
  }

  predicate Unpadded(x: string) {
    x == [] || (!IsSpace(x[0]) && !IsSpace(x[|x| - 1]))
  }

  function StrippedParts(parts: seq<string>): (r: seq<string>)
    ensures |r| <= |parts|
    ensures forall i :: 0 <= i < |r| ==> r[i] != "" && Unpadded(r[i])
    decreases |parts|
  {
    if parts == [] then []
    else
      var head := Strip(parts[0]);
      (if head != "" then [head] else []) + StrippedParts(parts[1..])
  }

  /** `[s.strip() for s in text.split(',') if s.strip()]` */
  function ParseCommaList(text: string): (r: seq<string>)
    ensures forall i :: 0 <= i < |r| ==> Clean(r[i])
  {
    var parts := Split(text, ',');
    StrippedPartsNoComma(parts);
    var r := StrippedParts(parts);
    assert forall i :: 0 <= i < |r| ==> r[i] in r;
    r
  }

  /** Stripping comma-free parts leaves them comma-free. */
  lemma {:induction false} StrippedPartsNoComma(parts: seq<string>)
    requires forall k :: 0 <= k < |parts| ==> ',' !in parts[k]
    ensures forall x :: x in StrippedParts(parts) ==> ',' !in x
    decreases |parts|
  {
    if parts != [] {
      var head := Strip(parts[0]);
      var rest := parts[1..];
      assert forall k :: 0 <= k < |rest| ==> rest[k] == parts[k + 1];
      StrippedPartsNoComma(rest);
      if ',' in head {
        StripChars(parts[0], ',');
      }
      var front := if head != "" then [head] else [];
      assert StrippedParts(parts) == front + StrippedParts(rest);
    }
  }

  lemma {:induction false} StrippedCleanParts(items: seq<string>)
    requires forall i :: 0 <= i < |items| ==> items[i] != "" && Unpadded(items[i])
    ensures StrippedParts(items) == items
    decreases |items|
  {
    if items != [] {
      var rest := items[1..];
      assert forall i :: 0 <= i < |rest| ==> rest[i] == items[i + 1];
      StripUnpadded(items[0]);
      StrippedCleanParts(rest);
      StrippedPartsCons(items[0], rest);
      assert [items[0]] + rest == items;
    }
  }

  lemma StrippedPartsCons(x: string, rest: seq<string>)
    requires x != "" && Strip(x) == x
    ensures StrippedParts([x] + rest) == [x] + StrippedParts(rest)
  {
    assert ([x] + rest)[0] == x;
    assert ([x] + rest)[1..] == rest;
  }

  /** Parsing a comma-join of clean entries gives the entries back. */
  lemma ParseJoinRoundTrip(items: seq<string>)
    requires forall i :: 0 <= i < |items| ==> Clean(items[i])
    ensures ParseCommaList(Join(",", items)) == items
  {
    if items == [] {
      assert Split("", ',') == [""];
    } else {
      SplitJoin(items, ',');
      StrippedCleanParts(items);
    }
  }

  /** Parsing is idempotent: the parsed list re-joined parses to itself. */
  lemma ParseIdempotent(text: string)
    ensures ParseCommaList(Join(",", ParseCommaList(text))) == ParseCommaList(text)
  {
    ParseJoinRoundTrip(ParseCommaList(text));
  }

  lemma {:induction false} StrippedBlankParts(parts: seq<string>)
    requires forall i :: 0 <= i < |parts| ==> forall k :: 0 <= k < |parts[i]| ==> IsSpace(parts[i][k])
    ensures StrippedParts(parts) == []
    decreases |parts|
  {
    if parts != [] {
      StripBlank(parts[0]);
      StrippedBlankParts(parts[1..]);
    }
  }

  /** A blank string parses to no entries, so the `indicators.strip()` test before parsing
      does not change the outcome. */
  lemma BlankParsesEmpty(text: string)
    requires Strip(text) == ""
    ensures ParseCommaList(text) == []
  {
    StripBlank(text);
    var parts := Split(text, ',');
    forall i, k | 0 <= i < |parts| && 0 <= k < |parts[i]|
      ensures IsSpace(parts[i][k])
    {
      SplitChars(text, ',', i, parts[i][k]);
    }
    StrippedBlankParts(parts);
  }

  // ---------------------------------------------------------------- batch prices

  const MAX_SYMBOLS := 20

  /** What `get_ticker_data` returns; `None` is a key the dict does not have. */
  datatype TickerData = TickerData(
    symbol: string, price: real, oraclePrice: Option<real>, change24h: real, volume24h: real,
    percentage24h: real, openInterest: Option<real>, fundingRate: Option<real>)

  datatype PriceResponse = PriceResponse(
    symbol: string, market: string, price: real, oraclePrice: real, change24h: real, volume24h: real,
    percentage24h: real, openInterest: real, fundingRate: real, timestamp: int)

  /** One row of the batch answer; the optional fields read as 0. */
  function PriceOf(t: TickerData, market: string, timestamp: int): (p: PriceResponse)
    ensures p.symbol == t.symbol && p.market == market && p.timestamp == timestamp
    ensures p.oraclePrice == t.oraclePrice.GetOr(0.0) && p.openInterest == t.openInterest.GetOr(0.0)
    ensures p.fundingRate == t.fundingRate.GetOr(0.0)
  {
    PriceResponse(t.symbol, market, t.price, t.oraclePrice.GetOr(0.0), t.change24h, t.volume24h,
                  t.percentage24h, t.openInterest.GetOr(0.0), t.fundingRate.GetOr(0.0), timestamp)
  }

  /** The rows for `symbols` in order, a symbol whose ticker fails being skipped. */
  function PriceRows(symbols: seq<string>, market: string, ticker: (string, string) -> Option<TickerData>, timestamp: int)
    : (rows: seq<PriceResponse>)
    ensures forall k :: 0 <= k < |rows| ==> rows[k].timestamp == timestamp
    decreases |symbols|
  {
    if symbols == [] then []
    else
      var init := PriceRows(symbols[..|symbols| - 1], market, ticker, timestamp);
      var t := ticker(symbols[|symbols| - 1], market);
      if t.Some? then init + [PriceOf(t.value, market, timestamp)] else init
  }

  function Answers(market: string, ticker: (string, string) -> Option<TickerData>): string -> bool {
    s => ticker(s, market).Some?
  }

  /** One row per symbol whose ticker answered, in input order, all with the same timestamp. */
  lemma {:induction false} PriceRowsFollowAnswers(symbols: seq<string>, market: string,
                                                 ticker: (string, string) -> Option<TickerData>, timestamp: int)
    ensures var rows := PriceRows(symbols, market, ticker, timestamp);
            var answered := Filter(symbols, Answers(market, ticker));
            |rows| == |answered|
            && forall k :: 0 <= k < |rows| ==> ticker(answered[k], market).Some? && rows[k] == PriceOf(ticker(answered[k], market).value, market, timestamp)
    decreases |symbols|
  {
    if symbols != [] {
      var p := symbols[..|symbols| - 1];
      var s := symbols[|symbols| - 1];
      assert symbols == p + [s];
      FilterAppend(p, [s], Answers(market, ticker));
      PriceRowsFollowAnswers(p, market, ticker, timestamp);
    }
  }

  /** The loop over the parsed symbols, appending the row of each ticker that answered. */
  method FetchTickers(list: seq<string>, market: string, ticker: (string, string) -> Option<TickerData>, nowMs: int)
    returns (results: seq<PriceResponse>)
    ensures results == PriceRows(list, market, ticker, nowMs)
  {
    results := [];
    for i := 0 to |list|
      invariant results == PriceRows(list[..i], market, ticker, nowMs)
    {
      assert list[..i + 1][..i] == list[..i];
      var t := ticker(list[i], market);
      if t.Some? {
        results := results + [PriceOf(t.value, market, nowMs)];
      }
    }
    assert list[..|list|] == list;
  }

  /** `get_multiple_prices`: 400 for an empty list and for more than 20 symbols; otherwise
      the rows of the symbols that answered, stamped with the one time taken before the loop. */
  method GetMultiplePrices(symbols: string, market: string, ticker: (string, string) -> Option<TickerData>, nowMs: int)
    returns (r: Result<seq<PriceResponse>, HttpError>)
    ensures ParseCommaList(symbols) == [] ==> r == Err(HttpError(400, "crypto symbol list cannot be empty"))
    ensures |ParseCommaList(symbols)| > MAX_SYMBOLS ==> r == Err(HttpError(400, "Maximum 20 crypto symbols supported"))
    ensures 1 <= |ParseCommaList(symbols)| <= MAX_SYMBOLS ==> r == Ok(PriceRows(ParseCommaList(symbols), market, ticker, nowMs))
    ensures r.Ok? ==> forall k :: 0 <= k < |r.value| ==> r.value[k].timestamp == nowMs
  {
    var list := ParseCommaList(symbols);
    if |list| == 0 {
      return Err(HttpError(400, "crypto symbol list cannot be empty"));
    }
    if |list| > MAX_SYMBOLS {
      return Err(HttpError(400, "Maximum 20 crypto symbols supported"));
    }
    var results := FetchTickers(list, market, ticker, nowMs);
    r := Ok(results);
  }

  // ---------------------------------------------------------------- candles

  const VALID_PERIODS: seq<string> := ["1m", "3m", "5m", "15m", "30m", "1h", "2h", "4h", "8h", "12h", "1d", "3d", "1w", "1M"]
  const MAX_COUNT := 500

  /** Every period the routes accept reaches the exchange client unchanged. */
  lemma ValidPeriodsAreTimeframes(period: string)
    requires period in VALID_PERIODS
    ensures HyperliquidMarketData.Timeframe(period) == period
  {
  }

  /** The two candle routes answer the same checks with different wording. */
  datatype CandleRoute = CryptoKline | KlineWithIndicators

  function PeriodError(route: CandleRoute): string {
    match route
    case CryptoKline => "Unsupported time period, supported periods: " + Join(", ", VALID_PERIODS)
    case KlineWithIndicators => "不支持的时间周期，支持的周期: " + Join(", ", VALID_PERIODS)
  }

  function CountError(route: CandleRoute): string {
    match route
    case CryptoKline => "Data count must be between 1-500"
    case KlineWithIndicators => "数据数量必须在1-500之间"
  }

  /** The query checks, period first: 400 unless the period is listed and 1 <= count <= 500. */
  function CheckCandleQuery(route: CandleRoute, period: string, count: int): (e: Option<HttpError>)
    ensures e.None? <==> period in VALID_PERIODS && 1 <= count <= MAX_COUNT
    ensures period !in VALID_PERIODS ==> e == Some(HttpError(400, PeriodError(route)))
    ensures period in VALID_PERIODS && !(1 <= count <= MAX_COUNT) ==> e == Some(HttpError(400, CountError(route)))
  {
    if period !in VALID_PERIODS then Some(HttpError(400, PeriodError(route)))
    else if count <= 0 || count > MAX_COUNT then Some(HttpError(400, CountError(route)))
    else None
  }

  /** A candle row as the market-data service returns it and as the route passes it on;
      `datetime` is already rendered (`isoformat()` or `str()`). */
  datatype KlineItem = KlineItem(
    timestamp: Option<int>, datetime: Option<string>,
    open: Option<real>, high: Option<real>, low: Option<real>, close: Option<real>,
    volume: Option<real>, amount: Option<real>, chg: Option<real>, percent: Option<real>)

  datatype KlineResponse<I> = KlineResponse(
    symbol: string, market: string, period: string, count: nat, data: seq<KlineItem>, indicators: map<string, I>)

  /** The conversion loop: one item per row, fields carried over. */
  method ConvertItems(rows: seq<KlineItem>) returns (items: seq<KlineItem>)
    ensures items == rows
  {
    items := [];
    for i := 0 to |rows|
      invariant items == rows[..i]
    {
      items := items + [KlineItem(rows[i].timestamp, rows[i].datetime, rows[i].open, rows[i].high, rows[i].low,
                                  rows[i].close, rows[i].volume, rows[i].amount, rows[i].chg, rows[i].percent)];
    }
  }

  /** The indicator step: a blank string computes nothing; otherwise the parsed list, when it
      is not empty, goes to the calculator. */
  function IndicatorResults<I>(indicators: string, rows: seq<KlineItem>, calculate: (seq<KlineItem>, seq<string>) -> map<string, I>)
    : (r: map<string, I>)
    ensures ParseCommaList(indicators) == [] ==> r == map[]
    ensures ParseCommaList(indicators) != [] ==> r == calculate(rows, ParseCommaList(indicators))
  {
    if Strip(indicators) != "" then
      var list := ParseCommaList(indicators);
      if list != [] then calculate(rows, list) else map[]
    else
      BlankParsesEmpty(indicators);
      map[]
  }

  /** The text each route puts before the exception's own in its 500 detail. */
  function KlineFailurePrefix(route: CandleRoute): string {
    match route
    case CryptoKline => "Failed to get K-line data"
    case KlineWithIndicators => "获取K线和指标数据失败"
  }

  /** `get_crypto_kline` and `get_kline_with_indicators`: the query checks, then 500 when the
      candle service raises (`fetch` gives the exception's text), else every row as an item with
      `count` equal to the number of items. Only the second route computes indicators. */
  method GetKline<I>(route: CandleRoute, symbol: string, market: string, period: string, count: int,
                     indicators: string, fetch: (string, string, string, int) -> Result<seq<KlineItem>, string>,
                     calculate: (seq<KlineItem>, seq<string>) -> map<string, I>)
    returns (r: Result<KlineResponse<I>, HttpError>)
    ensures CheckCandleQuery(route, period, count).Some? ==> r == Err(CheckCandleQuery(route, period, count).value)
    ensures (CheckCandleQuery(route, period, count).None? && fetch(symbol, market, period, count).Err?)
              ==> r == Err(HttpError(500, KlineFailurePrefix(route) + ": " + fetch(symbol, market, period, count).error))
    ensures r.Ok? ==> CheckCandleQuery(route, period, count).None? && fetch(symbol, market, period, count).Ok?
    ensures r.Ok? ==> r.value.data == fetch(symbol, market, period, count).value && r.value.count == |r.value.data|
    ensures r.Ok? ==> r.value.symbol == symbol && r.value.market == market && r.value.period == period
    ensures r.Ok? && route == CryptoKline ==> r.value.indicators == map[]
    ensures r.Ok? && route == KlineWithIndicators ==> r.value.indicators == IndicatorResults(indicators, r.value.data, calculate)
  {
    var bad := CheckCandleQuery(route, period, count);
    if bad.Some? {
      return Err(bad.value);
    }
    var rows := fetch(symbol, market, period, count);
    if rows.Err? {
      return Err(HttpError(500, KlineFailurePrefix(route) + ": " + rows.error));
    }
    var items := ConvertItems(rows.value);
    var computed := if route == KlineWithIndicators then IndicatorResults(indicators, rows.value, calculate) else map[];
    r := Ok(KlineResponse(symbol, market, period, |items|, items, computed));
  }
}
