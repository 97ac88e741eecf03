/** The market-data client of backend/services/hyperliquid_market_data.py: CCXT symbol
    formatting, the symbol list, candle conversion and the native ticker lookup. Exchange
    and HTTP responses are parameters; an exception is a None response. */
module HyperliquidMarketData {
  import opened Wrappers
  import opened Seqs
  import Text

  // ---------------------------------------------------------------- symbol formatting

  const MAINSTREAM_CRYPTOS: seq<string> := ["BTC", "ETH", "SOL", "DOGE", "BNB", "XRP"]

  /** `_format_symbol`: a full CCXT symbol is kept, a spot pair gains the settle currency,
      and a bare coin is upper-cased and becomes a perpetual (mainstream) or spot pair. */
  function FormatSymbol(symbol: string): (r: string)
    ensures '/' in symbol && ':' in symbol ==> r == symbol
    ensures '/' in symbol && ':' !in symbol ==> r == symbol + ":USDC"
    ensures '/' !in symbol && Text.Upper(symbol) in MAINSTREAM_CRYPTOS ==> r == Text.Upper(symbol) + "/USDC:USDC"
    ensures '/' !in symbol && Text.Upper(symbol) !in MAINSTREAM_CRYPTOS ==> r == Text.Upper(symbol) + "/USDC"
  {
    if '/' in symbol && ':' in symbol then symbol
    else if '/' in symbol then symbol + ":USDC"
    else
      var upper := Text.Upper(symbol);
      if upper in MAINSTREAM_CRYPTOS then upper + "/USDC:USDC" else upper + "/USDC"
  }

  /** Every formatted symbol is a pair. */
  lemma FormatSymbolHasSlash(symbol: string)
    ensures '/' in FormatSymbol(symbol)
  {
    var r := FormatSymbol(symbol);
    if '/' !in symbol {
      var upper := Text.Upper(symbol);
      if upper in MAINSTREAM_CRYPTOS {
        assert r[|upper|] == '/';
      } else {
        assert r[|upper|] == '/';
      }
    }
  }

  /** A formatted symbol with a settle currency is left alone when formatted again;
      one without (a spot pair) gains ":USDC". */
  lemma FormatSymbolReformat(symbol: string)
    ensures ':' in FormatSymbol(symbol) ==> FormatSymbol(FormatSymbol(symbol)) == FormatSymbol(symbol)
    ensures ':' !in FormatSymbol(symbol) ==> FormatSymbol(FormatSymbol(symbol)) == FormatSymbol(symbol) + ":USDC"
  {
    FormatSymbolHasSlash(symbol);
  }

  /** Formatting settles after two rounds. */
  lemma FormatSymbolSettles(symbol: string)
    ensures FormatSymbol(FormatSymbol(FormatSymbol(symbol))) == FormatSymbol(FormatSymbol(symbol))
  {
    var once := FormatSymbol(symbol);
    FormatSymbolReformat(symbol);
    FormatSymbolHasSlash(once);
    if ':' !in once {
      var twice := once + ":USDC";
      assert twice[|once|] == ':';
      FormatSymbolReformat(once);
    }
  }

  /** A bare coin that is not mainstream becomes a spot pair, and that pair is not a
      fixpoint of formatting. */
  lemma SpotSymbolIsNotFixpoint(coin: string)
    requires '/' !in coin && ':' !in coin && Text.Upper(coin) !in MAINSTREAM_CRYPTOS
    ensures FormatSymbol(coin) == Text.Upper(coin) + "/USDC"
    ensures FormatSymbol(FormatSymbol(coin)) != FormatSymbol(coin)
  {
    var upper := Text.Upper(coin);
    Text.UpperKeepsChar(coin, ':');
    var spot := upper + "/USDC";
    assert ':' !in "/USDC";
    assert ':' !in spot;
    FormatSymbolReformat(coin);
  }

  // ---------------------------------------------------------------- symbol list

  /** `any(crypto in s for crypto in ['BTC/', …, 'XRP/'])`, a substring test. */
  predicate IsMainstreamPair(s: string) {
    Text.Contains(s, "BTC/") || Text.Contains(s, "ETH/") || Text.Contains(s, "SOL/")
    || Text.Contains(s, "DOGE/") || Text.Contains(s, "BNB/") || Text.Contains(s, "XRP/")
  }

  predicate IsUsdcPair(s: string) {
    Text.Contains(s, "/USDC")
  }

  function Take<T>(s: seq<T>, n: nat): (r: seq<T>)
    ensures |r| <= n && |r| <= |s| && r == s[..|r|]
    ensures |s| <= n ==> r == s
  {
    if |s| <= n then s else s[..n]
  }

  const FALLBACK_SYMBOLS: seq<string> := ["BTC/USD", "ETH/USD", "SOL/USD"]

  /** `get_all_symbols`. `markets` holds the market keys in their order, or None when
      `load_markets` raised. */
  function AllSymbols(markets: Option<seq<string>>): (r: seq<string>)
    ensures markets.None? ==> r == FALLBACK_SYMBOLS
    ensures markets.Some? ==>
      var usdc := Filter(markets.value, IsUsdcPair);
      r == Filter(usdc, IsMainstreamPair) + Take(Filter(usdc, (s: string) => !IsMainstreamPair(s)), 50)
    ensures markets.Some? ==> forall s :: s in r ==> IsUsdcPair(s) && s in markets.value
    ensures markets.Some? ==> |r| <= |Filter(Filter(markets.value, IsUsdcPair), IsMainstreamPair)| + 50
  {
    if markets.None? then FALLBACK_SYMBOLS
    else
      var usdc := Filter(markets.value, IsUsdcPair);
      var mainstream := Filter(usdc, IsMainstreamPair);
      var others := Filter(usdc, (s: string) => s !in mainstream);
      FilterCongruent(usdc, (s: string) => s !in mainstream, (s: string) => !IsMainstreamPair(s));
      var rest := Take(others, 50);
      assert forall s :: s in rest ==> s in others;
      mainstream + rest
  }

  // ---------------------------------------------------------------- klines

  /** The timeframes `get_kline_data` passes through. */
  const TIMEFRAMES: seq<string> := ["1m", "3m", "5m", "15m", "30m", "1h", "2h", "4h", "8h", "12h", "1d", "3d", "1w", "1M"]

  /** `timeframe_map.get(period, '1d')` */
  function Timeframe(period: string): (tf: string)
    ensures tf in TIMEFRAMES
    ensures period in TIMEFRAMES ==> tf == period
    ensures period !in TIMEFRAMES ==> tf == "1d"
  {
    if period in TIMEFRAMES then period else "1d"
  }

  /** One CCXT OHLCV row. */
  datatype Ohlcv = Ohlcv(timestampMs: int, open: real, high: real, low: real, close: real, volume: real)

  /** One converted kline; None is a falsy (zero) price or volume. */
  datatype Kline = Kline(timestamp: int, open: Option<real>, high: Option<real>, low: Option<real>,
                         close: Option<real>, volume: Option<real>, amount: Option<real>, chg: real, percent: real)

  /** `int(ms / 1000)`: division by 1000, truncated toward zero. */
  function MsToSeconds(ms: int): (s: int)
    ensures ms >= 0 ==> s >= 0 && s * 1000 <= ms < s * 1000 + 1000
    ensures ms < 0 ==> s <= 0 && s * 1000 - 1000 < ms <= s * 1000
  {
    if ms >= 0 then ms / 1000 else -((-ms) / 1000)
  }

  /** `float(x) if x else None` */
  function Truthy(x: real): (r: Option<real>)
    ensures r.None? <==> x == 0.0
    ensures r.Some? ==> r.value == x
  {
    if x != 0.0 then Some(x) else None
  }

  /** The per-candle conversion of `get_kline_data`. */
  function ConvertCandle(c: Ohlcv): (k: Kline)
    ensures k.timestamp == MsToSeconds(c.timestampMs)
    ensures k.open == Truthy(c.open) && k.high == Truthy(c.high) && k.low == Truthy(c.low)
    ensures k.close == Truthy(c.close) && k.volume == Truthy(c.volume)
    ensures k.amount.Some? <==> c.volume != 0.0 && c.close != 0.0
    ensures k.amount.Some? ==> k.amount.value == c.volume * c.close
    ensures c.open == 0.0 ==> k.chg == 0.0 && k.percent == 0.0
    ensures c.open != 0.0 ==> k.chg == c.close - c.open && k.percent * c.open == k.chg * 100.0
  {
    var change := if c.open != 0.0 then c.close - c.open else 0.0;
    var percent := if c.open != 0.0 then change / c.open * 100.0 else 0.0;
    Kline(MsToSeconds(c.timestampMs), Truthy(c.open), Truthy(c.high), Truthy(c.low), Truthy(c.close), Truthy(c.volume),
          if c.volume != 0.0 && c.close != 0.0 then Some(c.volume * c.close) else None, change, percent)
  }

  /** `get_kline_data` without persistence. `fetchOhlcv(symbol, timeframe, limit)` is None when
      CCXT raised, and then the result is empty. */
  method GetKlineData(symbol: string, period: string, count: int,
                      fetchOhlcv: (string, string, int) -> Option<seq<Ohlcv>>) returns (klines: seq<Kline>)
    ensures fetchOhlcv(FormatSymbol(symbol), Timeframe(period), count).None? ==> klines == []
    ensures fetchOhlcv(FormatSymbol(symbol), Timeframe(period), count).Some? ==>
      var rows := fetchOhlcv(FormatSymbol(symbol), Timeframe(period), count).value;
      |klines| == |rows| && forall i :: 0 <= i < |rows| ==> klines[i] == ConvertCandle(rows[i])
  {
    var fetched := fetchOhlcv(FormatSymbol(symbol), Timeframe(period), count);
    if fetched.None? {
      return [];
    }
    var rows := fetched.value;
    klines := [];
    for i := 0 to |rows|
      invariant |klines| == i
      invariant forall j :: 0 <= j < i ==> klines[j] == ConvertCandle(rows[j])
    {
      klines := klines + [ConvertCandle(rows[i])];
    }
  }

  // ---------------------------------------------------------------- ticker

  /** One `universe` entry of the metaAndAssetCtxs answer. */
  datatype AssetMeta = MetaDict(name: Option<string>) | MetaOther

  /** One asset context; a None field is a missing key. */
  datatype AssetCtx =
    | CtxDict(markPx: Option<real>, oraclePx: Option<real>, prevDayPx: Option<real>,
              dayNtlVlm: Option<real>, openInterest: Option<real>, funding: Option<real>)
    | CtxOther

  /** A well-formed metaAndAssetCtxs answer; `universe` is None when the first element is
      not a dictionary with a universe. */
  datatype MetaAndCtxs = MetaAndCtxs(universe: Option<seq<AssetMeta>>, ctxs: seq<AssetCtx>)

  /** The CCXT ticker fields the fallback reads. */
  datatype CcxtTicker = CcxtTicker(last: Option<real>, change: Option<real>, baseVolume: Option<real>, percentage: Option<real>)

  datatype TickerData =
    | Native(symbol: string, price: real, oraclePrice: real, change24h: real, volume24h: real,
             percentage24h: real, openInterest: real, fundingRate: real)
    | Fallback(symbol: string, price: real, change24h: real, volume24h: real, percentage24h: real)

  /** `_get_ccxt_ticker_fallback`; `ticker` is None when the fetch raised. A missing field
      and a zero one both give 0, as `float(x) if x else 0` does. */
  function CcxtFallback(symbol: string, ticker: Option<CcxtTicker>): (r: Option<TickerData>)
    ensures r.None? <==> ticker.None?
    ensures r.Some? ==> r.value.Fallback? && r.value.symbol == symbol
    // each figure is the ticker's field, with a missing one read as 0
    ensures ticker.Some? ==>
      var t := ticker.value;
      r.value == Fallback(symbol, t.last.GetOr(0.0), t.change.GetOr(0.0), t.baseVolume.GetOr(0.0), t.percentage.GetOr(0.0))
  {
    if ticker.None? then None
    else
      var t := ticker.value;
      Some(Fallback(symbol, t.last.GetOr(0.0), t.change.GetOr(0.0), t.baseVolume.GetOr(0.0), t.percentage.GetOr(0.0)))
  }

  /** `symbol.upper().replace('/', '')` */
  function WithoutSlashes(s: string): (r: string)
    ensures '/' !in r
    ensures |r| <= |s|
    ensures r == Filter(s, (c: char) => c != '/')
    decreases |s|
  {
    if s == [] then []
    else
      assert s == [s[0]] + s[1..];
      FilterCons(s[0], s[1..], (c: char) => c != '/');
      (if s[0] == '/' then [] else [s[0]]) + WithoutSlashes(s[1..])
  }

  /** The universe test of `get_ticker_data`. */
  predicate NamesSymbol(meta: AssetMeta, symbol: string) {
    meta.MetaDict? &&
    var name := Text.Upper(meta.name.GetOr(""));
    name == Text.Upper(symbol) || name == WithoutSlashes(Text.Upper(symbol))
  }

  /** The index scan of `get_ticker_data`, stopping at the first match. */
  method FindUniverseIndex(universe: seq<AssetMeta>, symbol: string) returns (index: Option<nat>)
    ensures index.Some? ==> index.value < |universe| && NamesSymbol(universe[index.value], symbol)
    ensures index.Some? ==> forall j :: 0 <= j < index.value ==> !NamesSymbol(universe[j], symbol)
    ensures index.None? ==> forall j :: 0 <= j < |universe| ==> !NamesSymbol(universe[j], symbol)
  {
    index := None;
    var i := 0;
    while i < |universe|
      invariant 0 <= i <= |universe|
      invariant index.None?
      invariant forall j :: 0 <= j < i ==> !NamesSymbol(universe[j], symbol)
    {
      if NamesSymbol(universe[i], symbol) {
        index := Some(i);
        return;
      }
      i := i + 1;
    }
  }

  /** The ticker built from an asset context: the 24 h change and percentage are 0 without a
      previous-day price. */
  function NativeTicker(symbol: string, ctx: AssetCtx): (t: TickerData)
    requires ctx.CtxDict?
    ensures t.Native? && t.symbol == symbol && t.price == ctx.markPx.GetOr(0.0)
    ensures t.oraclePrice == ctx.oraclePx.GetOr(0.0) && t.volume24h == ctx.dayNtlVlm.GetOr(0.0)
    ensures t.openInterest == ctx.openInterest.GetOr(0.0) && t.fundingRate == ctx.funding.GetOr(0.0)
    ensures ctx.prevDayPx.GetOr(0.0) == 0.0 ==> t.change24h == 0.0 && t.percentage24h == 0.0
    ensures ctx.prevDayPx.GetOr(0.0) != 0.0 ==>
      t.change24h == t.price - ctx.prevDayPx.GetOr(0.0) && t.percentage24h * ctx.prevDayPx.GetOr(0.0) == t.change24h * 100.0
  {
    var mark := ctx.markPx.GetOr(0.0);
    var prev := ctx.prevDayPx.GetOr(0.0);
    var change := if prev != 0.0 then mark - prev else 0.0;
    var percentage := if prev != 0.0 then change / prev * 100.0 else 0.0;
    Native(symbol, mark, ctx.oraclePx.GetOr(0.0), change, ctx.dayNtlVlm.GetOr(0.0), percentage,
           ctx.openInterest.GetOr(0.0), ctx.funding.GetOr(0.0))
  }

  /** The index of the first universe entry naming the symbol. */
  function FirstMatch(universe: seq<AssetMeta>, symbol: string): (r: Option<nat>)
    ensures r.Some? ==> r.value < |universe| && NamesSymbol(universe[r.value], symbol)
    ensures r.Some? ==> forall j :: 0 <= j < r.value ==> !NamesSymbol(universe[j], symbol)
    ensures r.None? ==> forall j :: 0 <= j < |universe| ==> !NamesSymbol(universe[j], symbol)
    decreases |universe|
  {
    if universe == [] then None
    else if NamesSymbol(universe[0], symbol) then Some(0)
    else
      var rest := FirstMatch(universe[1..], symbol);
      if rest.Some? then Some(rest.value + 1) else None
  }

  /** What `get_ticker_data` answers: the native ticker of the first matching asset when its
      context exists and is a dictionary, else the CCXT fallback. */
  function TickerFor(symbol: string, response: Option<MetaAndCtxs>, ccxt: Option<CcxtTicker>): (r: Option<TickerData>)
    ensures (r.Some? && r.value.Native?) <==>
      (response.Some? && response.value.universe.Some? && FirstMatch(response.value.universe.value, symbol).Some?
       && FirstMatch(response.value.universe.value, symbol).value < |response.value.ctxs|
       && response.value.ctxs[FirstMatch(response.value.universe.value, symbol).value].CtxDict?)
    ensures r.Some? && r.value.Native? ==>
      r.value == NativeTicker(symbol, response.value.ctxs[FirstMatch(response.value.universe.value, symbol).value])
    ensures !(r.Some? && r.value.Native?) ==> r == CcxtFallback(symbol, ccxt)
  {
    if response.None? || response.value.universe.None? then CcxtFallback(symbol, ccxt)
    else
      var index := FirstMatch(response.value.universe.value, symbol);
      if index.None? || index.value >= |response.value.ctxs| then CcxtFallback(symbol, ccxt)
      else if !response.value.ctxs[index.value].CtxDict? then CcxtFallback(symbol, ccxt)
      else Some(NativeTicker(symbol, response.value.ctxs[index.value]))
  }

  /** `get_ticker_data`. `response` is None when the request raised or the answer is not a
      list of at least two elements; `ccxt` is what the fallback fetch returns. */
  method GetTickerData(symbol: string, response: Option<MetaAndCtxs>, ccxt: Option<CcxtTicker>)
    returns (r: Option<TickerData>)
    ensures r == TickerFor(symbol, response, ccxt)
  {
    if response.None? || response.value.universe.None? {
      return CcxtFallback(symbol, ccxt);
    }
    var universe := response.value.universe.value;
    var ctxs := response.value.ctxs;
    var index := FindUniverseIndex(universe, symbol);
    assert index == FirstMatch(universe, symbol);
    if index.None? || index.value >= |ctxs| {
      return CcxtFallback(symbol, ccxt);
    }
    var ctx := ctxs[index.value];
    if !ctx.CtxDict? {
      return CcxtFallback(symbol, ccxt);
    }
    r := Some(NativeTicker(symbol, ctx));
  }
}
