/** Market-regime classification (backend/services/market_regime_service.py).
    Indicator values are reals; `ln` and `exp` stand for math.log and math.exp and are
    parameters, since the model does not define them. */
module MarketRegime {
  import opened Wrappers
  import opened Seqs

  datatype Regime = StopHunt | Absorption | Breakout | Continuation | Exhaustion | Trap | Noise
  datatype Direction = Bullish | Bearish | Neutral

  /** The columns of a market_regime_configs row that the service reads. */
  datatype RegimeConfig = RegimeConfig(
    id: int, isDefault: bool,
    breakoutCvdZ: real, breakoutOiZ: real, breakoutPriceAtr: real,
    breakoutTakerHigh: real, breakoutTakerLow: real,
    absorptionPriceAtr: real, trapOiZ: real,
    exhaustionRsiHigh: real, exhaustionRsiLow: real,
    stopHuntRangeAtr: real, stopHuntCloseAtr: real)

  /** The six indicator values `classify_regime` takes. */
  datatype Indicators = Indicators(
    cvdRatio: real, takerLogRatio: real, oiDelta: real,
    priceAtr: real, rsi: real, priceRangeAtr: real)

  datatype Classification = Classification(regime: Regime, reason: string)

  function Abs(x: real): real { if x < 0.0 then -x else x }
  function Min(x: real, y: real): real { if x <= y then x else y }
  function Max(x: real, y: real): real { if x >= y then x else y }

  // ---------------------------------------------------------------- direction

  /** The vote one signal casts: +1 above zero, -1 below, none at zero. */
  function Vote(x: real): (v: int)
    ensures v == 1 <==> x > 0.0
    ensures v == -1 <==> x < 0.0
    ensures v == 0 <==> x == 0.0
  {
    if x > 0.0 then 1 else if x < 0.0 then -1 else 0
  }

  function NetVote(cvdRatio: real, takerLogRatio: real, priceAtr: real): (n: int)
    ensures -3 <= n <= 3
  {
    Vote(cvdRatio) + Vote(takerLogRatio) + Vote(priceAtr)
  }

  /** The direction a net vote stands for. */
  function DirectionOfVotes(votes: int): Direction {
    if votes >= 2 then Bullish else if votes <= -2 then Bearish else Neutral
  }

  function Opposite(d: Direction): Direction {
    match d
    case Bullish => Bearish
    case Bearish => Bullish
    case Neutral => Neutral
  }

  /** `calculate_direction`: counts the votes one signal at a time. */
  method CalculateDirection(cvdRatio: real, takerLogRatio: real, priceAtr: real) returns (d: Direction)
    ensures d == Bullish <==> NetVote(cvdRatio, takerLogRatio, priceAtr) >= 2
    ensures d == Bearish <==> NetVote(cvdRatio, takerLogRatio, priceAtr) <= -2
    ensures d == DirectionOfVotes(NetVote(cvdRatio, takerLogRatio, priceAtr))
  {
    var votes := 0;
    if cvdRatio > 0.0 {
      votes := votes + 1;
    } else if cvdRatio < 0.0 {
      votes := votes - 1;
    }
    if takerLogRatio > 0.0 {
      votes := votes + 1;
    } else if takerLogRatio < 0.0 {
      votes := votes - 1;
    }
    if priceAtr > 0.0 {
      votes := votes + 1;
    } else if priceAtr < 0.0 {
      votes := votes - 1;
    }
    if votes >= 2 {
      d := Bullish;
    } else if votes <= -2 {
      d := Bearish;
    } else {
      d := Neutral;
    }
  }

  /** Negating all three signals swaps bullish and bearish and keeps neutral. */
  lemma DirectionNegation(cvdRatio: real, takerLogRatio: real, priceAtr: real)
    ensures NetVote(-cvdRatio, -takerLogRatio, -priceAtr) == -NetVote(cvdRatio, takerLogRatio, priceAtr)
    ensures DirectionOfVotes(NetVote(-cvdRatio, -takerLogRatio, -priceAtr))
         == Opposite(DirectionOfVotes(NetVote(cvdRatio, takerLogRatio, priceAtr)))
  {
  }

  /** Two signals against one leave the direction neutral. */
  lemma TwoAgainstOneIsNeutral(cvdRatio: real, takerLogRatio: real, priceAtr: real)
    requires cvdRatio > 0.0 && takerLogRatio > 0.0 && priceAtr < 0.0
    ensures DirectionOfVotes(NetVote(cvdRatio, takerLogRatio, priceAtr)) == Neutral
  {
  }

  // ---------------------------------------------------------------- confidence

  /** `calculate_confidence`: a weighted score of the four signal strengths, each capped. */
  function CalculateConfidence(cvdRatio: real, takerLogRatio: real, oiDelta: real, priceAtr: real): (r: real)
    ensures 0.0 <= r <= 1.0
    ensures r == 0.0 <==> cvdRatio == 0.0 && takerLogRatio == 0.0 && oiDelta == 0.0 && priceAtr == 0.0
    ensures r == 1.0 <==> Abs(cvdRatio) >= 0.3 && Abs(takerLogRatio) >= 1.0 && Abs(oiDelta) >= 5.0 && Abs(priceAtr) >= 2.0
  {
    var score :=
      0.3 * Min(Abs(cvdRatio), 0.3) / 0.3 +
      0.2 * Min(Abs(takerLogRatio), 1.0) / 1.0 +
      0.2 * Min(Abs(oiDelta), 5.0) / 5.0 +
      0.3 * Min(Abs(priceAtr), 2.0) / 2.0;
    Max(0.0, Min(1.0, score))
  }

  /** Confidence depends on the strength of the signals, not on their sign. */
  lemma ConfidenceIgnoresSign(cvdRatio: real, takerLogRatio: real, oiDelta: real, priceAtr: real)
    ensures CalculateConfidence(-cvdRatio, -takerLogRatio, -oiDelta, -priceAtr)
         == CalculateConfidence(cvdRatio, takerLogRatio, oiDelta, priceAtr)
  {
  }

  // ---------------------------------------------------------------- classification

  /** The log thresholds for an extreme taker ratio; a non-positive ratio falls back to +-3.5. */
  function TakerLogHigh(config: RegimeConfig, ln: real -> real): real {
    if config.breakoutTakerHigh > 0.0 then ln(config.breakoutTakerHigh) else 3.5
  }

  function TakerLogLow(config: RegimeConfig, ln: real -> real): real {
    if config.breakoutTakerLow > 0.0 then ln(config.breakoutTakerLow) else -3.5
  }

  predicate IsTakerExtreme(ind: Indicators, config: RegimeConfig, ln: real -> real) {
    ind.takerLogRatio > TakerLogHigh(config, ln) || ind.takerLogRatio < TakerLogLow(config, ln)
  }

  /** CVD and price point the same way, both strictly. */
  predicate IsAligned(ind: Indicators) {
    (ind.cvdRatio > 0.0 && ind.priceAtr > 0.0) || (ind.cvdRatio < 0.0 && ind.priceAtr < 0.0)
  }

  /** A wide range that closed near its open: spike and reversal. */
  predicate IsStopHunt(ind: Indicators, config: RegimeConfig) {
    ind.priceRangeAtr > config.stopHuntRangeAtr && Abs(ind.priceAtr) < config.stopHuntCloseAtr
  }

  predicate IsCvdStrong(ind: Indicators, config: RegimeConfig) {
    Abs(ind.cvdRatio) > config.breakoutCvdZ * 0.1
  }

  /** The candle body exceeds 40% of its range (a zero range counts as a full body). */
  predicate IsSolidMove(ind: Indicators) {
    (if ind.priceRangeAtr > 0.0 then Abs(ind.priceAtr) / ind.priceRangeAtr else 1.0) > 0.4
  }

  predicate IsBreakoutSetup(ind: Indicators, config: RegimeConfig, ln: real -> real) {
    IsCvdStrong(ind, config)
    && Abs(ind.priceAtr) > config.breakoutPriceAtr + 0.2
    && IsAligned(ind)
    && IsSolidMove(ind)
    && (IsTakerExtreme(ind, config, ln) || ind.oiDelta > config.breakoutOiZ)
  }

  predicate IsRsiExtreme(ind: Indicators, config: RegimeConfig) {
    ind.rsi > config.exhaustionRsiHigh || ind.rsi < config.exhaustionRsiLow
  }

  /** Flow above a third of the strong threshold, aligned with a price move. */
  predicate IsContinuationSetup(ind: Indicators, config: RegimeConfig) {
    IsAligned(ind) && Abs(ind.priceAtr) > config.absorptionPriceAtr
    && Abs(ind.cvdRatio) > config.breakoutCvdZ * 0.1 / 3.0
  }

  function DirectionWord(cvdRatio: real): string {
    if cvdRatio > 0.0 then "Bullish" else "Bearish"
  }

  /** `classify_regime`: the first matching regime in the order stop hunt, breakout,
      exhaustion, trap, absorption, continuation, noise. */
  function ClassifyRegime(ind: Indicators, config: RegimeConfig, ln: real -> real): (c: Classification)
    // stop hunt wins over everything
    ensures c.regime == StopHunt <==> IsStopHunt(ind, config)
    // breakout: exactly the breakout setup, when no stop hunt is seen
    ensures c.regime == Breakout <==> !IsStopHunt(ind, config) && IsBreakoutSetup(ind, config, ln)
    ensures c.regime == Breakout ==>
      IsCvdStrong(ind, config) && Abs(ind.priceAtr) > config.breakoutPriceAtr + 0.2 && IsAligned(ind)
      && IsSolidMove(ind) && (IsTakerExtreme(ind, config, ln) || ind.oiDelta > config.breakoutOiZ)
    // strong CVD with falling OI: exhaustion at an RSI extreme, a trap otherwise
    ensures (!IsStopHunt(ind, config) && !IsBreakoutSetup(ind, config, ln)
             && IsCvdStrong(ind, config) && ind.oiDelta < config.trapOiZ) ==>
        (c.regime == Exhaustion <==> IsRsiExtreme(ind, config))
        && (c.regime == Trap <==> !IsRsiExtreme(ind, config))
    ensures c.regime in {Exhaustion, Trap} ==> IsCvdStrong(ind, config) && ind.oiDelta < config.trapOiZ
    // absorption: strong flow, OI not falling, price not moving
    ensures c.regime == Absorption ==>
      IsCvdStrong(ind, config) && ind.oiDelta >= config.trapOiZ && Abs(ind.priceAtr) <= config.absorptionPriceAtr
    ensures c.regime == Absorption <==>
      !IsStopHunt(ind, config) && !IsBreakoutSetup(ind, config, ln)
      && !(IsCvdStrong(ind, config) && ind.oiDelta < config.trapOiZ)
      && IsCvdStrong(ind, config) && Abs(ind.priceAtr) <= config.absorptionPriceAtr
    // continuation: weak-or-better flow aligned with a price move, when no earlier test fired
    ensures c.regime == Continuation ==> IsContinuationSetup(ind, config)
    ensures c.regime == Continuation <==>
      !IsStopHunt(ind, config) && !IsBreakoutSetup(ind, config, ln)
      && !(IsCvdStrong(ind, config) && ind.oiDelta < config.trapOiZ)
      && !(IsCvdStrong(ind, config) && Abs(ind.priceAtr) <= config.absorptionPriceAtr)
      && IsContinuationSetup(ind, config)
    // noise: no test fired
    ensures c.regime == Noise <==>
      !IsStopHunt(ind, config) && !IsBreakoutSetup(ind, config, ln)
      && !(IsCvdStrong(ind, config) && ind.oiDelta < config.trapOiZ)
      && !(IsCvdStrong(ind, config) && Abs(ind.priceAtr) <= config.absorptionPriceAtr)
      && !IsContinuationSetup(ind, config)
  {
    var cvdStrong := config.breakoutCvdZ * 0.1;
    var cvdWeak := cvdStrong / 3.0;
    var priceMove := config.absorptionPriceAtr;
    var isCvdStrong := Abs(ind.cvdRatio) > cvdStrong;
    var isOiDecrease := ind.oiDelta < config.trapOiZ;
    var isPriceMove := Abs(ind.priceAtr) > priceMove;
    if IsStopHunt(ind, config) then
      Classification(StopHunt, "Price spiked but closed near open")
    else if IsBreakoutSetup(ind, config, ln) then
      Classification(Breakout, DirectionWord(ind.cvdRatio) + " breakout with aligned signals")
    else if isCvdStrong && isOiDecrease && IsRsiExtreme(ind, config) then
      Classification(Exhaustion, "Trend exhaustion at RSI extreme")
    else if isCvdStrong && isOiDecrease then
      Classification(Trap, "Strong flow but positions closing (trap)")
    else if isCvdStrong && !isPriceMove then
      Classification(Absorption, "Strong flow absorbed without price movement")
    else if Abs(ind.cvdRatio) > cvdWeak && isPriceMove && IsAligned(ind) then
      Classification(Continuation, DirectionWord(ind.cvdRatio) + " trend continuation")
    else
      Classification(Noise, "No clear market regime detected")
  }

  /** With no flow at all and no price move, the classifier reports noise whenever the
      thresholds are the non-negative ones a config normally holds. */
  lemma QuietMarketIsNoise(config: RegimeConfig, ln: real -> real, rsi: real, rangeAtr: real)
    requires config.breakoutCvdZ >= 0.0 && config.trapOiZ <= 0.0
    requires rangeAtr <= config.stopHuntRangeAtr
    ensures ClassifyRegime(Indicators(0.0, 0.0, 0.0, 0.0, rsi, rangeAtr), config, ln).regime == Noise
  {
  }

  // ---------------------------------------------------------------- price metrics

  /** A candle as `fetch_kline_data` returns it. */
  datatype Candle = Candle(timestamp: int, open: real, high: real, low: real, close: real, volume: real)

  datatype PriceMetrics = PriceMetrics(priceAtr: real, priceRangeAtr: real, rsi: real)

  /** `calculate_price_metrics`. `atrSeries` and `rsiSeries` are the ATR14 and RSI14 series
      the indicator service computes from `klines`. */
  function CalculatePriceMetrics(klines: seq<Candle>, atrSeries: seq<real>, rsiSeries: seq<real>): (m: PriceMetrics)
    ensures |klines| < 15 ==> m == PriceMetrics(0.0, 0.0, 50.0)
    ensures |klines| >= 15 ==> m.rsi == (if rsiSeries == [] then 50.0 else rsiSeries[|rsiSeries| - 1])
    ensures |klines| >= 15 && (atrSeries == [] || atrSeries[|atrSeries| - 1] <= 0.0) ==>
      m.priceAtr == 0.0 && m.priceRangeAtr == 0.0
    ensures |klines| >= 15 && atrSeries != [] && atrSeries[|atrSeries| - 1] > 0.0 ==>
      var atr, last := atrSeries[|atrSeries| - 1], klines[|klines| - 1];
      m.priceAtr * atr == last.close - last.open && m.priceRangeAtr * atr == last.high - last.low
  {
    if |klines| < 15 then PriceMetrics(0.0, 0.0, 50.0)
    else
      var atr := if atrSeries != [] then atrSeries[|atrSeries| - 1] else 0.0;
      var rsi := if rsiSeries != [] then rsiSeries[|rsiSeries| - 1] else 50.0;
      if atr > 0.0 then
        var last := klines[|klines| - 1];
        PriceMetrics((last.close - last.open) / atr, (last.high - last.low) / atr, rsi)
      else
        PriceMetrics(0.0, 0.0, rsi)
  }

  // ---------------------------------------------------------------- kline fetch

  /** A crypto_klines row; a NULL price column is None. */
  datatype KlineRow = KlineRow(
    symbol: string, period: string, timestamp: int,
    openPrice: Option<real>, highPrice: Option<real>, lowPrice: Option<real>,
    closePrice: Option<real>, volume: Option<real>)

  /** `current_time_ms // 1000` when `current_time_ms` is given and non-zero. */
  function CutoffSeconds(currentTimeMs: Option<int>): (r: Option<int>)
    ensures r.None? <==> currentTimeMs == None || currentTimeMs == Some(0)
    ensures r.Some? ==> r.value * 1000 <= currentTimeMs.value < r.value * 1000 + 1000
  {
    if currentTimeMs.Some? && currentTimeMs.value != 0 then Some(currentTimeMs.value / 1000) else None
  }

  /** `float(x) if x else 0` */
  function OrZero(x: Option<real>): real {
    if x.Some? then x.value else 0.0
  }

  function ToCandle(k: KlineRow): Candle {
    Candle(k.timestamp, OrZero(k.openPrice), OrZero(k.highPrice), OrZero(k.lowPrice),
           OrZero(k.closePrice), OrZero(k.volume))
  }

  predicate StrictlyNewestFirst(rows: seq<KlineRow>) {
    forall i, j :: 0 <= i < j < |rows| ==> rows[i].timestamp > rows[j].timestamp
  }

  predicate StrictlyChronological(candles: seq<Candle>) {
    forall i, j :: 0 <= i < j < |candles| ==> candles[i].timestamp < candles[j].timestamp
  }

  /** The conversion loop of `fetch_kline_data`: `newestFirst` is the query result
      (newest first, at most `limit` rows); the candles come out oldest first. */
  method FetchKlineData(newestFirst: seq<KlineRow>) returns (result: seq<Candle>)
    ensures |result| == |newestFirst|
    ensures forall i :: 0 <= i < |result| ==> result[i] == ToCandle(newestFirst[|newestFirst| - 1 - i])
    ensures StrictlyNewestFirst(newestFirst) ==> StrictlyChronological(result)
  {
    result := [];
    var i := |newestFirst|;
    while i > 0
      invariant 0 <= i <= |newestFirst|
      invariant |result| == |newestFirst| - i
      invariant forall j :: 0 <= j < |result| ==> result[j] == ToCandle(newestFirst[|newestFirst| - 1 - j])
    {
      i := i - 1;
      result := result + [ToCandle(newestFirst[i])];
    }
  }

  // ---------------------------------------------------------------- entry point

  /** The row test of the config query: the id when `config_id` is truthy, else is_default. */
  function Selects(configId: Option<int>): RegimeConfig -> bool {
    (c: RegimeConfig) => if configId.Some? && configId.value != 0 then c.id == configId.value else c.isDefault
  }

  /** `config_id` selects by id when truthy, otherwise the first default row. */
  function SelectConfig(configs: seq<RegimeConfig>, configId: Option<int>): (r: Option<RegimeConfig>)
    ensures r.Some? ==> r.value in configs
    ensures configId.Some? && configId.value != 0 ==>
      (r.Some? <==> exists c :: c in configs && c.id == configId.value) && (r.Some? ==> r.value.id == configId.value)
    ensures !(configId.Some? && configId.value != 0) ==>
      (r.Some? <==> exists c :: c in configs && c.isDefault) && (r.Some? ==> r.value.isDefault)
    // `.first()`: the first row that passes the test
    ensures var i := FirstWhere(configs, Selects(configId));
            (r.Some? <==> i.Some?) && (r.Some? ==> r.value == configs[i.value])
    decreases |configs|
  {
    if configs == [] then None
    else if Selects(configId)(configs[0])
    then Some(configs[0])
    else
      var rest := SelectConfig(configs[1..], configId);
      assert forall c :: c in configs[1..] ==> c in configs;
      assert forall c :: c in configs && c != configs[0] ==> c in configs[1..];
      assert FirstWhere(configs, Selects(configId)) ==
        (var k := FirstWhere(configs[1..], Selects(configId)); if k.Some? then Some(k.value + 1) else None);
      rest
  }

  /** The flow indicators for CVD, TAKER and OI_DELTA; None stands for a missing entry. */
  datatype FlowData = FlowData(cvd: Option<map<string, real>>, taker: Option<map<string, real>>, oiDelta: Option<map<string, real>>)

  /** `d.get(key, 0)` */
  function GetOrZero(d: map<string, real>, key: string): real {
    if key in d then d[key] else 0.0
  }

  /** A falsy dict: None or empty. */
  predicate IsMissing(d: Option<map<string, real>>) {
    d.None? || |d.value| == 0
  }

  /** CVD over total notional; 0 when the total is not positive. */
  function CvdRatio(cvdCurrent: real, takerBuy: real, takerSell: real): (r: real)
    ensures takerBuy + takerSell <= 0.0 ==> r == 0.0
    ensures takerBuy + takerSell > 0.0 ==> r * (takerBuy + takerSell) == cvdCurrent
  {
    var total := takerBuy + takerSell;
    if total > 0.0 then cvdCurrent / total else 0.0
  }

  /** ln(buy / sell) when both sides traded, 0 otherwise. */
  function TakerLogRatio(takerBuy: real, takerSell: real, ln: real -> real): (r: real)
    ensures !(takerBuy > 0.0 && takerSell > 0.0) ==> r == 0.0
    ensures takerBuy > 0.0 && takerSell > 0.0 ==> r == ln(takerBuy / takerSell)
  {
    if takerBuy > 0.0 && takerSell > 0.0 then ln(takerBuy / takerSell) else 0.0
  }

  /** The `indicators` block of a classified result (before rounding). */
  datatype ReportedIndicators = ReportedIndicators(cvdRatio: real, oiDelta: real, takerRatio: real, priceAtr: real, rsi: real)

  /** The result of `get_market_regime`; `indicators` is None where the source returns `{}`. */
  datatype RegimeReport = RegimeReport(
    regime: Regime, direction: Direction, confidence: real, reason: string,
    indicators: Option<ReportedIndicators>)

  function Unclassified(reason: string): RegimeReport {
    RegimeReport(Noise, Neutral, 0.0, reason, None)
  }

  /** The indicators `get_market_regime` feeds to the classifier. */
  function RegimeInputs(flow: FlowData, metrics: PriceMetrics, ln: real -> real): Indicators
    requires !IsMissing(flow.cvd) && !IsMissing(flow.taker)
  {
    var buy := GetOrZero(flow.taker.value, "buy");
    var sell := GetOrZero(flow.taker.value, "sell");
    Indicators(
      CvdRatio(GetOrZero(flow.cvd.value, "current"), buy, sell),
      TakerLogRatio(buy, sell, ln),
      if flow.oiDelta.Some? && |flow.oiDelta.value| > 0 then GetOrZero(flow.oiDelta.value, "current") else 0.0,
      metrics.priceAtr, metrics.rsi, metrics.priceRangeAtr)
  }

  /** `get_market_regime`. `timeframes` holds the keys of TIMEFRAME_MS; `klines` is the
      result of `fetch_kline_data` and the two series are ATR14 and RSI14 over it. */
  method GetMarketRegime(
    configs: seq<RegimeConfig>, configId: Option<int>,
    timeframe: string, timeframes: set<string>,
    flow: FlowData, klines: seq<Candle>, atrSeries: seq<real>, rsiSeries: seq<real>,
    ln: real -> real, exp: real -> real)
    returns (r: RegimeReport)
    ensures SelectConfig(configs, configId).None? ==> r == Unclassified("No regime config found")
    ensures SelectConfig(configs, configId).Some? && timeframe !in timeframes ==>
      r == Unclassified("Unsupported timeframe: " + timeframe)
    ensures (SelectConfig(configs, configId).Some? && timeframe in timeframes
             && (IsMissing(flow.cvd) || IsMissing(flow.taker))) ==>
      r == Unclassified("Insufficient market flow data")
    ensures r.indicators.None? ==> r.regime == Noise && r.direction == Neutral && r.confidence == 0.0
    ensures (SelectConfig(configs, configId).Some? && timeframe in timeframes
             && !IsMissing(flow.cvd) && !IsMissing(flow.taker)) ==>
      var ind := RegimeInputs(flow, CalculatePriceMetrics(klines, atrSeries, rsiSeries), ln);
      var c := ClassifyRegime(ind, SelectConfig(configs, configId).value, ln);
      && r.regime == c.regime && r.reason == c.reason
      && r.direction == DirectionOfVotes(NetVote(ind.cvdRatio, ind.takerLogRatio, ind.priceAtr))
      && r.confidence == CalculateConfidence(ind.cvdRatio, ind.takerLogRatio, ind.oiDelta, ind.priceAtr)
      && r.indicators == Some(ReportedIndicators(ind.cvdRatio, ind.oiDelta, exp(ind.takerLogRatio), ind.priceAtr, ind.rsi))
  {
    var config := SelectConfig(configs, configId);
    if config.None? {
      return Unclassified("No regime config found");
    }
    if timeframe !in timeframes {
      return Unclassified("Unsupported timeframe: " + timeframe);
    }
    if IsMissing(flow.cvd) || IsMissing(flow.taker) {
      return Unclassified("Insufficient market flow data");
    }
    var metrics := CalculatePriceMetrics(klines, atrSeries, rsiSeries);
    var ind := RegimeInputs(flow, metrics, ln);
    var c := ClassifyRegime(ind, config.value, ln);
    var direction := CalculateDirection(ind.cvdRatio, ind.takerLogRatio, ind.priceAtr);
    var confidence := CalculateConfidence(ind.cvdRatio, ind.takerLogRatio, ind.oiDelta, ind.priceAtr);
    r := RegimeReport(c.regime, direction, confidence, c.reason,
      Some(ReportedIndicators(ind.cvdRatio, ind.oiDelta, exp(ind.takerLogRatio), ind.priceAtr, ind.rsi)));
  }
}
