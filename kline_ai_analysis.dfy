/** The chart-analysis service of backend/services/kline_ai_analysis_service.py: the prompt
    dictionary that reads missing keys as "N/A", the three summary formatters (their line
    structure, not their number formatting), the API-key guard, the candle window, the
    request payload chosen by model family and the bounded retry loop. The LLM endpoints
    answer through a reply script indexed by endpoint and attempt. */
module KlineAiAnalysis {
  import opened Wrappers
  import opened Text
  import opened Seqs

  // ---------------------------------------------------------------- SafeDict and the prompt

  const MISSING := "N/A"

  /** `SafeDict(context)[key]`: a present key reads its value, a missing key reads "N/A". */
  function SafeGet(context: map<string, string>, key: string): (r: string)
    ensures key in context ==> r == context[key]
    ensures key !in context ==> r == MISSING
  {
    if key in context then context[key] else MISSING
  }

  /** A prompt template after parsing: literal text and `{name}` placeholders. */
  datatype Piece = Literal(text: string) | Field(name: string)

  /** `template.format_map(SafeDict(context))` */
  function Render(template: seq<Piece>, context: map<string, string>): string
    decreases |template|
  {
    if template == [] then ""
    else
      (match template[0]
       case Literal(t) => t
       case Field(k) => SafeGet(context, k))
      + Render(template[1..], context)
  }

  predicate Names(template: seq<Piece>, key: string) {
    exists i :: 0 <= i < |template| && template[i] == Field(key)
  }

  /** A missing key renders exactly as if it were bound to "N/A". */
  lemma {:induction false} RenderMissingAsPlaceholder(template: seq<Piece>, context: map<string, string>, key: string)
    requires key !in context
    ensures Render(template, context) == Render(template, context[key := MISSING])
    decreases |template|
  {
    if template != [] {
      RenderMissingAsPlaceholder(template[1..], context, key);
    }
  }

  /** Binding a key the template never names does not change the prompt. */
  lemma {:induction false} RenderIgnoresUnusedKeys(template: seq<Piece>, context: map<string, string>, key: string, value: string)
    requires !Names(template, key)
    ensures Render(template, context[key := value]) == Render(template, context)
    decreases |template|
  {
    if template != [] {
      assert !Names(template[1..], key) by {
        forall i | 0 <= i < |template[1..]|
          ensures template[1..][i] != Field(key)
        {
          assert template[1..][i] == template[i + 1];
        }
      }
      assert template[0] != Field(key);
      RenderIgnoresUnusedKeys(template[1..], context, key, value);
    }
  }

  // ---------------------------------------------------------------- K-line summary

  const NO_KLINES := "No K-line data available."
  const PERIOD_SUMMARY := "--- Period Summary ---"

  /** One candle as the route passes it; `None` is a missing key, read as 0 by `.get(k, 0)`. */
  datatype Candle = Candle(open: Option<real>, high: Option<real>, low: Option<real>,
                           close: Option<real>, volume: Option<real>)

  function OrZero(x: Option<real>): real {
    x.GetOr(0.0)
  }

  /** The lowest low, where a candle without a low counts as `float('inf')`. */
  datatype Low = Finite(value: real) | Infinity

  datatype KlineLine =
    | KlineText(text: string)
    | CandleRow(open: real, high: real, low: real, close: real, volume: real, rising: bool, changePercent: real)
    | PeriodChange(percent: real)
    | PriceRange(lowest: Low, highest: real)
    | TotalVolume(volume: real)

  /** `delta / base * 100` */
  function Percent(delta: real, base: real): (r: real)
    requires base > 0.0
    ensures r * base == delta * 100.0
    ensures delta >= 0.0 <==> r >= 0.0
  {
    delta / base * 100.0
  }

  /** One candle's line: its direction is "+" exactly when it closed at or above its open,
      and the change is taken against the open only when the open is positive. */
  function CandleRowOf(k: Candle): (r: KlineLine)
    ensures r.CandleRow?
    ensures r.rising <==> OrZero(k.close) >= OrZero(k.open)
    ensures OrZero(k.open) > 0.0 ==> r.changePercent * OrZero(k.open) == (OrZero(k.close) - OrZero(k.open)) * 100.0
    ensures OrZero(k.open) <= 0.0 ==> r.changePercent == 0.0
  {
    var o := OrZero(k.open);
    var c := OrZero(k.close);
    CandleRow(o, OrZero(k.high), OrZero(k.low), c, OrZero(k.volume), c >= o,
              if o > 0.0 then Percent(c - o, o) else 0.0)
  }

  function LowOf(k: Candle): Low {
    if k.low.Some? then Finite(k.low.value) else Infinity
  }

  predicate LowAtMost(a: Low, b: Low) {
    b.Infinity? || (a.Finite? && a.value <= b.value)
  }

  function MinLow(a: Low, b: Low): Low {
    if LowAtMost(a, b) then a else b
  }

  /** `min(k.get('low', inf) for k in klines)` */
  function LowestLow(ks: seq<Candle>): (r: Low)
    ensures forall i :: 0 <= i < |ks| ==> LowAtMost(r, LowOf(ks[i]))
    ensures r.Infinity? <==> forall i :: 0 <= i < |ks| ==> ks[i].low.None?
    decreases |ks|
  {
    if ks == [] then Infinity else MinLow(LowOf(ks[0]), LowestLow(ks[1..]))
  }

  /** `max(k.get('high', 0) for k in klines)` */
  function HighestHigh(ks: seq<Candle>): (r: real)
    requires |ks| > 0
    ensures forall i :: 0 <= i < |ks| ==> OrZero(ks[i].high) <= r
    ensures exists i :: 0 <= i < |ks| && r == OrZero(ks[i].high)
    decreases |ks|
  {
    if |ks| == 1 then OrZero(ks[0].high)
    else
      var rest := HighestHigh(ks[1..]);
      var i :| 0 <= i < |ks[1..]| && rest == OrZero(ks[1..][i].high);
      assert rest == OrZero(ks[i + 1].high);
      if OrZero(ks[0].high) >= rest then OrZero(ks[0].high) else rest
  }

  /** `sum(k.get('volume', 0) for k in klines)` */
  function TotalVolumeOf(ks: seq<Candle>): real
    decreases |ks|
  {
    if ks == [] then 0.0 else OrZero(ks[0].volume) + TotalVolumeOf(ks[1..])
  }

  /** The closing block: present only with at least two candles whose first close is positive. */
  function PeriodSummary(ks: seq<Candle>): (r: seq<KlineLine>)
    ensures r != [] <==> |ks| >= 2 && OrZero(ks[0].close) > 0.0
    ensures r != [] ==> |r| == 5 && r[1] == KlineText(PERIOD_SUMMARY)
    ensures r != [] ==> r[2].PeriodChange? && r[2].percent * OrZero(ks[0].close)
                          == (OrZero(ks[|ks| - 1].close) - OrZero(ks[0].close)) * 100.0
  {
    if |ks| >= 2 && OrZero(ks[0].close) > 0.0 then
      var first := OrZero(ks[0].close);
      [KlineText(""), KlineText(PERIOD_SUMMARY),
       PeriodChange(Percent(OrZero(ks[|ks| - 1].close) - first, first)),
       PriceRange(LowestLow(ks), HighestHigh(ks)),
       TotalVolume(TotalVolumeOf(ks))]
    else []
  }

  function KlineHeader(n: nat): string {
    "Displaying last " + NatToString(n) + " candles (oldest to newest):"
  }

  /** `_format_klines_summary`: the "no data" line for no candles; otherwise a header, one
      line per candle in order, and the period summary exactly when there are two or more
      candles and the first closed above 0. */
  function KlinesSummary(ks: seq<Candle>): (r: seq<KlineLine>)
    ensures ks == [] ==> r == [KlineText(NO_KLINES)]
    ensures ks != [] ==> |r| >= 2 + |ks| && r[0] == KlineText(KlineHeader(|ks|))
    ensures ks != [] ==> forall i :: 0 <= i < |ks| ==> r[2 + i] == CandleRowOf(ks[i])
    ensures KlineText(PERIOD_SUMMARY) in r <==> |ks| >= 2 && OrZero(ks[0].close) > 0.0
  {
    if ks == [] then [KlineText(NO_KLINES)]
    else
      var header := KlineHeader(|ks|);
      var rows := seq(|ks|, i requires 0 <= i < |ks| => CandleRowOf(ks[i]));
      var summary := PeriodSummary(ks);
      var r := [KlineText(header), KlineText("")] + rows + summary;
      assert header[0] == 'D' && PERIOD_SUMMARY[0] == '-';
      assert KlineText(PERIOD_SUMMARY) !in rows;
      assert summary != [] ==> r[2 + |ks| + 1] == KlineText(PERIOD_SUMMARY);
      r
  }

  method FormatKlinesSummary(klines: seq<Candle>) returns (lines: seq<KlineLine>)
    ensures lines == KlinesSummary(klines)
  {
    if |klines| == 0 {
      return [KlineText(NO_KLINES)];
    }
    lines := [KlineText(KlineHeader(|klines|)), KlineText("")];
    for i := 0 to |klines|
      invariant lines == [KlineText(KlineHeader(|klines|)), KlineText("")]
                         + seq(i, j requires 0 <= j < i => CandleRowOf(klines[j]))
    {
      lines := lines + [CandleRowOf(klines[i])];
    }
    lines := lines + PeriodSummary(klines);
  }

  // ---------------------------------------------------------------- positions summary

  const NO_POSITIONS := "No open positions."

  /** One open position as already-rendered values; `None` is a missing key. */
  datatype PositionRow = PositionRow(
    symbol: Option<string>, side: Option<string>, size: Option<string>, value: Option<string>,
    entry: Option<string>, mark: Option<string>, liquidation: Option<string>,
    leverage: Option<string>, unrealizedPnl: Option<string>, pnlPercent: Option<string>)

  /** `x or default` on an optional string: `None` and "" both fall back. */
  function OrText(x: Option<string>, default: string): string {
    if x.Some? && x.value != "" then x.value else default
  }

  /** The " | "-separated parts of one position's line: seven, plus "pnl%" when given. */
  function PositionParts(p: PositionRow): (parts: seq<string>)
    ensures |parts| == (if p.pnlPercent.Some? then 8 else 7)
    ensures parts[0] == OrText(p.symbol, MISSING) + " " + Upper(OrText(p.side, "")) + " size:" + p.size.GetOr(MISSING)
    ensures parts[6] == "unrealized_pnl:" + p.unrealizedPnl.GetOr(MISSING)
    ensures p.pnlPercent.Some? ==> parts[7] == "pnl%:" + p.pnlPercent.value
  {
    var base := [
      OrText(p.symbol, MISSING) + " " + Upper(OrText(p.side, "")) + " size:" + p.size.GetOr(MISSING),
      "value:" + p.value.GetOr(MISSING),
      "entry:" + p.entry.GetOr(MISSING),
      "mark:" + p.mark.GetOr(MISSING),
      "liq:" + p.liquidation.GetOr(MISSING),
      "lev:" + p.leverage.GetOr(MISSING),
      "unrealized_pnl:" + p.unrealizedPnl.GetOr(MISSING)];
    if p.pnlPercent.Some? then base + ["pnl%:" + p.pnlPercent.value] else base
  }

  function PositionLine(p: PositionRow): string {
    Join(" | ", PositionParts(p))
  }

  /** `_format_positions_summary` line by line: one line per position in order, or the
      single "no positions" line. */
  function PositionLines(ps: seq<PositionRow>): (lines: seq<string>)
    ensures ps == [] ==> lines == [NO_POSITIONS]
    ensures ps != [] ==> |lines| == |ps|
    ensures ps != [] ==> forall i :: 0 <= i < |ps| ==> lines[i] == PositionLine(ps[i])
  {
    if ps == [] then [NO_POSITIONS]
    else seq(|ps|, i requires 0 <= i < |ps| => PositionLine(ps[i]))
  }

  method FormatPositionsSummary(positions: seq<PositionRow>) returns (text: string)
    ensures text == Join("\n", PositionLines(positions))
  {
    if |positions| == 0 {
      return NO_POSITIONS;
    }
    var lines: seq<string> := [];
    for i := 0 to |positions|
      invariant lines == seq(i, j requires 0 <= j < i => PositionLine(positions[j]))
    {
      lines := lines + [PositionLine(positions[i])];
    }
    text := Join("\n", lines);
  }

  // ---------------------------------------------------------------- indicators summary

  const NO_INDICATORS := "No technical indicators available."
  const NONE_SELECTED := "No technical indicators selected."
  const MA_KEYS: seq<string> := ["MA5", "MA10", "MA20", "EMA20", "EMA50"]
  const RSI_KEYS: seq<string> := ["RSI14", "RSI7"]
  const TAIL_LEN := 5

  /** An indicator value: a series (`None` is a missing or non-numeric point), a table of
      named series (MACD, BOLL), or any other value, of which only its truthiness matters. */
  datatype Indicator =
    | Series(points: seq<Option<real>>)
    | Table(columns: map<string, seq<Option<real>>>)
    | Scalar(truthy: bool)

  predicate Truthy(x: Indicator) {
    match x
    case Series(p) => |p| > 0
    case Table(c) => |c| > 0
    case Scalar(t) => t
  }

  datatype RsiBand = Overbought | Oversold | Neutral

  /** The RSI label: above 70 overbought, below 30 oversold, neutral in between. */
  function RsiBandOf(v: real): (b: RsiBand)
    ensures b == Overbought <==> v > 70.0
    ensures b == Oversold <==> v < 30.0
    ensures b == Neutral <==> 30.0 <= v <= 70.0
  {
    if v > 70.0 then Overbought else if v < 30.0 then Oversold else Neutral
  }

  function BandRank(b: RsiBand): int {
    match b
    case Oversold => 0
    case Neutral => 1
    case Overbought => 2
  }

  /** A higher reading never gets a lower label. */
  lemma RsiBandMonotone(v: real, w: real)
    requires v <= w
    ensures BandRank(RsiBandOf(v)) <= BandRank(RsiBandOf(w))
  {
  }

  datatype MaItem = MaLatest(key: string, latest: Option<real>) | MaTail(key: string, values: seq<real>)

  datatype IndicatorLine =
    | Heading(title: string)
    | Blank
    | Message(text: string)
    | MovingAverages(items: seq<MaItem>)
    | RsiReading(key: string, value: real, band: RsiBand)
    | SeriesValue(caption: string, value: real)
    | Histogram(value: real, bullish: bool)
    | HistogramTail(values: seq<real>)

  function LastPoint(s: seq<Option<real>>): Option<real> {
    if |s| > 0 then s[|s| - 1] else None
  }

  /** The numeric points among the last five (`values[-5:]`, numbers only). */
  function Tail(s: seq<Option<real>>): (r: seq<real>)
    ensures |r| <= TAIL_LEN
    ensures var n := if |s| <= TAIL_LEN then |s| else TAIL_LEN;
            r == Numbers(s[|s| - n..])
  {
    var last := if |s| <= TAIL_LEN then s else s[|s| - TAIL_LEN..];
    Numbers(last)
  }

  /** The numbers of a series, in order: the values of its non-null entries. */
  function Numbers(s: seq<Option<real>>): (r: seq<real>)
    ensures |r| <= |s|
    ensures var present := Filter(s, (o: Option<real>) => o.Some?);
            |r| == |present| && forall i :: 0 <= i < |r| ==> present[i] == Some(r[i])
    decreases |s|
  {
    if s == [] then []
    else
      assert s == [s[0]] + s[1..];
      FilterCons(s[0], s[1..], (o: Option<real>) => o.Some?);
      (if s[0].Some? then [s[0].value] else []) + Numbers(s[1..])
  }

  /** The series stored under `key`, when it is a truthy list. */
  predicate HasSeries(ind: map<string, Indicator>, key: string) {
    key in ind && Truthy(ind[key]) && ind[key].Series?
  }

  function MaItemsFor(ind: map<string, Indicator>, key: string): (r: seq<MaItem>)
    ensures r != [] <==> HasSeries(ind, key)
    ensures r != [] ==> r[0] == MaLatest(key, LastPoint(ind[key].points))
  {
    if HasSeries(ind, key) then
      var tail := Tail(ind[key].points);
      [MaLatest(key, LastPoint(ind[key].points))] + (if tail != [] then [MaTail(key, tail)] else [])
    else []
  }

  /** The moving-average items for `keys`, in key order. */
  function MaItemsOf(ind: map<string, Indicator>, keys: seq<string>): (r: seq<MaItem>)
    ensures r == [] <==> forall i :: 0 <= i < |keys| ==> !HasSeries(ind, keys[i])
    decreases |keys|
  {
    if keys == [] then []
    else MaItemsOf(ind, keys[..|keys| - 1]) + MaItemsFor(ind, keys[|keys| - 1])
  }

  function RsiLinesFor(ind: map<string, Indicator>, key: string): (r: seq<IndicatorLine>)
    ensures r != [] <==> HasSeries(ind, key) && LastPoint(ind[key].points).Some?
    ensures forall i :: 0 <= i < |r| ==> r[i].RsiReading? && r[i].key == key && r[i].band == RsiBandOf(r[i].value)
  {
    if HasSeries(ind, key) && LastPoint(ind[key].points).Some? then
      var v := LastPoint(ind[key].points).value;
      [RsiReading(key, v, RsiBandOf(v))]
    else []
  }

  /** The RSI readings for `keys`: each one labelled by its own value. */
  function RsiLinesOf(ind: map<string, Indicator>, keys: seq<string>): (r: seq<IndicatorLine>)
    ensures forall i :: 0 <= i < |r| ==> r[i].RsiReading? && r[i].band == RsiBandOf(r[i].value)
    ensures r == [] <==> forall i :: 0 <= i < |keys| ==> RsiLinesFor(ind, keys[i]) == []
    decreases |keys|
  {
    if keys == [] then []
    else RsiLinesOf(ind, keys[..|keys| - 1]) + RsiLinesFor(ind, keys[|keys| - 1])
  }

  function Column(t: map<string, seq<Option<real>>>, name: string): seq<Option<real>> {
    if name in t then t[name] else []
  }

  function ValueLine(caption: string, s: seq<Option<real>>): seq<IndicatorLine> {
    if LastPoint(s).Some? then [SeriesValue(caption, LastPoint(s).value)] else []
  }

  /** The table stored under `key`, when it is a truthy dict. */
  predicate HasTable(ind: map<string, Indicator>, key: string) {
    key in ind && Truthy(ind[key]) && ind[key].Table?
  }

  function HistogramLines(s: seq<Option<real>>): (r: seq<IndicatorLine>)
    ensures r != [] <==> LastPoint(s).Some?
    ensures r != [] ==> r[0] == Histogram(LastPoint(s).value, LastPoint(s).value > 0.0)
  {
    if LastPoint(s).Some? then
      var v := LastPoint(s).value;
      [Histogram(v, v > 0.0)] + (if Tail(s) != [] then [HistogramTail(Tail(s))] else [])
    else []
  }

  function MaSection(ind: map<string, Indicator>): (r: seq<IndicatorLine>)
    ensures r != [] ==> r[0].Heading?
  {
    var items := MaItemsOf(ind, MA_KEYS);
    if items != [] then [Heading("**Moving Averages:**"), MovingAverages(items), Blank] else []
  }

  function RsiSection(ind: map<string, Indicator>): (r: seq<IndicatorLine>)
    ensures r != [] ==> r[0].Heading?
  {
    var readings := RsiLinesOf(ind, RSI_KEYS);
    if readings != [] then [Heading("**RSI (Relative Strength Index):**")] + readings + [Blank] else []
  }

  /** The MACD block: its heading appears for any truthy MACD table, even one with no values. */
  function MacdSection(ind: map<string, Indicator>): (r: seq<IndicatorLine>)
    ensures r != [] <==> HasTable(ind, "MACD")
    ensures r != [] ==> r[0] == Heading("**MACD:**")
  {
    if HasTable(ind, "MACD") then
      var t := ind["MACD"].columns;
      [Heading("**MACD:**")] + ValueLine("MACD Line", Column(t, "macd")) + ValueLine("Signal Line", Column(t, "signal"))
        + HistogramLines(Column(t, "histogram")) + [Blank]
    else []
  }

  function BollSection(ind: map<string, Indicator>): (r: seq<IndicatorLine>)
    ensures r != [] <==> HasTable(ind, "BOLL")
    ensures r != [] ==> r[0] == Heading("**Bollinger Bands:**")
  {
    if HasTable(ind, "BOLL") then
      var t := ind["BOLL"].columns;
      [Heading("**Bollinger Bands:**")] + ValueLine("Upper Band", Column(t, "upper"))
        + ValueLine("Middle Band (SMA20)", Column(t, "middle")) + ValueLine("Lower Band", Column(t, "lower")) + [Blank]
    else []
  }

  function AtrSection(ind: map<string, Indicator>): (r: seq<IndicatorLine>)
    ensures r != [] <==> HasSeries(ind, "ATR14") && LastPoint(ind["ATR14"].points).Some?
    ensures r != [] ==> r[0].Heading?
  {
    if HasSeries(ind, "ATR14") && LastPoint(ind["ATR14"].points).Some? then
      [Heading("**ATR (Average True Range):**"), SeriesValue("ATR14", LastPoint(ind["ATR14"].points).value), Blank]
    else []
  }

  function Sections(ind: map<string, Indicator>): (r: seq<IndicatorLine>)
    ensures r != [] ==> r[0].Heading?
  {
    MaSection(ind) + RsiSection(ind) + MacdSection(ind) + BollSection(ind) + AtrSection(ind)
  }

  predicate MaSelected(ind: map<string, Indicator>) {
    exists i :: 0 <= i < |MA_KEYS| && HasSeries(ind, MA_KEYS[i])
  }

  predicate RsiSelected(ind: map<string, Indicator>) {
    exists i :: 0 <= i < |RSI_KEYS| && RsiLinesFor(ind, RSI_KEYS[i]) != []
  }

  /** Whether any of the five blocks has something to show. */
  predicate AnySelected(ind: map<string, Indicator>) {
    MaSelected(ind) || RsiSelected(ind)
    || HasTable(ind, "MACD") || HasTable(ind, "BOLL")
    || (HasSeries(ind, "ATR14") && LastPoint(ind["ATR14"].points).Some?)
  }

  lemma MaSectionEmptyIff(ind: map<string, Indicator>)
    ensures MaSection(ind) == [] <==> !MaSelected(ind)
  {
    if MaSelected(ind) {
      var i :| 0 <= i < |MA_KEYS| && HasSeries(ind, MA_KEYS[i]);
      assert MaItemsOf(ind, MA_KEYS) != [];
    }
  }

  lemma RsiSectionEmptyIff(ind: map<string, Indicator>)
    ensures RsiSection(ind) == [] <==> !RsiSelected(ind)
  {
    if RsiSelected(ind) {
      var i :| 0 <= i < |RSI_KEYS| && RsiLinesFor(ind, RSI_KEYS[i]) != [];
      assert RsiLinesOf(ind, RSI_KEYS) != [];
    }
  }

  /** The five blocks together are empty exactly when none of them applies. */
  lemma SectionsEmptyIff(ind: map<string, Indicator>)
    ensures Sections(ind) == [] <==> !AnySelected(ind)
  {
    MaSectionEmptyIff(ind);
    RsiSectionEmptyIff(ind);
    var ma, rsi, macd, boll, atr := MaSection(ind), RsiSection(ind), MacdSection(ind), BollSection(ind), AtrSection(ind);
    assert |Sections(ind)| == |ma| + |rsi| + |macd| + |boll| + |atr|;
  }

  /** `_format_indicators_summary`: "no indicators" for an empty dict, "none selected" exactly
      when the dict is not empty but no block applies, and otherwise the blocks in order. */
  function IndicatorsSummary(ind: map<string, Indicator>): (r: seq<IndicatorLine>)
    ensures |ind| == 0 ==> r == [Message(NO_INDICATORS)]
    ensures r == [Message(NONE_SELECTED)] <==> |ind| > 0 && !AnySelected(ind)
    ensures |ind| > 0 && AnySelected(ind) ==> r == Sections(ind) && r[0].Heading?
  {
    if |ind| == 0 then [Message(NO_INDICATORS)]
    else
      var body := Sections(ind);
      SectionsEmptyIff(ind);
      if body == [] then [Message(NONE_SELECTED)] else body
  }

  method FormatIndicatorsSummary(ind: map<string, Indicator>) returns (lines: seq<IndicatorLine>)
    ensures lines == IndicatorsSummary(ind)
  {
    if |ind| == 0 {
      return [Message(NO_INDICATORS)];
    }
    var items := CollectMaItems(ind);
    var ma := if items != [] then [Heading("**Moving Averages:**"), MovingAverages(items), Blank] else [];
    var readings := CollectRsiReadings(ind);
    var rsi := if readings != [] then [Heading("**RSI (Relative Strength Index):**")] + readings + [Blank] else [];
    lines := ma + rsi + MacdSection(ind) + BollSection(ind) + AtrSection(ind);
    if lines == [] {
      lines := [Message(NONE_SELECTED)];
    }
  }

  /** The moving-average loop over `MA_KEYS`. */
  method CollectMaItems(ind: map<string, Indicator>) returns (items: seq<MaItem>)
    ensures items == MaItemsOf(ind, MA_KEYS)
  {
    items := [];
    for i := 0 to |MA_KEYS|
      invariant items == MaItemsOf(ind, MA_KEYS[..i])
    {
      assert MA_KEYS[..i + 1][..i] == MA_KEYS[..i];
      items := items + MaItemsFor(ind, MA_KEYS[i]);
    }
    assert MA_KEYS[..|MA_KEYS|] == MA_KEYS;
  }

  /** The RSI loop over `RSI_KEYS`. */
  method CollectRsiReadings(ind: map<string, Indicator>) returns (readings: seq<IndicatorLine>)
    ensures readings == RsiLinesOf(ind, RSI_KEYS)
  {
    readings := [];
    for i := 0 to |RSI_KEYS|
      invariant readings == RsiLinesOf(ind, RSI_KEYS[..i])
    {
      assert RSI_KEYS[..i + 1][..i] == RSI_KEYS[..i];
      readings := readings + RsiLinesFor(ind, RSI_KEYS[i]);
    }
    assert RSI_KEYS[..|RSI_KEYS|] == RSI_KEYS;
  }

  // ---------------------------------------------------------------- request construction

  const PLACEHOLDER_KEYS: seq<string> := ["", "default-key-please-update-in-settings", "default"]

  /** The guard before any request is built: a key that is absent, empty or a placeholder
      stops the analysis. */
  predicate HasUsableKey(apiKey: Option<string>) {
    apiKey.Some? && apiKey.value != "" && apiKey.value !in PLACEHOLDER_KEYS
  }

  /** `s[start:]` with Python's clamping of a negative or too-large start. */
  function SliceFrom<T>(s: seq<T>, start: int): (r: seq<T>)
    ensures start >= 0 ==> r == s[if start <= |s| then start else |s|..]
    ensures start < 0 ==> r == s[if -start <= |s| then |s| + start else 0..]
  {
    if start >= 0 then s[if start <= |s| then start else |s|..]
    else s[if -start <= |s| then |s| + start else 0..]
  }

  /** `klines[-kline_limit:] if kline_limit else klines`: the last `kline_limit` candles for
      a positive limit, all of them for no limit or 0. (A negative limit drops that many from
      the front, as Python's slice does.) */
  function DisplayKlines<T>(ks: seq<T>, klineLimit: Option<int>): (r: seq<T>)
    ensures klineLimit.None? || klineLimit.value == 0 ==> r == ks
    ensures klineLimit.Some? && klineLimit.value > 0 ==>
              |r| == (if klineLimit.value <= |ks| then klineLimit.value else |ks|) && r == ks[|ks| - |r|..]
    ensures klineLimit.Some? && klineLimit.value < 0 ==>
              r == ks[if -klineLimit.value <= |ks| then -klineLimit.value else |ks|..]
  {
    if klineLimit.Some? && klineLimit.value != 0 then SliceFrom(ks, -klineLimit.value) else ks
  }

  const REASONING_MARKERS: seq<string> := [
    "gpt-5", "o1-preview", "o1-mini", "o1-", "o3-", "o4-",
    "deepseek-r1", "deepseek-reasoner",
    "qwq", "qwen-plus-thinking", "qwen-max-thinking", "qwen3-thinking",
    "claude-4", "claude-sonnet-4-5",
    "gemini-2.5", "gemini-3", "gemini-2.0-flash-thinking",
    "grok-3-mini"]

  function ModelName(model: Option<string>): string {
    Lower(model.GetOr(""))
  }

  /** A reasoning model: the lower-cased model name contains one of the markers. */
  predicate IsReasoningModel(model: Option<string>) {
    exists i :: 0 <= i < |REASONING_MARKERS| && Contains(ModelName(model), REASONING_MARKERS[i])
  }

  predicate IsNewModel(model: Option<string>) {
    IsReasoningModel(model) || Contains(ModelName(model), "gpt-4o")
  }

  datatype TokenLimit = MaxCompletionTokens(n: nat) | MaxTokens(n: nat)

  datatype Payload = Payload(model: Option<string>, prompt: string, temperature: Option<real>, limit: TokenLimit)

  /** The request body: temperature 0.7 only for a non-reasoning model, and a 4000-token
      limit sent as `max_completion_tokens` to reasoning and gpt-4o models and as
      `max_tokens` to the rest. */
  function BuildPayload(model: Option<string>, prompt: string): (p: Payload)
    ensures p.model == model && p.prompt == prompt
    ensures p.temperature.Some? <==> !IsReasoningModel(model)
    ensures p.temperature.Some? ==> p.temperature.value == 0.7
    ensures p.limit.MaxCompletionTokens? <==> IsNewModel(model)
    ensures p.limit.n == 4000
  {
    Payload(model, prompt,
            if IsReasoningModel(model) then None else Some(0.7),
            if IsNewModel(model) then MaxCompletionTokens(4000) else MaxTokens(4000))
  }

  /** The request timeout in seconds. */
  function RequestTimeout(model: Option<string>): (seconds: nat)
    ensures seconds == 120 <==> IsReasoningModel(model)
    ensures seconds == 60 <==> !IsReasoningModel(model)
  {
    if IsReasoningModel(model) then 120 else 60
  }

  /** A payload without a temperature always uses `max_completion_tokens`, and a payload with
      `max_tokens` always carries a temperature. */
  lemma PayloadFamilies(model: Option<string>, prompt: string)
    ensures BuildPayload(model, prompt).temperature.None? ==> BuildPayload(model, prompt).limit.MaxCompletionTokens?
    ensures BuildPayload(model, prompt).limit.MaxTokens? ==> BuildPayload(model, prompt).temperature.Some?
    ensures BuildPayload(model, prompt).temperature.None? ==> RequestTimeout(model) == 120
  {
  }

  /** The model name is lower-cased before the markers are looked for, so the classification
      ignores case: a name, its lower-cased and its upper-cased form are classified alike. */
  lemma ReasoningModelIgnoresCase(n: string)
    ensures IsReasoningModel(Some(n)) == IsReasoningModel(Some(Lower(n)))
    ensures IsReasoningModel(Some(n)) == IsReasoningModel(Some(Upper(n)))
  {
    assert Lower(Lower(n)) == Lower(n);
    assert Lower(Upper(n)) == Lower(n);
  }

  // ---------------------------------------------------------------- the retry loop

  const MAX_RETRIES := 3

  /** What one POST came back with: an exception, or a status with the extracted text of
      each choice (no choices stands for a body without "choices"). */
  datatype Reply = RequestFailed | Answered(status: int, choices: seq<string>)

  /** The script of replies: `reply(e, a)` is what attempt `a` at endpoint `e` returns. */
  type Replies = (nat, nat) -> Reply

  predicate IsOk(r: Reply) {
    r.Answered? && r.status == 200
  }

  /** Rate limiting and exceptions are retried, except on the last attempt. */
  predicate Retries(r: Reply, attempt: nat) {
    attempt < MAX_RETRIES - 1 && (r.RequestFailed? || (r.Answered? && r.status == 429))
  }

  /** How many attempts endpoint `e` gets, counting from attempt `a`: retries go on while the
      reply is retryable, and the loop stops at the first reply that is not. */
  function AttemptsAt(reply: Replies, e: nat, a: nat): (n: nat)
    requires a < MAX_RETRIES
    ensures a < n <= MAX_RETRIES
    decreases MAX_RETRIES - a
  {
    if Retries(reply(e, a), a) then AttemptsAt(reply, e, a + 1) else a + 1
  }

  /** Every attempt before the last was retryable, and the last one was not. */
  lemma {:induction false} AttemptsStopAtFirstFinalReply(reply: Replies, e: nat, a: nat)
    requires a < MAX_RETRIES
    ensures var n := AttemptsAt(reply, e, a);
      (forall j :: a <= j < n - 1 ==> Retries(reply(e, j), j)) && !Retries(reply(e, n - 1), n - 1)
    decreases MAX_RETRIES - a
  {
    if Retries(reply(e, a), a) {
      AttemptsStopAtFirstFinalReply(reply, e, a + 1);
    }
  }

  /** An endpoint succeeds when its last attempt answered 200. */
  predicate EndpointSucceeded(reply: Replies, e: nat) {
    IsOk(reply(e, AttemptsAt(reply, e, 0) - 1))
  }

  /** The first of endpoints `from..count` that succeeds. */
  function FirstSucceeding(reply: Replies, from: nat, count: nat): (w: Option<nat>)
    ensures w.Some? ==> from <= w.value < count && EndpointSucceeded(reply, w.value)
    ensures w.Some? ==> forall j :: from <= j < w.value ==> !EndpointSucceeded(reply, j)
    ensures w.None? ==> forall j :: from <= j < count ==> !EndpointSucceeded(reply, j)
    decreases count - from
  {
    if from >= count then None
    else if EndpointSucceeded(reply, from) then Some(from)
    else FirstSucceeding(reply, from + 1, count)
  }

  /** One endpoint further: a success there is the answer, a failure moves on. */
  lemma FirstSucceedingStep(reply: Replies, e: nat, count: nat)
    requires e < count
    ensures FirstSucceeding(reply, e, count) ==
      if EndpointSucceeded(reply, e) then Some(e) else FirstSucceeding(reply, e + 1, count)
  {
  }

  /** The endpoint/attempt loop. It tries each endpoint at most three times, stops at the
      first 200, and moves to a later endpoint only after every earlier one failed.
      `attempts[e]` is the number of requests sent to endpoint `e`. */
  method CallWithRetries(endpointCount: nat, reply: Replies) returns (winner: Option<nat>, attempts: seq<nat>)
    ensures winner == FirstSucceeding(reply, 0, endpointCount)
    ensures |attempts| == (if winner.Some? then winner.value + 1 else endpointCount)
    ensures forall e :: 0 <= e < |attempts| ==> attempts[e] == AttemptsAt(reply, e, 0) <= MAX_RETRIES
  {
    winner := None;
    attempts := [];
    var e := 0;
    while e < endpointCount && winner.None?
      invariant 0 <= e <= endpointCount
      invariant |attempts| == e
      invariant forall k :: 0 <= k < e ==> attempts[k] == AttemptsAt(reply, k, 0)
      invariant winner.None? ==> FirstSucceeding(reply, 0, endpointCount) == FirstSucceeding(reply, e, endpointCount)
      invariant winner.Some? ==> winner == FirstSucceeding(reply, 0, endpointCount) && winner.value == e - 1
      decreases endpointCount - e, if winner.None? then 1 else 0
    {
      var attempt, ok := TryEndpoint(e, reply);
      FirstSucceedingStep(reply, e, endpointCount);
      attempts := attempts + [attempt];
      if ok {
        winner := Some(e);
      }
      e := e + 1;
    }
  }

  /** The attempt loop at one endpoint: `ok` is whether the last attempt answered 200. */
  method TryEndpoint(e: nat, reply: Replies) returns (attempt: nat, ok: bool)
    ensures attempt == AttemptsAt(reply, e, 0)
    ensures ok == EndpointSucceeded(reply, e)
  {
    attempt := 0;
    ok := false;
    var done := false;
    while !done
      invariant 0 <= attempt <= MAX_RETRIES
      invariant !done ==> attempt < MAX_RETRIES && AttemptsAt(reply, e, 0) == AttemptsAt(reply, e, attempt)
      invariant done ==> attempt == AttemptsAt(reply, e, 0) && ok == IsOk(reply(e, attempt - 1))
      decreases MAX_RETRIES - attempt, if done then 0 else 1
    {
      var r := reply(e, attempt);
      if !Retries(r, attempt) {
        ok := IsOk(r);
        done := true;
      }
      attempt := attempt + 1;
    }
  }

  // ---------------------------------------------------------------- the analysis

  datatype KlineAnalysis =
    | AnalysisError(error: string)
    | AnalysisDone(analysis: string, endpoint: nat, payload: Payload, timeout: nat)

  /** The control flow of `analyze_kline_chart` after the prompt is rendered: the key guard,
      the endpoint check, the retry loop and the reading of the first choice. The log row it
      writes on success is not modelled. */
  method AnalyzeKlineChart(apiKey: Option<string>, model: Option<string>, prompt: string,
                           endpointCount: nat, reply: Replies) returns (r: KlineAnalysis)
    ensures !HasUsableKey(apiKey) ==> r == AnalysisError("AI Trader has no valid API key configured")
    ensures HasUsableKey(apiKey) && endpointCount == 0 ==> r == AnalysisError("Failed to build API endpoint")
    ensures (HasUsableKey(apiKey) && endpointCount > 0 && FirstSucceeding(reply, 0, endpointCount).None?)
              ==> r == AnalysisError("AI API request failed")
    ensures (HasUsableKey(apiKey) && FirstSucceeding(reply, 0, endpointCount).Some?) ==>
              var w := FirstSucceeding(reply, 0, endpointCount).value;
              var answer := reply(w, AttemptsAt(reply, w, 0) - 1);
              r == if answer.choices == [] then AnalysisError("Unexpected AI response format")
                   else if answer.choices[0] == "" then AnalysisError("AI returned empty response")
                   else AnalysisDone(answer.choices[0], w, BuildPayload(model, prompt), RequestTimeout(model))
  {
    if !HasUsableKey(apiKey) {
      return AnalysisError("AI Trader has no valid API key configured");
    }
    var payload := BuildPayload(model, prompt);
    var timeout := RequestTimeout(model);
    if endpointCount == 0 {
      return AnalysisError("Failed to build API endpoint");
    }
    var winner, attempts := CallWithRetries(endpointCount, reply);
    if winner.None? {
      return AnalysisError("AI API request failed");
    }
    var w := winner.value;
    var answer := reply(w, attempts[w] - 1);
    if answer.choices == [] {
      return AnalysisError("Unexpected AI response format");
    }
    if answer.choices[0] == "" {
      return AnalysisError("AI returned empty response");
    }
    r := AnalysisDone(answer.choices[0], w, payload, timeout);
  }

}
