/** The threshold-analysis service of backend/services/signal_analysis_service.py.
    Time-stamped flow records are grouped into buckets (`floor_timestamp` is a parameter),
    a per-bucket series is derived from them, and sample-count gates decide whether
    percentile-based threshold suggestions are reported. Records arrive as the queries
    return them: one symbol, inside the time window, in ascending timestamp order. */
module SignalAnalysis {
  import opened Wrappers
  import Text

  /** Fewer samples than this are reported as insufficient. */
  const MIN_SAMPLES: nat := 3
  /** Fewer samples than this add a limited-data warning. */
  const LIMITED_DATA_THRESHOLD: nat := 10

  /** The legacy metric names `analyze_metric` still accepts. */
  function MetricAlias(metric: string): (r: string)
    ensures metric == "oi_delta_percent" ==> r == "oi_delta"
    ensures metric == "funding_rate" ==> r == "funding"
    ensures metric == "taker_buy_ratio" ==> r == "taker_ratio"
    ensures metric != "oi_delta_percent" && metric != "funding_rate" && metric != "taker_buy_ratio" ==> r == metric
  {
    if metric == "oi_delta_percent" then "oi_delta"
    else if metric == "funding_rate" then "funding"
    else if metric == "taker_buy_ratio" then "taker_ratio"
    else metric
  }

  /** No current name is itself a legacy name, so mapping twice changes nothing. */
  lemma MetricAliasIdempotent(metric: string)
    ensures MetricAlias(MetricAlias(metric)) == MetricAlias(metric)
  {
    var r := MetricAlias(metric);
    assert r == metric || r == "oi_delta" || r == "funding" || r == "taker_ratio";
    assert |"oi_delta"| == 8 && |"funding"| == 7 && |"taker_ratio"| == 11;
  }

  // ---------------------------------------------------------------- buckets

  datatype Sample<V> = Sample(ts: int, value: V)

  predicate Increasing(keys: seq<int>) {
    forall i, j :: 0 <= i < j < |keys| ==> keys[i] < keys[j]
  }

  /** A strictly increasing list with one more key. */
  function InsertSorted(keys: seq<int>, k: int): (r: seq<int>)
    requires Increasing(keys)
    ensures Increasing(r)
    ensures forall x :: x in r <==> x in keys || x == k
    decreases |keys|
  {
    if keys == [] then [k]
    else if k < keys[0] then [k] + keys
    else if k == keys[0] then keys
    else
      var tail := InsertSorted(keys[1..], k);
      assert forall x :: x in keys[1..] ==> keys[0] < x;
      assert forall j :: 0 <= j < |tail| ==> tail[j] in tail;
      [keys[0]] + tail
  }

  /** The value held for bucket `k` after the loop: the last sample written to it. */
  function LastInBucket<V>(samples: seq<Sample<V>>, bucketOf: int -> int, k: int): Option<V>
    decreases |samples|
  {
    if samples == [] then None
    else if bucketOf(samples[|samples| - 1].ts) == k then Some(samples[|samples| - 1].value)
    else LastInBucket(samples[..|samples| - 1], bucketOf, k)
  }

  /** A bucket holds nothing exactly when no sample falls in it. */
  lemma {:induction false} LastInBucketEmpty<V>(samples: seq<Sample<V>>, bucketOf: int -> int, k: int)
    ensures LastInBucket(samples, bucketOf, k).None? <==> forall i :: 0 <= i < |samples| ==> bucketOf(samples[i].ts) != k
    decreases |samples|
  {
    if samples != [] {
      var n := |samples| - 1;
      var prefix := samples[..n];
      LastInBucketEmpty(prefix, bucketOf, k);
      assert forall i :: 0 <= i < n ==> prefix[i] == samples[i];
    }
  }

  /** Last write wins: the bucket holds the value of a sample in it and no later sample is in it. */
  lemma {:induction false} LastInBucketIsLastWrite<V>(samples: seq<Sample<V>>, bucketOf: int -> int, k: int)
    ensures LastInBucket(samples, bucketOf, k).None? <==> forall i :: 0 <= i < |samples| ==> bucketOf(samples[i].ts) != k
    ensures LastInBucket(samples, bucketOf, k).Some? ==>
      exists i :: 0 <= i < |samples| && bucketOf(samples[i].ts) == k
        && samples[i].value == LastInBucket(samples, bucketOf, k).value
        && forall j :: i < j < |samples| ==> bucketOf(samples[j].ts) != k
    decreases |samples|
  {
    LastInBucketEmpty(samples, bucketOf, k);
    if samples != [] {
      var n := |samples| - 1;
      var prefix := samples[..n];
      if bucketOf(samples[n].ts) != k {
        LastInBucketIsLastWrite(prefix, bucketOf, k);
        if LastInBucket(prefix, bucketOf, k).Some? {
          var i :| 0 <= i < n && bucketOf(prefix[i].ts) == k && prefix[i].value == LastInBucket(prefix, bucketOf, k).value
                   && forall j :: i < j < n ==> bucketOf(prefix[j].ts) != k;
          assert samples[i] == prefix[i];
          assert forall j :: i < j < n ==> samples[j] == prefix[j];
        }
      }
    }
  }

  /** `sorted(buckets.keys())` */
  function SortedBuckets<V>(samples: seq<Sample<V>>, bucketOf: int -> int): (keys: seq<int>)
    ensures Increasing(keys)
    ensures forall k :: k in keys <==> LastInBucket(samples, bucketOf, k).Some?
    decreases |samples|
  {
    if samples == [] then []
    else
      var prior := SortedBuckets(samples[..|samples| - 1], bucketOf);
      var k := bucketOf(samples[|samples| - 1].ts);
      if k in prior then prior else InsertSorted(prior, k)
  }

  /** The per-bucket values of last-write-wins bucketing, in bucket order. */
  function LastSeries<V>(samples: seq<Sample<V>>, bucketOf: int -> int): (series: seq<V>)
    ensures |series| == |SortedBuckets(samples, bucketOf)|
    ensures forall i :: 0 <= i < |series| ==>
      LastInBucket(samples, bucketOf, SortedBuckets(samples, bucketOf)[i]) == Some(series[i])
  {
    var keys := SortedBuckets(samples, bucketOf);
    seq(|keys|, i requires 0 <= i < |keys| => LastInBucket(samples, bucketOf, keys[i]).value)
  }

  /** The bucketing loop of the OI, depth, funding and OI-delta histories: each record
      overwrites its bucket. */
  method BucketLast<V>(samples: seq<Sample<V>>, bucketOf: int -> int) returns (keys: seq<int>, series: seq<V>)
    ensures keys == SortedBuckets(samples, bucketOf)
    ensures series == LastSeries(samples, bucketOf)
  {
    var buckets: map<int, V> := map[];
    keys := [];
    for i := 0 to |samples|
      invariant keys == SortedBuckets(samples[..i], bucketOf)
      invariant forall b :: b in buckets <==> b in keys
      invariant forall b :: b in buckets ==> LastInBucket(samples[..i], bucketOf, b) == Some(buckets[b])
    {
      assert samples[..i + 1][..i] == samples[..i];
      var k := bucketOf(samples[i].ts);
      if k !in buckets {
        keys := InsertSorted(keys, k);
      }
      buckets := buckets[k := samples[i].value];
    }
    assert samples[..|samples|] == samples;
    series := seq(|keys|, j requires 0 <= j < |keys| => buckets[keys[j]]);
  }

  /** Taker notional of one trade-aggregate record; None is a NULL column. */
  datatype Flow = Flow(buy: Option<real>, sell: Option<real>)

  /** Summed taker notional of a bucket. */
  datatype Totals = Totals(buy: real, sell: real)

  /** `float(x or 0)` */
  function OrZero(x: Option<real>): real {
    if x.Some? then x.value else 0.0
  }

  /** The sums a bucket holds after the loop. */
  function SumInBucket(trades: seq<Sample<Flow>>, bucketOf: int -> int, k: int): (t: Totals)
    ensures (forall i :: 0 <= i < |trades| ==> OrZero(trades[i].value.sell) >= 0.0) ==> t.sell >= 0.0
    ensures (forall i :: 0 <= i < |trades| ==> OrZero(trades[i].value.buy) >= 0.0) ==> t.buy >= 0.0
    ensures LastInBucket(trades, bucketOf, k).None? ==> t == Totals(0.0, 0.0)
    decreases |trades|
  {
    if trades == [] then Totals(0.0, 0.0)
    else
      var n := |trades| - 1;
      assert forall i :: 0 <= i < n ==> trades[..n][i] == trades[i];
      var prior := SumInBucket(trades[..n], bucketOf, k);
      if bucketOf(trades[n].ts) == k then
        Totals(prior.buy + OrZero(trades[n].value.buy), prior.sell + OrZero(trades[n].value.sell))
      else prior
  }

  /** Splitting the records splits each bucket's sums: the sums do not depend on where the
      records are cut. */
  lemma {:induction false} SumInBucketAppend(a: seq<Sample<Flow>>, b: seq<Sample<Flow>>, bucketOf: int -> int, k: int)
    ensures SumInBucket(a + b, bucketOf, k).buy == SumInBucket(a, bucketOf, k).buy + SumInBucket(b, bucketOf, k).buy
    ensures SumInBucket(a + b, bucketOf, k).sell == SumInBucket(a, bucketOf, k).sell + SumInBucket(b, bucketOf, k).sell
    decreases |b|
  {
    if b == [] {
      assert a + b == a;
    } else {
      var n := |b| - 1;
      assert (a + b)[..|a + b| - 1] == a + b[..n];
      SumInBucketAppend(a, b[..n], bucketOf, k);
    }
  }

  /** The per-bucket sums in bucket order. */
  function SumSeries(trades: seq<Sample<Flow>>, bucketOf: int -> int): (series: seq<Totals>)
    ensures |series| == |SortedBuckets(trades, bucketOf)|
    ensures forall i :: 0 <= i < |series| ==> series[i] == SumInBucket(trades, bucketOf, SortedBuckets(trades, bucketOf)[i])
  {
    var keys := SortedBuckets(trades, bucketOf);
    seq(|keys|, i requires 0 <= i < |keys| => SumInBucket(trades, bucketOf, keys[i]))
  }

  /** A bucket's sums with one more record's flow added. */
  function AddFlow(t: Totals, f: Flow): Totals {
    Totals(t.buy + OrZero(f.buy), t.sell + OrZero(f.sell))
  }

  /** One more record adds its flow to its own bucket and leaves the others alone. */
  lemma SumStep(trades: seq<Sample<Flow>>, bucketOf: int -> int, i: nat, b: int)
    requires i < |trades|
    ensures SumInBucket(trades[..i + 1], bucketOf, b) ==
      if bucketOf(trades[i].ts) == b then AddFlow(SumInBucket(trades[..i], bucketOf, b), trades[i].value)
      else SumInBucket(trades[..i], bucketOf, b)
  {
    var next := trades[..i + 1];
    assert next[..i] == trades[..i];
    assert next[i] == trades[i];
  }

  /** One more record adds its bucket to the sorted keys when it is new. */
  lemma SortedStep<V>(samples: seq<Sample<V>>, bucketOf: int -> int, i: nat)
    requires i < |samples|
    ensures SortedBuckets(samples[..i + 1], bucketOf) ==
      if bucketOf(samples[i].ts) in SortedBuckets(samples[..i], bucketOf) then SortedBuckets(samples[..i], bucketOf)
      else InsertSorted(SortedBuckets(samples[..i], bucketOf), bucketOf(samples[i].ts))
  {
    var next := samples[..i + 1];
    assert next[..i] == samples[..i];
    assert next[i] == samples[i];
  }

  /** The bucketing loop of the CVD and taker histories: `+=` on buy and sell. */
  method BucketSums(trades: seq<Sample<Flow>>, bucketOf: int -> int) returns (keys: seq<int>, series: seq<Totals>)
    ensures keys == SortedBuckets(trades, bucketOf)
    ensures series == SumSeries(trades, bucketOf)
  {
    var buckets: map<int, Totals> := map[];
    keys := [];
    for i := 0 to |trades|
      invariant keys == SortedBuckets(trades[..i], bucketOf)
      invariant forall b :: b in buckets <==> b in keys
      invariant forall b :: b in buckets ==> buckets[b] == SumInBucket(trades[..i], bucketOf, b)
    {
      SortedStep(trades, bucketOf, i);
      ghost var before := buckets;
      var k := bucketOf(trades[i].ts);
      if k !in buckets {
        keys := InsertSorted(keys, k);
        buckets := buckets[k := Totals(0.0, 0.0)];
      }
      ghost var zeroed := buckets;
      assert zeroed[k] == SumInBucket(trades[..i], bucketOf, k);
      buckets := buckets[k := AddFlow(buckets[k], trades[i].value)];
      forall b | b in buckets
        ensures buckets[b] == SumInBucket(trades[..i + 1], bucketOf, b)
      {
        SumStep(trades, bucketOf, i, b);
        if b != k {
          assert b in before && buckets[b] == before[b];
        }
      }
    }
    assert trades[..|trades|] == trades;
    series := seq(|keys|, j requires 0 <= j < |keys| => buckets[keys[j]]);
  }

  // ---------------------------------------------------------------- per-metric series

  /** `float(oi) if oi else None` */
  function NonZero(x: Option<real>): (r: Option<real>)
    ensures r.Some? <==> x.Some? && x.value != 0.0
    ensures r.Some? ==> r == x
  {
    if x.Some? && x.value != 0.0 then x else None
  }

  /** Percentage change between consecutive buckets, kept only when both values are set and non-zero. */
  function OiDeltas(ois: seq<Option<real>>): (deltas: seq<real>)
    ensures |ois| <= 1 ==> deltas == []
    ensures |ois| >= 1 ==> |deltas| <= |ois| - 1
    decreases |ois|
  {
    if |ois| < 2 then []
    else
      var prev := NonZero(ois[|ois| - 2]);
      var curr := NonZero(ois[|ois| - 1]);
      OiDeltas(ois[..|ois| - 1]) + (if prev.Some? && curr.Some? then [(curr.value - prev.value) / prev.value * 100.0] else [])
  }

  /** With every bucket set and non-zero there is exactly one delta per consecutive pair. */
  lemma {:induction false} OiDeltasComplete(ois: seq<Option<real>>)
    requires |ois| >= 1
    requires forall i :: 0 <= i < |ois| ==> ois[i].Some? && ois[i].value != 0.0
    ensures |OiDeltas(ois)| == |ois| - 1
    ensures forall i :: 0 <= i < |ois| - 1 ==>
      OiDeltas(ois)[i] == (ois[i + 1].value - ois[i].value) / ois[i].value * 100.0
    decreases |ois|
  {
    if |ois| >= 2 {
      var prefix := ois[..|ois| - 1];
      assert forall i :: 0 <= i < |prefix| ==> prefix[i] == ois[i];
      OiDeltasComplete(prefix);
    }
  }

  /** One unset bucket drops both deltas it takes part in. */
  lemma {:induction false} OiDeltasSkipUnset(a: seq<Option<real>>, b: seq<Option<real>>)
    ensures OiDeltas(a + [None] + b) == OiDeltas(a + [None]) + OiDeltas([None] + b)
    decreases |b|
  {
    if b == [] {
      assert a + [None] + b == a + [None];
      assert OiDeltas([None] + b) == [];
    } else {
      var n := |b| - 1;
      var whole := a + [None] + b;
      assert whole[..|whole| - 1] == a + [None] + b[..n];
      assert ([None] + b)[..|b|] == [None] + b[..n];
      OiDeltasSkipUnset(a, b[..n]);
      assert whole[|whole| - 2] == ([None] + b)[|b| - 1];
      assert whole[|whole| - 1] == ([None] + b)[|b|];
    }
  }

  /** The delta loop of `_get_oi_delta_history`. */
  method OiDeltaValues(ois: seq<Option<real>>) returns (values: seq<real>)
    ensures values == OiDeltas(ois)
  {
    values := [];
    if |ois| < 2 {
      return;
    }
    for i := 1 to |ois|
      invariant values == OiDeltas(ois[..i])
    {
      assert ois[..i + 1][..i] == ois[..i];
      var prev := NonZero(ois[i - 1]);
      var curr := NonZero(ois[i]);
      if prev.Some? && curr.Some? {
        values := values + [(curr.value - prev.value) / prev.value * 100.0];
      }
    }
    assert ois[..|ois|] == ois;
  }

  /** `buy - sell` per bucket. */
  function CvdValues(totals: seq<Totals>): (values: seq<real>)
    ensures |values| == |totals|
    ensures forall i :: 0 <= i < |totals| ==> values[i] == totals[i].buy - totals[i].sell
  {
    seq(|totals|, i requires 0 <= i < |totals| => totals[i].buy - totals[i].sell)
  }

  /** Depth-5 sizes of one order-book snapshot; None is a NULL column. */
  datatype Level = Level(bid: Option<real>, ask: Option<real>)

  /** What a depth bucket holds. */
  datatype Depth = Depth(bid: real, ask: real)

  function DepthOf(l: Level): Depth {
    Depth(OrZero(l.bid), OrZero(l.ask))
  }

  /** `bid / ask` for the buckets with ask > 0. */
  function DepthRatios(depths: seq<Depth>): (values: seq<real>)
    ensures |values| <= |depths|
    ensures (forall i :: 0 <= i < |depths| ==> depths[i].ask > 0.0) ==> |values| == |depths|
    ensures (forall i :: 0 <= i < |depths| ==> depths[i].bid >= 0.0) ==> forall j :: 0 <= j < |values| ==> values[j] >= 0.0
    decreases |depths|
  {
    if depths == [] then []
    else
      var n := |depths| - 1;
      assert forall i :: 0 <= i < n ==> depths[..n][i] == depths[i];
      DepthRatios(depths[..n]) + (if depths[n].ask > 0.0 then [depths[n].bid / depths[n].ask] else [])
  }

  method DepthRatioValues(depths: seq<Depth>) returns (values: seq<real>)
    ensures values == DepthRatios(depths)
  {
    values := [];
    for i := 0 to |depths|
      invariant values == DepthRatios(depths[..i])
    {
      assert depths[..i + 1][..i] == depths[..i];
      if depths[i].ask > 0.0 {
        values := values + [depths[i].bid / depths[i].ask];
      }
    }
    assert depths[..|depths|] == depths;
  }

  /** (b - a) / (b + a) lies in [-1, 1] when both are non-negative and the total is positive. */
  lemma ImbalanceInRange(b: real, a: real)
    requires b >= 0.0 && a >= 0.0 && b + a > 0.0
    ensures -1.0 <= (b - a) / (b + a) <= 1.0
  {
    var t := b + a;
    var x := (b - a) / t;
    assert x * t == b - a;
  }

  /** `(bid - ask) / (bid + ask)` for the buckets with a positive total. */
  function Imbalances(depths: seq<Depth>): (values: seq<real>)
    ensures |values| <= |depths|
    ensures (forall i :: 0 <= i < |depths| ==> depths[i].bid >= 0.0 && depths[i].ask >= 0.0) ==>
      forall j :: 0 <= j < |values| ==> -1.0 <= values[j] <= 1.0
    decreases |depths|
  {
    if depths == [] then []
    else
      var n := |depths| - 1;
      assert forall i :: 0 <= i < n ==> depths[..n][i] == depths[i];
      var d := depths[n];
      var rest := Imbalances(depths[..n]);
      if d.bid + d.ask > 0.0 then
        (if d.bid >= 0.0 && d.ask >= 0.0 then ImbalanceInRange(d.bid, d.ask); rest + [(d.bid - d.ask) / (d.bid + d.ask)]
         else rest + [(d.bid - d.ask) / (d.bid + d.ask)])
      else rest
  }

  method ImbalanceValues(depths: seq<Depth>) returns (values: seq<real>)
    ensures values == Imbalances(depths)
  {
    values := [];
    for i := 0 to |depths|
      invariant values == Imbalances(depths[..i])
    {
      assert depths[..i + 1][..i] == depths[..i];
      var total := depths[i].bid + depths[i].ask;
      if total > 0.0 {
        values := values + [(depths[i].bid - depths[i].ask) / total];
      }
    }
    assert depths[..|depths|] == depths;
  }

  /** `buy / sell` for the buckets with sell > 0. */
  function BuySellRatios(totals: seq<Totals>): (values: seq<real>)
    ensures |values| <= |totals|
    ensures (forall i :: 0 <= i < |totals| ==> totals[i].buy >= 0.0) ==> forall j :: 0 <= j < |values| ==> values[j] >= 0.0
    decreases |totals|
  {
    if totals == [] then []
    else
      var n := |totals| - 1;
      assert forall i :: 0 <= i < n ==> totals[..n][i] == totals[i];
      BuySellRatios(totals[..n]) + (if totals[n].sell > 0.0 then [totals[n].buy / totals[n].sell] else [])
  }

  method BuySellRatioValues(totals: seq<Totals>) returns (values: seq<real>)
    ensures values == BuySellRatios(totals)
  {
    values := [];
    for i := 0 to |totals|
      invariant values == BuySellRatios(totals[..i])
    {
      assert totals[..i + 1][..i] == totals[..i];
      if totals[i].sell > 0.0 {
        values := values + [totals[i].buy / totals[i].sell];
      }
    }
    assert totals[..|totals|] == totals;
  }

  // ---------------------------------------------------------------- histories

  /** One asset-metrics row. */
  datatype AssetRow = AssetRow(ts: int, openInterest: Option<real>, fundingRate: Option<real>)

  /** The three tables the histories read, already restricted to the symbol and the window. */
  datatype FlowTables = FlowTables(assetMetrics: seq<AssetRow>, trades: seq<Sample<Flow>>, orderbooks: seq<Sample<Level>>)

  /** The sorted bucket times and the metric's values. */
  datatype History = History(bucketTimes: seq<int>, values: seq<real>)

  function MapValues<A, B>(samples: seq<Sample<A>>, f: A -> B): (r: seq<Sample<B>>)
    ensures |r| == |samples|
    ensures forall i :: 0 <= i < |r| ==> r[i] == Sample(samples[i].ts, f(samples[i].value))
  {
    seq(|samples|, i requires 0 <= i < |samples| => Sample(samples[i].ts, f(samples[i].value)))
  }

  /** The OI-delta query reads every row; a zero or NULL open interest is stored as None. */
  function OiDeltaSamples(rows: seq<AssetRow>): (r: seq<Sample<Option<real>>>)
    ensures |r| == |rows|
    ensures forall i :: 0 <= i < |r| ==> r[i] == Sample(rows[i].ts, NonZero(rows[i].openInterest))
  {
    seq(|rows|, i requires 0 <= i < |rows| => Sample(rows[i].ts, NonZero(rows[i].openInterest)))
  }

  /** The funding query skips NULL rates; the value is stored as a percentage. */
  function FundingSamples(rows: seq<AssetRow>): (r: seq<Sample<real>>)
    ensures |r| <= |rows|
    decreases |rows|
  {
    if rows == [] then []
    else
      var n := |rows| - 1;
      FundingSamples(rows[..n]) + (if rows[n].fundingRate.Some? then [Sample(rows[n].ts, rows[n].fundingRate.value * 100.0)] else [])
  }

  /** The absolute-OI query skips NULL values. */
  function OiSamples(rows: seq<AssetRow>): (r: seq<Sample<real>>)
    ensures |r| <= |rows|
    decreases |rows|
  {
    if rows == [] then []
    else
      var n := |rows| - 1;
      OiSamples(rows[..n]) + (if rows[n].openInterest.Some? then [Sample(rows[n].ts, rows[n].openInterest.value)] else [])
  }

  predicate IsHistoryMetric(metric: string) {
    metric in ["oi_delta", "cvd", "depth_ratio", "order_imbalance", "taker_ratio", "funding", "oi"]
  }

  /** What `_get_metric_history` computes for a supported metric. */
  function MetricHistorySpec(metric: string, tables: FlowTables, bucketOf: int -> int): (h: History)
    requires IsHistoryMetric(metric)
    ensures Increasing(h.bucketTimes)
    ensures metric in ["cvd", "funding", "oi"] ==> |h.values| == |h.bucketTimes|
    ensures metric !in ["cvd", "funding", "oi"] ==> |h.values| <= |h.bucketTimes|
  {
    if metric == "oi_delta" then
      var s := OiDeltaSamples(tables.assetMetrics);
      History(SortedBuckets(s, bucketOf), OiDeltas(LastSeries(s, bucketOf)))
    else if metric == "cvd" then
      History(SortedBuckets(tables.trades, bucketOf), CvdValues(SumSeries(tables.trades, bucketOf)))
    else if metric == "depth_ratio" then
      var s := MapValues(tables.orderbooks, DepthOf);
      History(SortedBuckets(s, bucketOf), DepthRatios(LastSeries(s, bucketOf)))
    else if metric == "order_imbalance" then
      var s := MapValues(tables.orderbooks, DepthOf);
      History(SortedBuckets(s, bucketOf), Imbalances(LastSeries(s, bucketOf)))
    else if metric == "taker_ratio" then
      History(SortedBuckets(tables.trades, bucketOf), BuySellRatios(SumSeries(tables.trades, bucketOf)))
    else if metric == "funding" then
      var s := FundingSamples(tables.assetMetrics);
      History(SortedBuckets(s, bucketOf), LastSeries(s, bucketOf))
    else
      var s := OiSamples(tables.assetMetrics);
      History(SortedBuckets(s, bucketOf), LastSeries(s, bucketOf))
  }

  /** The history query and loops of one metric (`_get_oi_delta_history` … `_get_oi_history`). */
  method MetricHistory(metric: string, tables: FlowTables, bucketOf: int -> int) returns (h: History)
    requires IsHistoryMetric(metric)
    ensures h == MetricHistorySpec(metric, tables, bucketOf)
  {
    if metric == "oi_delta" {
      var keys, ois := BucketLast(OiDeltaSamples(tables.assetMetrics), bucketOf);
      var values := OiDeltaValues(ois);
      h := History(keys, values);
    } else if metric == "cvd" {
      var keys, totals := BucketSums(tables.trades, bucketOf);
      h := History(keys, CvdValues(totals));
    } else if metric == "depth_ratio" {
      var keys, depths := BucketLast(MapValues(tables.orderbooks, DepthOf), bucketOf);
      var values := DepthRatioValues(depths);
      h := History(keys, values);
    } else if metric == "order_imbalance" {
      var keys, depths := BucketLast(MapValues(tables.orderbooks, DepthOf), bucketOf);
      var values := ImbalanceValues(depths);
      h := History(keys, values);
    } else if metric == "taker_ratio" {
      var keys, totals := BucketSums(tables.trades, bucketOf);
      var values := BuySellRatioValues(totals);
      h := History(keys, values);
    } else if metric == "funding" {
      var keys, values := BucketLast(FundingSamples(tables.assetMetrics), bucketOf);
      h := History(keys, values);
    } else {
      var keys, values := BucketLast(OiSamples(tables.assetMetrics), bucketOf);
      h := History(keys, values);
    }
  }

  /** Milliseconds as hours. */
  function MsToHours(ms: int): (hours: real)
    ensures hours * 3600000.0 == ms as real
    ensures ms >= 0 ==> hours >= 0.0
  {
    ms as real / 3600000.0
  }

  /** `(max_ts - min_ts) / 3_600_000` when both ends are truthy (set and non-zero), else 0. */
  function TimeRangeHours(bucketTimes: seq<int>): (hours: real)
    ensures bucketTimes == [] ==> hours == 0.0
    ensures Increasing(bucketTimes) ==> hours >= 0.0
    ensures (|bucketTimes| > 0 && bucketTimes[0] != 0 && bucketTimes[|bucketTimes| - 1] != 0) ==>
      hours * 3600000.0 == (bucketTimes[|bucketTimes| - 1] - bucketTimes[0]) as real
    ensures |bucketTimes| > 0 && (bucketTimes[0] == 0 || bucketTimes[|bucketTimes| - 1] == 0) ==> hours == 0.0
  {
    if |bucketTimes| > 0 && bucketTimes[0] != 0 && bucketTimes[|bucketTimes| - 1] != 0 then
      MsToHours(bucketTimes[|bucketTimes| - 1] - bucketTimes[0])
    else 0.0
  }

  // ---------------------------------------------------------------- analysis

  /** The absolute-value percentiles of `_calculate_statistics`. */
  datatype Percentiles = Percentiles(p75: real, p90: real, p95: real, p99: real)

  /** Thresholds by trigger rate; `moderate` is the recommended one. */
  datatype Suggestions = Suggestions(aggressive: real, moderate: real, conservative: real)

  function Abs(x: real): real {
    if x < 0.0 then -x else x
  }

  function AbsValues(values: seq<real>): (r: seq<real>)
    ensures |r| == |values|
    ensures forall i :: 0 <= i < |r| ==> r[i] >= 0.0 && (r[i] == values[i] || r[i] == -values[i])
  {
    seq(|values|, i requires 0 <= i < |values| => Abs(values[i]))
  }

  /** `percentile(values, q)` stands for numpy's percentile. */
  function AbsPercentiles(values: seq<real>, percentile: (seq<real>, real) -> real): Percentiles {
    var a := AbsValues(values);
    Percentiles(percentile(a, 75.0), percentile(a, 90.0), percentile(a, 95.0), percentile(a, 99.0))
  }

  /** `_generate_suggestions`: p75, p90 and p95 of the absolute values. */
  function GenerateSuggestions(p: Percentiles): (s: Suggestions)
    ensures s.aggressive == p.p75 && s.moderate == p.p90 && s.conservative == p.p95
  {
    Suggestions(p.p75, p.p90, p.p95)
  }

  /** For a percentile that grows with q the suggestions go from aggressive to conservative
      and none is negative when the percentile stays within the values. */
  lemma SuggestionsOrdered(values: seq<real>, percentile: (seq<real>, real) -> real)
    requires forall q1: real, q2: real :: q1 <= q2 ==> percentile(AbsValues(values), q1) <= percentile(AbsValues(values), q2)
    ensures var s := GenerateSuggestions(AbsPercentiles(values, percentile));
      s.aggressive <= s.moderate <= s.conservative
  {
    var a := AbsValues(values);
    assert percentile(a, 75.0) <= percentile(a, 90.0);
    assert percentile(a, 90.0) <= percentile(a, 95.0);
  }

  datatype Analysis =
    | InsufficientData(message: string, sampleCount: nat)
    | Analyzed(metric: string, period: string, sampleCount: nat, timeRangeHours: real, precision: nat,
               absPercentiles: Percentiles, suggestions: Suggestions, warning: Option<string>)
    | TakerVolume(taker: TakerAnalysis)
    | Failed(message: string)

  /** The bucket of a timestamp for an interval. */
  function BucketFn(floorTimestamp: (int, int) -> int, intervalMs: nat): int -> int {
    ts => floorTimestamp(ts, intervalMs)
  }

  /** The gates and the result of `analyze_metric` for a metric with a history. */
  function MetricAnalysis(metric: string, period: string, h: History, percentile: (seq<real>, real) -> real): (r: Analysis)
    ensures |h.values| < MIN_SAMPLES <==> r.InsufficientData?
    ensures r.InsufficientData? ==> r.sampleCount == |h.values|
    ensures r.Analyzed? ==> r.sampleCount == |h.values| && r.metric == metric && r.period == period
    ensures r.Analyzed? ==> (r.precision == 6 <==> metric == "funding") && (r.precision == 4 <==> metric != "funding")
    ensures r.Analyzed? ==> (r.warning.Some? <==> |h.values| < LIMITED_DATA_THRESHOLD)
    ensures r.Analyzed? ==> r.absPercentiles == AbsPercentiles(h.values, percentile)
    ensures r.Analyzed? ==> r.suggestions == GenerateSuggestions(r.absPercentiles)
    ensures r.Analyzed? ==> r.timeRangeHours == TimeRangeHours(h.bucketTimes)
  {
    var n := |h.values|;
    if n < MIN_SAMPLES then
      InsufficientData("Need at least 3 samples, found " + Text.NatToString(n), n)
    else
      var precision := if metric == "funding" then 6 else 4;
      var stats := AbsPercentiles(h.values, percentile);
      var warning := if n < LIMITED_DATA_THRESHOLD
        then Some("Limited data (" + Text.NatToString(n) + " samples). Statistics may not be representative.")
        else None;
      Analyzed(metric, period, n, TimeRangeHours(h.bucketTimes), precision, stats, GenerateSuggestions(stats), warning)
  }

  /** `analyze_metric`. `timeframeMs` stands for TIMEFRAME_MS and `floorTimestamp` for
      `floor_timestamp`; raised errors come back as `Failed`. */
  method AnalyzeMetric(metric: string, period: string, timeframeMs: map<string, nat>, floorTimestamp: (int, int) -> int,
                       tables: FlowTables, percentile: (seq<real>, real) -> real) returns (r: Analysis)
    ensures period !in timeframeMs ==> r == Failed("Unsupported period: " + period)
    ensures period in timeframeMs && !IsHistoryMetric(MetricAlias(metric)) && MetricAlias(metric) != "taker_volume" ==>
      r == Failed("Unsupported metric: " + MetricAlias(metric))
    ensures period in timeframeMs && MetricAlias(metric) == "taker_volume" ==>
      r == TakerVolume(TakerVolumeAnalysis(tables.trades, timeframeMs[period], BucketFn(floorTimestamp, timeframeMs[period]), percentile))
    ensures period in timeframeMs && IsHistoryMetric(MetricAlias(metric)) ==>
      var bucketOf := BucketFn(floorTimestamp, timeframeMs[period]);
      r == MetricAnalysis(MetricAlias(metric), period, MetricHistorySpec(MetricAlias(metric), tables, bucketOf), percentile)
  {
    if period !in timeframeMs {
      return Failed("Unsupported period: " + period);
    }
    r := AnalyzeForInterval(MetricAlias(metric), period, timeframeMs[period], BucketFn(floorTimestamp, timeframeMs[period]),
                            tables, percentile);
  }

  /** The dispatch on the (aliased) metric once the period is known. */
  method AnalyzeForInterval(m: string, period: string, intervalMs: nat, bucketOf: int -> int,
                            tables: FlowTables, percentile: (seq<real>, real) -> real) returns (r: Analysis)
    ensures m == "taker_volume" ==> r == TakerVolume(TakerVolumeAnalysis(tables.trades, intervalMs, bucketOf, percentile))
    ensures m != "taker_volume" && !IsHistoryMetric(m) ==> r == Failed("Unsupported metric: " + m)
    ensures IsHistoryMetric(m) ==> r == MetricAnalysis(m, period, MetricHistorySpec(m, tables, bucketOf), percentile)
  {
    if m == "taker_volume" {
      var t := AnalyzeTakerVolume(tables.trades, intervalMs, bucketOf, percentile);
      return TakerVolume(t);
    }
    if !IsHistoryMetric(m) {
      return Failed("Unsupported metric: " + m);
    }
    var h := MetricHistory(m, tables, bucketOf);
    r := MetricAnalysis(m, period, h, percentile);
  }

  // ---------------------------------------------------------------- taker volume

  /** Volume bands of the taker-volume suggestions. */
  datatype VolumeBands = VolumeBands(low: real, medium: real, high: real)

  datatype TakerAnalysis =
    | TakerInsufficient(message: string)
    | TakerAnalyzed(period: string, sampleCount: nat, timeRangeHours: real, ratio: Suggestions, volume: VolumeBands)

  /** A bucket counts when both the total and the sell side are positive. */
  predicate ValidTakerBucket(t: Totals) {
    t.buy + t.sell > 0.0 && t.sell > 0.0
  }

  /** `buy / sell` of the valid buckets. */
  function TakerRatios(totals: seq<Totals>): (ratios: seq<real>)
    ensures |ratios| <= |totals|
    decreases |totals|
  {
    if totals == [] then []
    else
      var n := |totals| - 1;
      TakerRatios(totals[..n]) + (if ValidTakerBucket(totals[n]) then [totals[n].buy / totals[n].sell] else [])
  }

  /** `buy + sell` of the valid buckets. */
  function TakerVolumes(totals: seq<Totals>): (volumes: seq<real>)
    ensures |volumes| <= |totals|
    ensures forall i :: 0 <= i < |volumes| ==> volumes[i] > 0.0
    decreases |totals|
  {
    if totals == [] then []
    else
      var n := |totals| - 1;
      TakerVolumes(totals[..n]) + (if ValidTakerBucket(totals[n]) then [totals[n].buy + totals[n].sell] else [])
  }

  /** A ratio and a volume are emitted together, so the two lists have the same length. */
  lemma {:induction false} TakerListsAligned(totals: seq<Totals>)
    ensures |TakerRatios(totals)| == |TakerVolumes(totals)|
    decreases |totals|
  {
    if totals != [] {
      TakerListsAligned(totals[..|totals| - 1]);
    }
  }

  /** The ratio/volume loop of `_analyze_taker_volume`. */
  method TakerPairs(totals: seq<Totals>) returns (ratios: seq<real>, volumes: seq<real>)
    ensures ratios == TakerRatios(totals) && volumes == TakerVolumes(totals)
  {
    ratios, volumes := [], [];
    for i := 0 to |totals|
      invariant ratios == TakerRatios(totals[..i])
      invariant volumes == TakerVolumes(totals[..i])
    {
      assert totals[..i + 1][..i] == totals[..i];
      var buy := totals[i].buy;
      var sell := totals[i].sell;
      var total := buy + sell;
      if total > 0.0 && sell > 0.0 {
        ratios := ratios + [buy / sell];
        volumes := volumes + [total];
      }
    }
    assert totals[..|totals|] == totals;
  }

  /** The gates and statistics of `_analyze_taker_volume` once the buckets are known. */
  function TakerVolumeOfBuckets(keys: seq<int>, totals: seq<Totals>, intervalMs: nat,
                                percentile: (seq<real>, real) -> real): (r: TakerAnalysis)
    ensures |keys| < MIN_SAMPLES ==> r == TakerInsufficient("Need at least 3 samples, found " + Text.NatToString(|keys|))
    ensures r.TakerAnalyzed? <==> |keys| >= MIN_SAMPLES && |TakerRatios(totals)| >= MIN_SAMPLES
    ensures r.TakerAnalyzed? ==>
      && r.period == Text.NatToString(intervalMs / 60000) + "m"
      && r.sampleCount == |TakerRatios(totals)| == |TakerVolumes(totals)|
      && r.timeRangeHours == MsToHours(keys[|keys| - 1] - keys[0])
      && (Increasing(keys) ==> r.timeRangeHours >= 0.0)
      && r.ratio == Suggestions(percentile(TakerRatios(totals), 75.0), percentile(TakerRatios(totals), 90.0),
                                percentile(TakerRatios(totals), 95.0))
      && r.volume == VolumeBands(percentile(TakerVolumes(totals), 25.0), percentile(TakerVolumes(totals), 50.0),
                                 percentile(TakerVolumes(totals), 75.0))
  {
    if |keys| < MIN_SAMPLES then TakerInsufficient("Need at least 3 samples, found " + Text.NatToString(|keys|))
    else
      var ratios := TakerRatios(totals);
      var volumes := TakerVolumes(totals);
      TakerListsAligned(totals);
      if |ratios| < MIN_SAMPLES then TakerInsufficient("Need at least 3 valid samples")
      else
        TakerAnalyzed(Text.NatToString(intervalMs / 60000) + "m", |ratios|, MsToHours(keys[|keys| - 1] - keys[0]),
                      Suggestions(percentile(ratios, 75.0), percentile(ratios, 90.0), percentile(ratios, 95.0)),
                      VolumeBands(percentile(volumes, 25.0), percentile(volumes, 50.0), percentile(volumes, 75.0)))
  }

  /** What `_analyze_taker_volume` returns for the given trade records. */
  function TakerVolumeAnalysis(trades: seq<Sample<Flow>>, intervalMs: nat, bucketOf: int -> int,
                               percentile: (seq<real>, real) -> real): (r: TakerAnalysis)
    ensures trades == [] ==> r == TakerInsufficient("No data available")
    ensures r.TakerAnalyzed? ==> r.sampleCount >= MIN_SAMPLES && r.timeRangeHours >= 0.0
  {
    if trades == [] then TakerInsufficient("No data available")
    else TakerVolumeOfBuckets(SortedBuckets(trades, bucketOf), SumSeries(trades, bucketOf), intervalMs, percentile)
  }

  /** `_analyze_taker_volume` without the rounding and the mean/min/max statistics. */
  method AnalyzeTakerVolume(trades: seq<Sample<Flow>>, intervalMs: nat, bucketOf: int -> int,
                            percentile: (seq<real>, real) -> real) returns (r: TakerAnalysis)
    ensures r == TakerVolumeAnalysis(trades, intervalMs, bucketOf, percentile)
  {
    if trades == [] {
      return TakerInsufficient("No data available");
    }
    var keys, totals := BucketSums(trades, bucketOf);
    r := TakerGates(keys, totals, intervalMs, percentile);
  }

  /** The sample gates and the statistics after the bucketing loop. */
  method TakerGates(keys: seq<int>, totals: seq<Totals>, intervalMs: nat, percentile: (seq<real>, real) -> real)
    returns (r: TakerAnalysis)
    ensures r == TakerVolumeOfBuckets(keys, totals, intervalMs, percentile)
  {
    if |keys| < MIN_SAMPLES {
      return TakerInsufficient("Need at least 3 samples, found " + Text.NatToString(|keys|));
    }
    var ratios, volumes := TakerPairs(totals);
    if |ratios| < MIN_SAMPLES {
      return TakerInsufficient("Need at least 3 valid samples");
    }
    var hours := MsToHours(keys[|keys| - 1] - keys[0]);
    r := TakerAnalyzed(Text.NatToString(intervalMs / 60000) + "m", |ratios|, hours,
                       Suggestions(percentile(ratios, 75.0), percentile(ratios, 90.0), percentile(ratios, 95.0)),
                       VolumeBands(percentile(volumes, 25.0), percentile(volumes, 50.0), percentile(volumes, 75.0)));
  }
}
