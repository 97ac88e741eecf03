/** The market-regime routes: the batch classification endpoint, listing the stored
    configurations and partially updating one of them. */
module MarketRegimeRoutes {
  import opened Wrappers
  import opened Seqs
  import opened Text
  import opened RegimeConfigs
  import MarketRegime

  // ---------------------------------------------------------------------------
  // The configuration response: `stored or default`
  // ---------------------------------------------------------------------------

  /** The default the response falls back to for each column. */
  function ResponseDefault(f: Field): (d: real)
    ensures d != 0.0
  {
    match f
    case RollingWindow => 48.0
    case BreakoutCvdZ => 1.5
    case BreakoutOiZ => 1.0
    case BreakoutPriceAtr => 0.5
    case BreakoutTakerHigh => 1.8
    case BreakoutTakerLow => 0.55
    case AbsorptionCvdZ => 1.5
    case AbsorptionPriceAtr => 0.3
    case TrapCvdZ => 1.0
    case TrapOiZ => -1.0
    case ExhaustionCvdZ => 1.0
    case ExhaustionRsiHigh => 70.0
    case ExhaustionRsiLow => 30.0
    case StopHuntRangeAtr => 1.0
    case StopHuntCloseAtr => 0.3
    case NoiseCvdZ => 0.5
  }

  /** Python's `value or default`: NULL and 0 are both falsy. */
  function Reported(row: ConfigRow, f: Field): real {
    if f in row.values && row.values[f] != 0.0 then row.values[f] else ResponseDefault(f)
  }

  datatype ConfigResponse = ConfigResponse(id: int, name: string, isDefault: bool, values: map<Field, real>)

  /** The `RegimeConfigResponse` built from a row. */
  function ResponseOf(row: ConfigRow): (r: ConfigResponse)
    ensures r.id == row.id && r.name == row.name
    ensures r.isDefault <==> IsDefaultRow(row)
    ensures forall f :: f in r.values && r.values[f] != 0.0
  {
    forall f ensures f in ALL_FIELDS { AllFieldsListed(f); }
    ConfigResponse(row.id, row.name, row.isDefault == Some(true),
      map f | f in ALL_FIELDS :: Reported(row, f))
  }

  /** A stored value reaches the response exactly when it is non-NULL and non-zero;
      otherwise the response shows the default. */
  lemma ReportedIsStoredOrDefault(row: ConfigRow, f: Field)
    ensures Value(row, f).Some? && Value(row, f).value != 0.0 ==> ResponseOf(row).values[f] == row.values[f]
    ensures Value(row, f).None? || Value(row, f).value == 0.0 ==> ResponseOf(row).values[f] == ResponseDefault(f)
  {
  }

  /** A stored `trap_oi_z` of 0 is reported as -1.0. */
  lemma StoredZeroTrapOiReportedAsDefault(row: ConfigRow)
    requires Value(row, TrapOiZ) == Some(0.0)
    ensures ResponseOf(row).values[TrapOiZ] == -1.0
  {
  }

  /** The row a response would be if written back. */
  function RowOf(r: ConfigResponse): ConfigRow {
    ConfigRow(r.id, r.name, Some(r.isDefault), r.values)
  }

  /** Writing a response back and reading it again gives the same response: every
      reported value is non-zero, so no further default is substituted. */
  lemma ResponseStable(row: ConfigRow)
    ensures ResponseOf(RowOf(ResponseOf(row))) == ResponseOf(row)
  {
    var r := ResponseOf(row);
    var r2 := ResponseOf(RowOf(r));
    forall f | true
      ensures f in r2.values && f in r.values && r2.values[f] == r.values[f]
    {
      AllFieldsListed(f);
    }
    assert r2.values == r.values;
  }

  /** `list_regime_configs`: one response per row, in table order. */
  function ListRegimeConfigs(rows: seq<ConfigRow>): (r: seq<ConfigResponse>)
    ensures |r| == |rows|
    ensures forall k :: 0 <= k < |rows| ==> r[k] == ResponseOf(rows[k])
  {
    seq(|rows|, k requires 0 <= k < |rows| => ResponseOf(rows[k]))
  }

  // ---------------------------------------------------------------------------
  // Partial update
  // ---------------------------------------------------------------------------

  /** The fields the request set (`exclude_unset=True`) to a non-None value. */
  predicate Writes(update: map<Field, Option<real>>, f: Field) {
    f in update && update[f].Some?
  }

  /** The columns after the `setattr` loop has visited the fields `fs`. */
  function PatchValues(values: map<Field, real>, update: map<Field, Option<real>>, fs: seq<Field>): (r: map<Field, real>)
    ensures forall f :: f in fs && Writes(update, f) ==> f in r && r[f] == update[f].value
    ensures forall f :: !(f in fs && Writes(update, f)) ==> (f in r <==> f in values)
    ensures forall f :: !(f in fs && Writes(update, f)) && f in values ==> r[f] == values[f]
    decreases |fs|
  {
    if fs == [] then values
    else
      var init := fs[..|fs|-1];
      var f := fs[|fs|-1];
      assert forall g :: g in fs <==> g in init || g == f;
      var v := PatchValues(values, update, init);
      if Writes(update, f) then v[f := update[f].value] else v
  }

  /** The row after the update: every written field takes the requested value, every
      other column (and the id, name and default flag) is unchanged. */
  function Patched(row: ConfigRow, update: map<Field, Option<real>>): ConfigRow {
    row.(values := PatchValues(row.values, update, ALL_FIELDS))
  }

  lemma PatchedFields(row: ConfigRow, update: map<Field, Option<real>>, f: Field)
    ensures Patched(row, update).id == row.id && Patched(row, update).name == row.name
    ensures Patched(row, update).isDefault == row.isDefault
    ensures Writes(update, f) ==> Value(Patched(row, update), f) == update[f]
    ensures !Writes(update, f) ==> Value(Patched(row, update), f) == Value(row, f)
  {
    AllFieldsListed(f);
  }

  /** Sending the same update twice leaves the row as the first time. */
  lemma PatchedIdempotent(row: ConfigRow, update: map<Field, Option<real>>)
    ensures Patched(Patched(row, update), update) == Patched(row, update)
  {
    var once := Patched(row, update);
    var twice := Patched(once, update);
    forall f | true
      ensures Value(twice, f) == Value(once, f)
    {
      PatchedFields(row, update, f);
      PatchedFields(once, update, f);
    }
    assert forall f :: f in twice.values <==> Value(twice, f).Some?;
    assert twice.values == once.values;
  }

  /** Writing 0 is stored, but the response still shows the default. */
  lemma ZeroWriteReportsDefault(row: ConfigRow, update: map<Field, Option<real>>, f: Field)
    requires f in update && update[f] == Some(0.0)
    ensures Value(Patched(row, update), f) == Some(0.0)
    ensures ResponseOf(Patched(row, update)).values[f] == ResponseDefault(f)
  {
    PatchedFields(row, update, f);
  }

  /** The `setattr` loop over the fields `fs`: each written field takes its new value. */
  method SetFields(row: ConfigRow, update: map<Field, Option<real>>, fs: seq<Field>) returns (r: ConfigRow)
    ensures r == row.(values := PatchValues(row.values, update, fs))
  {
    r := row;
    for k := 0 to |fs|
      invariant r == row.(values := PatchValues(row.values, update, fs[..k]))
    {
      assert fs[..k+1][..k] == fs[..k];
      var f := fs[k];
      if f in update && update[f].Some? {
        r := r.(values := r.values[f := update[f].value]);
      }
    }
    assert fs[..|fs|] == fs;
  }

  /** `update_regime_config`: 404 without a write for an unknown id; otherwise only the
      written fields change, and the response is the mapping of the updated row. */
  method UpdateRegimeConfig(table: ConfigTable, configId: int, update: map<Field, Option<real>>)
    returns (r: Result<ConfigResponse, HttpError>)
    modifies table
    ensures FindConfig(old(table.rows), configId).None? ==>
      r == Err(HttpError(404, "Config " + IntToString(configId) + " not found")) && table.rows == old(table.rows)
    ensures FindConfig(old(table.rows), configId).Some? ==>
      var i := FindConfig(old(table.rows), configId).value;
      table.rows == old(table.rows)[i := Patched(old(table.rows)[i], update)] && r == Ok(ResponseOf(table.rows[i]))
    ensures table.created == old(table.created) && table.nextId == old(table.nextId)
  {
    var found := FindConfig(table.rows, configId);
    if found.None? {
      return Err(HttpError(404, "Config " + IntToString(configId) + " not found"));
    }
    var i := found.value;
    var row := SetFields(table.rows[i], update, ALL_FIELDS);
    table.rows := table.rows[i := row];
    r := Ok(ResponseOf(row));
  }

  // ---------------------------------------------------------------------------
  // Batch classification
  // ---------------------------------------------------------------------------

  datatype RegimeResponse = RegimeResponse(
    symbol: string, regime: MarketRegime.Regime, direction: MarketRegime.Direction,
    confidence: real, reason: string, indicators: MarketRegime.ReportedIndicators)

  datatype BatchError = BatchError(symbol: string, error: string)

  datatype BatchResponse = BatchResponse(results: seq<RegimeResponse>, errors: seq<BatchError>)

  /** The service's answer per symbol: `Err(text)` when it raises. */
  type RegimeService = string -> Result<MarketRegime.RegimeReport, string>

  /** One symbol inside the `try`: an exception, or a result without indicators (which
      fails to validate as `RegimeIndicators`, message `validationError`), is an error. */
  function SymbolOutcome(symbol: string, service: RegimeService, validationError: string): Result<RegimeResponse, string> {
    match service(symbol)
    case Err(e) => Err(e)
    case Ok(rep) =>
      if rep.indicators.None? then Err(validationError)
      else Ok(RegimeResponse(symbol, rep.regime, rep.direction, rep.confidence, rep.reason, rep.indicators.value))
  }

  function Succeeds(service: RegimeService, validationError: string): string -> bool {
    s => SymbolOutcome(s, service, validationError).Ok?
  }

  function Fails(service: RegimeService, validationError: string): string -> bool {
    s => SymbolOutcome(s, service, validationError).Err?
  }

  /** The symbols of the results and of the errors, in order. The two answer records of the
      batch route are different types, so each list has its own projection. */
  function ResultSymbols(rs: seq<RegimeResponse>): (r: seq<string>)
    ensures |r| == |rs| && forall k :: 0 <= k < |rs| ==> r[k] == rs[k].symbol
  {
    seq(|rs|, k requires 0 <= k < |rs| => rs[k].symbol)
  }

  function ErrorSymbols(es: seq<BatchError>): (r: seq<string>)
    ensures |r| == |es| && forall k :: 0 <= k < |es| ==> r[k] == es[k].symbol
  {
    seq(|es|, k requires 0 <= k < |es| => es[k].symbol)
  }

  lemma ResultSymbolsAppend(rs: seq<RegimeResponse>, x: RegimeResponse)
    ensures ResultSymbols(rs + [x]) == ResultSymbols(rs) + [x.symbol]
  {
    var a := ResultSymbols(rs + [x]);
    var b := ResultSymbols(rs) + [x.symbol];
    assert |a| == |b|;
    forall k | 0 <= k < |a| ensures a[k] == b[k] {
      if k < |rs| {
        assert (rs + [x])[k] == rs[k];
      }
    }
  }

  lemma ErrorSymbolsAppend(es: seq<BatchError>, x: BatchError)
    ensures ErrorSymbols(es + [x]) == ErrorSymbols(es) + [x.symbol]
  {
    var a := ErrorSymbols(es + [x]);
    var b := ErrorSymbols(es) + [x.symbol];
    assert |a| == |b|;
    forall k | 0 <= k < |a| ensures a[k] == b[k] {
      if k < |es| {
        assert (es + [x])[k] == es[k];
      }
    }
  }

  /** The batch response for a list of symbols, one symbol at a time. */
  function Batch(symbols: seq<string>, service: RegimeService, validationError: string): (r: BatchResponse)
    ensures |r.results| + |r.errors| == |symbols|
    ensures forall k :: 0 <= k < |r.results| ==>
      SymbolOutcome(r.results[k].symbol, service, validationError) == Ok(r.results[k])
    ensures forall k :: 0 <= k < |r.errors| ==>
      SymbolOutcome(r.errors[k].symbol, service, validationError) == Err(r.errors[k].error)
    decreases |symbols|
  {
    if symbols == [] then BatchResponse([], [])
    else
      var init := Batch(symbols[..|symbols|-1], service, validationError);
      var s := symbols[|symbols|-1];
      match SymbolOutcome(s, service, validationError)
      case Ok(resp) => init.(results := init.results + [resp])
      case Err(e) => init.(errors := init.errors + [BatchError(s, e)])
  }

  /** The results are the symbols that succeed, in input order. */
  lemma {:induction false} BatchResultsFollowInput(symbols: seq<string>, service: RegimeService, validationError: string)
    ensures ResultSymbols(Batch(symbols, service, validationError).results) == Filter(symbols, Succeeds(service, validationError))
    decreases |symbols|
  {
    if symbols != [] {
      var p := Succeeds(service, validationError);
      var init := symbols[..|symbols|-1];
      var s := symbols[|symbols|-1];
      BatchResultsFollowInput(init, service, validationError);
      assert symbols == init + [s];
      FilterAppend(init, [s], p);
      FilterCons(s, [], p);
      assert [s] + [] == [s];
      var rs := Batch(init, service, validationError).results;
      if SymbolOutcome(s, service, validationError).Ok? {
        var resp := SymbolOutcome(s, service, validationError).value;
        assert Batch(symbols, service, validationError).results == rs + [resp];
        ResultSymbolsAppend(rs, resp);
        calc {
          ResultSymbols(rs + [resp]);
          ResultSymbols(rs) + [s];
          Filter(init, p) + Filter([s], p);
        }
      } else {
        assert Batch(symbols, service, validationError).results == rs;
        assert Filter([s], p) == [];
      }
    }
  }

  /** The errors are the symbols that fail, in input order. */
  lemma {:induction false} BatchErrorsFollowInput(symbols: seq<string>, service: RegimeService, validationError: string)
    ensures ErrorSymbols(Batch(symbols, service, validationError).errors) == Filter(symbols, Fails(service, validationError))
    decreases |symbols|
  {
    if symbols != [] {
      var p := Fails(service, validationError);
      var init := symbols[..|symbols|-1];
      var s := symbols[|symbols|-1];
      BatchErrorsFollowInput(init, service, validationError);
      assert symbols == init + [s];
      FilterAppend(init, [s], p);
      FilterCons(s, [], p);
      assert [s] + [] == [s];
      var es := Batch(init, service, validationError).errors;
      if SymbolOutcome(s, service, validationError).Err? {
        var e := SymbolOutcome(s, service, validationError).error;
        assert Batch(symbols, service, validationError).errors == es + [BatchError(s, e)];
        ErrorSymbolsAppend(es, BatchError(s, e));
        calc {
          ErrorSymbols(es + [BatchError(s, e)]);
          ErrorSymbols(es) + [s];
          Filter(init, p) + Filter([s], p);
        }
      } else {
        assert Batch(symbols, service, validationError).errors == es;
        assert Filter([s], p) == [];
      }
    }
  }

  /** Every symbol lands in exactly one of the two lists, each in input order. */
  lemma BatchPartition(symbols: seq<string>, service: RegimeService, validationError: string)
    ensures ResultSymbols(Batch(symbols, service, validationError).results) == Filter(symbols, Succeeds(service, validationError))
    ensures ErrorSymbols(Batch(symbols, service, validationError).errors) == Filter(symbols, Fails(service, validationError))
    ensures forall s :: s in symbols ==>
      (s in ResultSymbols(Batch(symbols, service, validationError).results)) != (s in ErrorSymbols(Batch(symbols, service, validationError).errors))
  {
    BatchResultsFollowInput(symbols, service, validationError);
    BatchErrorsFollowInput(symbols, service, validationError);
  }

  /** An early exit of the service (no indicators) puts the symbol in `errors`. */
  lemma UnclassifiedIsAnError(symbols: seq<string>, service: RegimeService, validationError: string, s: string, reason: string)
    requires s in symbols && service(s) == Ok(MarketRegime.Unclassified(reason))
    ensures s in ErrorSymbols(Batch(symbols, service, validationError).errors)
    ensures s !in ResultSymbols(Batch(symbols, service, validationError).results)
  {
    BatchPartition(symbols, service, validationError);
  }

  /** `get_regime_batch`: the loop appending to `results` or `errors`. */
  method GetRegimeBatch(symbols: seq<string>, service: RegimeService, validationError: string)
    returns (results: seq<RegimeResponse>, errors: seq<BatchError>)
    ensures BatchResponse(results, errors) == Batch(symbols, service, validationError)
  {
    results, errors := [], [];
    for i := 0 to |symbols|
      invariant BatchResponse(results, errors) == Batch(symbols[..i], service, validationError)
    {
      assert symbols[..i+1][..i] == symbols[..i];
      var s := symbols[i];
      match service(s)
      case Err(e) =>
        errors := errors + [BatchError(s, e)];
      case Ok(rep) =>
        if rep.indicators.None? {
          errors := errors + [BatchError(s, validationError)];
        } else {
          results := results + [RegimeResponse(s, rep.regime, rep.direction, rep.confidence, rep.reason, rep.indicators.value)];
        }
    }
    assert symbols[..|symbols|] == symbols;
  }
}
