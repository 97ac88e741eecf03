/** The migration that creates market_regime_configs: on an existing table it rewrites
    the default row's pre-redesign thresholds to the redesigned ones; on a missing table
    it creates it; either way it inserts a default row when there is none. */
module RegimeMigration {
  import opened Wrappers
  import opened RegimeConfigs

  // The redesigned defaults.
  const DEFAULT_BREAKOUT_OI_Z: real := 0.1
  const DEFAULT_BREAKOUT_PRICE_ATR: real := 0.3
  const DEFAULT_TRAP_OI_Z: real := -0.5
  const DEFAULT_TAKER_HIGH: real := 33.0
  const DEFAULT_TAKER_LOW: real := 0.03

  // ---------------------------------------------------------------------------
  // The three UPDATE statements, row by row
  // ---------------------------------------------------------------------------

  /** `SET breakout_oi_z = 0.1 WHERE is_default = true AND breakout_oi_z = 0.3`. */
  function OiRewrite(row: ConfigRow): ConfigRow {
    if IsDefaultRow(row) && Value(row, BreakoutOiZ) == Some(0.3)
    then row.(values := row.values[BreakoutOiZ := DEFAULT_BREAKOUT_OI_Z]) else row
  }

  /** `SET trap_oi_z = -0.5 WHERE is_default = true AND trap_oi_z = -1.0`. */
  function TrapRewrite(row: ConfigRow): ConfigRow {
    if IsDefaultRow(row) && Value(row, TrapOiZ) == Some(-1.0)
    then row.(values := row.values[TrapOiZ := DEFAULT_TRAP_OI_Z]) else row
  }

  /** The taker pair, rewritten only when both values match. */
  function TakerRewrite(row: ConfigRow): ConfigRow {
    if IsDefaultRow(row) && Value(row, BreakoutTakerHigh) == Some(1.8) && Value(row, BreakoutTakerLow) == Some(0.55)
    then row.(values := row.values[BreakoutTakerHigh := DEFAULT_TAKER_HIGH][BreakoutTakerLow := DEFAULT_TAKER_LOW])
    else row
  }

  /** One row after the three statements. */
  function Rewrite(row: ConfigRow): (r: ConfigRow)
    ensures !IsDefaultRow(row) ==> r == row
    ensures r.id == row.id && r.name == row.name && r.isDefault == row.isDefault
    ensures forall f :: f !in {BreakoutOiZ, TrapOiZ, BreakoutTakerHigh, BreakoutTakerLow} ==> Value(r, f) == Value(row, f)
    ensures Value(r, BreakoutOiZ) ==
      if IsDefaultRow(row) && Value(row, BreakoutOiZ) == Some(0.3) then Some(DEFAULT_BREAKOUT_OI_Z) else Value(row, BreakoutOiZ)
    ensures Value(r, TrapOiZ) ==
      if IsDefaultRow(row) && Value(row, TrapOiZ) == Some(-1.0) then Some(DEFAULT_TRAP_OI_Z) else Value(row, TrapOiZ)
    ensures IsDefaultRow(row) && Value(row, BreakoutTakerHigh) == Some(1.8) && Value(row, BreakoutTakerLow) == Some(0.55) ==>
      Value(r, BreakoutTakerHigh) == Some(DEFAULT_TAKER_HIGH) && Value(r, BreakoutTakerLow) == Some(DEFAULT_TAKER_LOW)
    ensures !(IsDefaultRow(row) && Value(row, BreakoutTakerHigh) == Some(1.8) && Value(row, BreakoutTakerLow) == Some(0.55)) ==>
      Value(r, BreakoutTakerHigh) == Value(row, BreakoutTakerHigh) && Value(r, BreakoutTakerLow) == Value(row, BreakoutTakerLow)
  {
    TakerRewrite(TrapRewrite(OiRewrite(row)))
  }

  /** A row the statements have rewritten matches none of them again. */
  lemma RewriteIdempotent(row: ConfigRow)
    ensures Rewrite(Rewrite(row)) == Rewrite(row)
  {
    var once := Rewrite(row);
    var twice := Rewrite(once);
    forall f | true
      ensures Value(twice, f) == Value(once, f)
    {
    }
    assert forall f :: f in twice.values <==> Value(twice, f).Some?;
    assert twice.values == once.values;
  }

  function RewriteAll(rows: seq<ConfigRow>): (r: seq<ConfigRow>)
    ensures |r| == |rows| && forall i :: 0 <= i < |rows| ==> r[i] == Rewrite(rows[i])
  {
    seq(|rows|, i requires 0 <= i < |rows| => Rewrite(rows[i]))
  }

  /** `SELECT COUNT(*) ... WHERE is_default = true` is positive. */
  predicate HasDefault(rows: seq<ConfigRow>) {
    exists i :: 0 <= i < |rows| && IsDefaultRow(rows[i])
  }

  // ---------------------------------------------------------------------------
  // The inserted default row
  // ---------------------------------------------------------------------------

  /** The values the INSERT statement writes: the thresholds from before the redesign. */
  const AS_WRITTEN_INSERT: map<Field, real> := map[
    RollingWindow := 48.0,
    BreakoutCvdZ := 1.5, BreakoutOiZ := 0.3, BreakoutPriceAtr := 0.3,
    BreakoutTakerHigh := 1.8, BreakoutTakerLow := 0.55,
    AbsorptionCvdZ := 1.5, AbsorptionPriceAtr := 0.3,
    TrapCvdZ := 1.0, TrapOiZ := -1.0,
    ExhaustionCvdZ := 1.0, ExhaustionRsiHigh := 70.0, ExhaustionRsiLow := 30.0,
    StopHuntRangeAtr := 1.0, StopHuntCloseAtr := 0.3, NoiseCvdZ := 0.5]

  /** The values the redesign's own constants call for. */
  const CORRECTED_INSERT: map<Field, real> := AS_WRITTEN_INSERT[
    BreakoutOiZ := DEFAULT_BREAKOUT_OI_Z][BreakoutPriceAtr := DEFAULT_BREAKOUT_PRICE_ATR][
    TrapOiZ := DEFAULT_TRAP_OI_Z][BreakoutTakerHigh := DEFAULT_TAKER_HIGH][BreakoutTakerLow := DEFAULT_TAKER_LOW]

  function DefaultRow(id: int, values: map<Field, real>): ConfigRow {
    ConfigRow(id, "Default", Some(true), values)
  }

  // ---------------------------------------------------------------------------
  // One run
  // ---------------------------------------------------------------------------

  /** One run of the migration inserting `insert` as the default row's values. */
  function MigrateSpec(s: TableState, insert: map<Field, real>): (r: TableState)
    ensures r.created
    ensures s.created ==> |s.rows| <= |r.rows| && r.rows[..|s.rows|] == RewriteAll(s.rows)
    ensures !s.created ==> |r.rows| == 1 && r.rows[0] == DefaultRow(s.nextId, insert)
    ensures s.created && HasDefault(s.rows) ==> r.rows == RewriteAll(s.rows) && r.nextId == s.nextId
    ensures s.created && !HasDefault(s.rows) ==> r.rows == RewriteAll(s.rows) + [DefaultRow(s.nextId, insert)]
    ensures HasDefault(r.rows)
  {
    var rows := if s.created then RewriteAll(s.rows) else [];
    if HasDefault(rows) then TableState(true, rows, s.nextId)
    else
      var rows' := rows + [DefaultRow(s.nextId, insert)];
      assert IsDefaultRow(rows'[|rows|]);
      TableState(true, rows', s.nextId + 1)
  }

  function MigrateAsWritten(s: TableState): TableState {
    MigrateSpec(s, AS_WRITTEN_INSERT)
  }

  /** The migration with the redesigned values inserted. */
  function MigrateCorrected(s: TableState): TableState {
    MigrateSpec(s, CORRECTED_INSERT)
  }

  lemma RewriteAllFixed(rows: seq<ConfigRow>)
    requires forall i :: 0 <= i < |rows| ==> Rewrite(rows[i]) == rows[i]
    ensures RewriteAll(rows) == rows
  {
  }

  /** Every row of a rewritten table is fixed by the statements. */
  lemma RewriteAllRowsFixed(rows: seq<ConfigRow>)
    ensures forall i :: 0 <= i < |rows| ==> Rewrite(RewriteAll(rows)[i]) == RewriteAll(rows)[i]
  {
    forall i | 0 <= i < |rows| ensures Rewrite(RewriteAll(rows)[i]) == RewriteAll(rows)[i] {
      RewriteIdempotent(rows[i]);
    }
  }

  lemma RewriteAllTwice(rows: seq<ConfigRow>)
    ensures RewriteAll(RewriteAll(rows)) == RewriteAll(rows)
  {
    RewriteAllRowsFixed(rows);
    RewriteAllFixed(RewriteAll(rows));
  }

  /** The rows of a state are all fixed by the UPDATE statements and hold a default row:
      a further run changes nothing. */
  predicate Settled(s: TableState) {
    s.created && HasDefault(s.rows) && forall i :: 0 <= i < |s.rows| ==> Rewrite(s.rows[i]) == s.rows[i]
  }

  lemma SettledIsFixed(s: TableState, insert: map<Field, real>)
    requires Settled(s)
    ensures MigrateSpec(s, insert) == s
  {
    RewriteAllFixed(s.rows);
  }

  /** A run on a missing table creates it with the one inserted row. */
  lemma FreshRun(nextId: int, insert: map<Field, real>)
    ensures MigrateSpec(TableState(false, [], nextId), insert) == TableState(true, [DefaultRow(nextId, insert)], nextId + 1)
  {
    assert !HasDefault([]);
  }

  /** A run on a table that holds a default row only rewrites. */
  lemma DefaultRun(s: TableState, insert: map<Field, real>)
    requires s.created && HasDefault(s.rows)
    ensures MigrateSpec(s, insert) == TableState(true, RewriteAll(s.rows), s.nextId)
  {
  }

  /** After two runs the table has settled: further runs change nothing. */
  lemma AsWrittenSettlesAfterTwoRuns(s: TableState)
    ensures Settled(MigrateAsWritten(MigrateAsWritten(s)))
    ensures MigrateAsWritten(MigrateAsWritten(MigrateAsWritten(s))) == MigrateAsWritten(MigrateAsWritten(s))
  {
    var s1 := MigrateAsWritten(s);
    DefaultRun(s1, AS_WRITTEN_INSERT);
    var s2 := MigrateAsWritten(s1);
    assert s2.rows == RewriteAll(s1.rows);
    RewriteAllRowsFixed(s1.rows);
    SettledIsFixed(s2, AS_WRITTEN_INSERT);
  }

  /** The as-written values the UPDATE statements test for. */
  lemma AsWrittenLookups()
    ensures AS_WRITTEN_INSERT[BreakoutOiZ] == 0.3 && AS_WRITTEN_INSERT[TrapOiZ] == -1.0
    ensures AS_WRITTEN_INSERT[BreakoutTakerHigh] == 1.8 && AS_WRITTEN_INSERT[BreakoutTakerLow] == 0.55
    ensures AS_WRITTEN_INSERT[BreakoutPriceAtr] == DEFAULT_BREAKOUT_PRICE_ATR
  {
  }

  /** The four columns the statements rewrite in the as-written row. */
  function RewrittenInsert(): map<Field, real> {
    AS_WRITTEN_INSERT[BreakoutOiZ := DEFAULT_BREAKOUT_OI_Z][TrapOiZ := DEFAULT_TRAP_OI_Z][
      BreakoutTakerHigh := DEFAULT_TAKER_HIGH][BreakoutTakerLow := DEFAULT_TAKER_LOW]
  }

  lemma AsWrittenRowRewrite(id: int)
    ensures Rewrite(DefaultRow(id, AS_WRITTEN_INSERT)) == DefaultRow(id, RewrittenInsert())
  {
    AsWrittenLookups();
    var w := AS_WRITTEN_INSERT;
    var r1 := OiRewrite(DefaultRow(id, w));
    assert r1 == DefaultRow(id, w[BreakoutOiZ := DEFAULT_BREAKOUT_OI_Z]);
    var r2 := TrapRewrite(r1);
    assert r2 == DefaultRow(id, r1.values[TrapOiZ := DEFAULT_TRAP_OI_Z]);
  }

  lemma RewrittenInsertIsCorrected()
    ensures RewrittenInsert() == CORRECTED_INSERT
  {
    AsWrittenLookups();
    var w := AS_WRITTEN_INSERT;
    assert w[BreakoutPriceAtr := DEFAULT_BREAKOUT_PRICE_ATR] == w;
    assert w[BreakoutOiZ := DEFAULT_BREAKOUT_OI_Z][BreakoutPriceAtr := DEFAULT_BREAKOUT_PRICE_ATR] ==
      w[BreakoutPriceAtr := DEFAULT_BREAKOUT_PRICE_ATR][BreakoutOiZ := DEFAULT_BREAKOUT_OI_Z];
  }

  /** The corrected insert is what the UPDATE statements make of the as-written one. */
  lemma CorrectedInsertIsRewritten(id: int)
    ensures Rewrite(DefaultRow(id, AS_WRITTEN_INSERT)) == DefaultRow(id, CORRECTED_INSERT)
  {
    AsWrittenRowRewrite(id);
    RewrittenInsertIsCorrected();
  }

  /** The corrected default row is left alone by the UPDATE statements. */
  lemma CorrectedRowFixed(id: int)
    ensures Rewrite(DefaultRow(id, CORRECTED_INSERT)) == DefaultRow(id, CORRECTED_INSERT)
  {
    CorrectedInsertIsRewritten(id);
    RewriteIdempotent(DefaultRow(id, AS_WRITTEN_INSERT));
  }

  /** On a fresh database the first run inserts the pre-redesign thresholds, and only the
      second run rewrites them: one run is not a fixed point. */
  lemma FreshDatabaseNeedsTwoRuns(nextId: int)
    ensures var s1 := MigrateAsWritten(TableState(false, [], nextId));
      Value(s1.rows[0], BreakoutOiZ) == Some(0.3) && Value(s1.rows[0], TrapOiZ) == Some(-1.0)
    ensures var s1 := MigrateAsWritten(TableState(false, [], nextId));
      var s2 := MigrateAsWritten(s1);
      Value(s2.rows[0], BreakoutOiZ) == Some(DEFAULT_BREAKOUT_OI_Z) && s2 != s1
  {
    FreshRun(nextId, AS_WRITTEN_INSERT);
    var s1 := MigrateAsWritten(TableState(false, [], nextId));
    AsWrittenLookups();
    assert IsDefaultRow(s1.rows[0]);
    DefaultRun(s1, AS_WRITTEN_INSERT);
    CorrectedInsertIsRewritten(nextId);
    var s2 := MigrateAsWritten(s1);
    assert s2.rows[0] == Rewrite(s1.rows[0]) == DefaultRow(nextId, CORRECTED_INSERT);
    assert CORRECTED_INSERT[BreakoutOiZ] == DEFAULT_BREAKOUT_OI_Z;
    assert s2.rows[0] != s1.rows[0];
  }

  /** A table that already held a default row settles in one run. */
  lemma AsWrittenIdempotentWithDefault(s: TableState)
    requires s.created && HasDefault(s.rows)
    ensures MigrateAsWritten(MigrateAsWritten(s)) == MigrateAsWritten(s)
  {
    DefaultRun(s, AS_WRITTEN_INSERT);
    var s1 := MigrateAsWritten(s);
    DefaultRun(s1, AS_WRITTEN_INSERT);
    RewriteAllTwice(s.rows);
  }

  /** With the redesigned values inserted, every run after the first changes nothing. */
  lemma CorrectedMigrateIdempotent(s: TableState)
    ensures Settled(MigrateCorrected(s))
    ensures MigrateCorrected(MigrateCorrected(s)) == MigrateCorrected(s)
  {
    var s1 := MigrateCorrected(s);
    var row := DefaultRow(s.nextId, CORRECTED_INSERT);
    CorrectedRowFixed(s.nextId);
    if !s.created {
      FreshRun(s.nextId, CORRECTED_INSERT);
      assert s1.rows == [row];
    } else {
      var rw := RewriteAll(s.rows);
      RewriteAllRowsFixed(s.rows);
      if HasDefault(s.rows) {
        DefaultRun(s, CORRECTED_INSERT);
      } else {
        assert s1.rows == rw + [row];
        forall i | 0 <= i < |s1.rows| ensures Rewrite(s1.rows[i]) == s1.rows[i] {
          if i < |rw| {
            assert s1.rows[i] == rw[i];
          }
        }
      }
    }
    SettledIsFixed(s1, CORRECTED_INSERT);
  }

  /** On a fresh database one corrected run gives what two runs as written give. */
  lemma CorrectedMatchesTwoRunsOnFreshDatabase(nextId: int)
    ensures MigrateCorrected(TableState(false, [], nextId)) ==
      MigrateAsWritten(MigrateAsWritten(TableState(false, [], nextId)))
  {
    FreshRun(nextId, CORRECTED_INSERT);
    FreshRun(nextId, AS_WRITTEN_INSERT);
    var s1 := MigrateAsWritten(TableState(false, [], nextId));
    assert IsDefaultRow(s1.rows[0]);
    DefaultRun(s1, AS_WRITTEN_INSERT);
    CorrectedInsertIsRewritten(nextId);
    assert RewriteAll(s1.rows) == [DefaultRow(nextId, CORRECTED_INSERT)];
  }

  // ---------------------------------------------------------------------------
  // The statements against the table
  // ---------------------------------------------------------------------------

  /** The three UPDATE statements, applied row by row. */
  method UpdateDefaults(t: ConfigTable)
    modifies t
    ensures t.rows == RewriteAll(old(t.rows))
    ensures t.created == old(t.created) && t.nextId == old(t.nextId)
  {
    var i := 0;
    ghost var original := t.rows;
    while i < |t.rows|
      invariant 0 <= i <= |t.rows| == |original|
      invariant t.created == old(t.created) && t.nextId == old(t.nextId)
      invariant forall j :: 0 <= j < i ==> t.rows[j] == Rewrite(original[j])
      invariant forall j :: i <= j < |t.rows| ==> t.rows[j] == original[j]
    {
      t.rows := t.rows[i := Rewrite(t.rows[i])];
      i := i + 1;
    }
  }

  /** `COUNT(*) > 0` over the default rows. */
  method DefaultExists(rows: seq<ConfigRow>) returns (found: bool)
    ensures found <==> HasDefault(rows)
  {
    found := false;
    for i := 0 to |rows|
      invariant found <==> exists j :: 0 <= j < i && IsDefaultRow(rows[j])
    {
      if IsDefaultRow(rows[i]) {
        found := true;
      }
    }
  }

  /** `migrate`, inserting `insert` when no default row exists; the source inserts
      `AS_WRITTEN_INSERT`. */
  method Migrate(t: ConfigTable, insert: map<Field, real>)
    modifies t
    ensures t.State() == MigrateSpec(old(t.State()), insert)
  {
    if t.created {
      UpdateDefaults(t);
    } else {
      t.created := true;
      t.rows := [];
    }
    var found := DefaultExists(t.rows);
    if !found {
      t.rows := t.rows + [DefaultRow(t.nextId, insert)];
      t.nextId := t.nextId + 1;
    }
  }
}
