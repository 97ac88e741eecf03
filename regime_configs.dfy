/** The market_regime_configs table shared by the config routes and the migration: its
    sixteen threshold columns, its rows and the table object both of them change. */
module RegimeConfigs {
  import opened Wrappers
  import opened Seqs

  /** The threshold columns, in declaration order. All numbers are reals here,
      `rolling_window` included. */
  datatype Field =
    | RollingWindow
    | BreakoutCvdZ | BreakoutOiZ | BreakoutPriceAtr | BreakoutTakerHigh | BreakoutTakerLow
    | AbsorptionCvdZ | AbsorptionPriceAtr
    | TrapCvdZ | TrapOiZ
    | ExhaustionCvdZ | ExhaustionRsiHigh | ExhaustionRsiLow
    | StopHuntRangeAtr | StopHuntCloseAtr
    | NoiseCvdZ

  const ALL_FIELDS: seq<Field> := [
    RollingWindow,
    BreakoutCvdZ, BreakoutOiZ, BreakoutPriceAtr, BreakoutTakerHigh, BreakoutTakerLow,
    AbsorptionCvdZ, AbsorptionPriceAtr,
    TrapCvdZ, TrapOiZ,
    ExhaustionCvdZ, ExhaustionRsiHigh, ExhaustionRsiLow,
    StopHuntRangeAtr, StopHuntCloseAtr,
    NoiseCvdZ]

  lemma AllFieldsListed(f: Field)
    ensures f in ALL_FIELDS
  {
    match f
    case RollingWindow => assert ALL_FIELDS[0] == f;
    case BreakoutCvdZ => assert ALL_FIELDS[1] == f;
    case BreakoutOiZ => assert ALL_FIELDS[2] == f;
    case BreakoutPriceAtr => assert ALL_FIELDS[3] == f;
    case BreakoutTakerHigh => assert ALL_FIELDS[4] == f;
    case BreakoutTakerLow => assert ALL_FIELDS[5] == f;
    case AbsorptionCvdZ => assert ALL_FIELDS[6] == f;
    case AbsorptionPriceAtr => assert ALL_FIELDS[7] == f;
    case TrapCvdZ => assert ALL_FIELDS[8] == f;
    case TrapOiZ => assert ALL_FIELDS[9] == f;
    case ExhaustionCvdZ => assert ALL_FIELDS[10] == f;
    case ExhaustionRsiHigh => assert ALL_FIELDS[11] == f;
    case ExhaustionRsiLow => assert ALL_FIELDS[12] == f;
    case StopHuntRangeAtr => assert ALL_FIELDS[13] == f;
    case StopHuntCloseAtr => assert ALL_FIELDS[14] == f;
    case NoiseCvdZ => assert ALL_FIELDS[15] == f;
  }

  /** A row; a column missing from `values` is NULL, and so is a missing `isDefault`. */
  datatype ConfigRow = ConfigRow(id: int, name: string, isDefault: Option<bool>, values: map<Field, real>)

  function Value(row: ConfigRow, f: Field): Option<real> {
    if f in row.values then Some(row.values[f]) else None
  }

  /** `is_default = true` in SQL: a NULL flag does not match. */
  predicate IsDefaultRow(row: ConfigRow) {
    row.isDefault == Some(true)
  }

  /** The row with an id (`filter(id == config_id).first()`). */
  function FindConfig(rows: seq<ConfigRow>, configId: int): (r: Option<nat>)
    ensures r.Some? ==> r.value < |rows| && rows[r.value].id == configId
    ensures r.None? ==> forall j :: 0 <= j < |rows| ==> rows[j].id != configId
  {
    FirstWhere(rows, (c: ConfigRow) => c.id == configId)
  }

  /** The table as a value: whether it was created, its rows in order, the next serial id. */
  datatype TableState = TableState(created: bool, rows: seq<ConfigRow>, nextId: int)

  /** The table in the database. */
  class ConfigTable {
    var created: bool
    var rows: seq<ConfigRow>
    var nextId: int

    constructor(created: bool, rows: seq<ConfigRow>, nextId: int)
      ensures this.created == created && this.rows == rows && this.nextId == nextId
    {
      this.created := created;
      this.rows := rows;
      this.nextId := nextId;
    }

    function State(): TableState
      reads this
    {
      TableState(created, rows, nextId)
    }
  }
}
