/** The global sampling configuration routes: reading the record (creating the default one
    when the table is empty) and validating and applying a partial update. */
module ConfigRoutes {
  import opened Wrappers

  /** A value of the JSON request body. */
  datatype JsonValue = JNull | JBool(b: bool) | JInt(i: int) | JFloat(x: real) | JString(s: string) | JOther

  type Payload = map<string, JsonValue>

  /** `payload.get(key)`: an absent key and an explicit `null` both read as None. */
  function Get(payload: Payload, key: string): (r: Option<JsonValue>)
    ensures r.Some? <==> key in payload && payload[key] != JNull
    ensures r.Some? ==> r.value == payload[key]
  {
    if key in payload && payload[key] != JNull then Some(payload[key]) else None
  }

  /** The integer a value is under `isinstance(v, int)`; a bool is an int (True is 1). */
  function AsInt(v: JsonValue): (r: Option<int>)
    ensures r.Some? <==> v.JInt? || v.JBool?
  {
    match v
    case JInt(i) => Some(i)
    case JBool(b) => Some(if b then 1 else 0)
    case _ => None
  }

  const DEFAULT_INTERVAL: int := 18
  const DEFAULT_DEPTH: int := 10

  const INTERVAL_ERROR: string := "sampling_interval must be between 5 and 60 seconds"
  const DEPTH_ERROR: string := "sampling_depth must be between 10 and 60"

  predicate InRange(v: JsonValue, lo: int, hi: int) {
    AsInt(v).Some? && lo <= AsInt(v).value <= hi
  }

  /** The record `first()` finds. */
  datatype SamplingRow = SamplingRow(id: int, interval: int, depth: int)

  /** The JSON object both routes answer with. */
  datatype SamplingResponse = SamplingResponse(interval: int, depth: int)

  function ResponseOf(row: SamplingRow): SamplingResponse {
    SamplingResponse(row.interval, row.depth)
  }

  /** The validated update: the interval and depth to write, each None when not given. */
  datatype SamplingUpdate = SamplingUpdate(interval: Option<int>, depth: Option<int>)

  /** The two checks, interval first: a given value must be an int within its range. */
  function ValidateUpdate(payload: Payload): (r: Result<SamplingUpdate, HttpError>)
    ensures r.Ok? <==>
      (Get(payload, "sampling_interval").None? || InRange(Get(payload, "sampling_interval").value, 5, 60)) &&
      (Get(payload, "sampling_depth").None? || InRange(Get(payload, "sampling_depth").value, 10, 60))
    ensures Get(payload, "sampling_interval").Some? && !InRange(Get(payload, "sampling_interval").value, 5, 60) ==>
      r == Err(HttpError(400, INTERVAL_ERROR))
    ensures r.Err? && r.error.detail == DEPTH_ERROR ==>
      Get(payload, "sampling_depth").Some? && !InRange(Get(payload, "sampling_depth").value, 10, 60)
    ensures (Get(payload, "sampling_interval").None? || InRange(Get(payload, "sampling_interval").value, 5, 60))
            && Get(payload, "sampling_depth").Some? && !InRange(Get(payload, "sampling_depth").value, 10, 60) ==>
      r == Err(HttpError(400, DEPTH_ERROR))
    ensures r.Ok? ==>
      (r.value.interval.Some? <==> Get(payload, "sampling_interval").Some?) &&
      (r.value.depth.Some? <==> Get(payload, "sampling_depth").Some?)
    // a given value is written as the integer it is
    ensures r.Ok? && r.value.interval.Some? ==> AsInt(Get(payload, "sampling_interval").value) == r.value.interval
    ensures r.Ok? && r.value.depth.Some? ==> AsInt(Get(payload, "sampling_depth").value) == r.value.depth
    ensures r.Ok? && r.value.interval.Some? ==> 5 <= r.value.interval.value <= 60
    ensures r.Ok? && r.value.depth.Some? ==> 10 <= r.value.depth.value <= 60
  {
    var interval := Get(payload, "sampling_interval");
    var depth := Get(payload, "sampling_depth");
    if interval.Some? && !InRange(interval.value, 5, 60) then Err(HttpError(400, INTERVAL_ERROR))
    else if depth.Some? && !InRange(depth.value, 10, 60) then Err(HttpError(400, DEPTH_ERROR))
    else Ok(SamplingUpdate(
      if interval.Some? then AsInt(interval.value) else None,
      if depth.Some? then AsInt(depth.value) else None))
  }

  /** JSON `true` is the int 1 to `isinstance`, so it is refused by the range check
      rather than by the type check. */
  lemma BoolIntervalRefused(payload: Payload, b: bool)
    requires "sampling_interval" in payload && payload["sampling_interval"] == JBool(b)
    ensures ValidateUpdate(payload) == Err(HttpError(400, INTERVAL_ERROR))
  {
  }

  /** Python's `value or default` on an optional int. */
  function OrDefault(v: Option<int>, default: int): int {
    if v.Some? && v.value != 0 then v.value else default
  }

  /** The table after a validated update: an empty table gets a new record with the
      defaults for what is missing; otherwise only the given fields of the first record
      change. */
  function Applied(rows: seq<SamplingRow>, u: SamplingUpdate, newId: int): (r: seq<SamplingRow>)
    ensures |r| == if rows == [] then 1 else |rows|
    ensures r[1..] == if rows == [] then [] else rows[1..]
    ensures r[0].interval == if u.interval.Some? && (rows == [] ==> u.interval.value != 0) then u.interval.value
      else if rows == [] then DEFAULT_INTERVAL else rows[0].interval
    ensures r[0].depth == if u.depth.Some? && (rows == [] ==> u.depth.value != 0) then u.depth.value
      else if rows == [] then DEFAULT_DEPTH else rows[0].depth
  {
    if rows == [] then [SamplingRow(newId, OrDefault(u.interval, DEFAULT_INTERVAL), OrDefault(u.depth, DEFAULT_DEPTH))]
    else
      var first := rows[0];
      var first' := first.(
        interval := if u.interval.Some? then u.interval.value else first.interval,
        depth := if u.depth.Some? then u.depth.value else first.depth);
      rows[0 := first']
  }

  /** Sending the same validated update twice leaves the table as the first time. */
  lemma AppliedIdempotent(rows: seq<SamplingRow>, u: SamplingUpdate, newId: int, laterId: int)
    requires u.interval.Some? ==> 5 <= u.interval.value <= 60
    requires u.depth.Some? ==> 10 <= u.depth.value <= 60
    ensures Applied(Applied(rows, u, newId), u, laterId) == Applied(rows, u, newId)
  {
    var once := Applied(rows, u, newId);
    var twice := Applied(once, u, laterId);
    assert twice[0] == once[0];
    assert twice[1..] == once[1..];
    assert twice == [twice[0]] + twice[1..];
    assert once == [once[0]] + once[1..];
  }

  /** The `global_sampling_configs` table. */
  class SamplingStore {
    var rows: seq<SamplingRow>
    var nextId: int

    constructor(rows: seq<SamplingRow>, nextId: int)
      ensures this.rows == rows && this.nextId == nextId
    {
      this.rows := rows;
      this.nextId := nextId;
    }

    /** `get_global_sampling_config`: the first record, after creating (18, 10) in an empty table. */
    method GetGlobalSamplingConfig() returns (r: SamplingResponse)
      modifies this
      ensures old(rows) == [] ==>
        rows == [SamplingRow(old(nextId), DEFAULT_INTERVAL, DEFAULT_DEPTH)] && nextId == old(nextId) + 1
      ensures old(rows) != [] ==> rows == old(rows) && nextId == old(nextId)
      ensures rows != [] && r == ResponseOf(rows[0])
    {
      if rows == [] {
        rows := [SamplingRow(nextId, DEFAULT_INTERVAL, DEFAULT_DEPTH)];
        nextId := nextId + 1;
      }
      r := ResponseOf(rows[0]);
    }

    /** `update_global_sampling_config`: a refused value answers 400 before anything is
        written; otherwise the update is applied and the first record is returned. */
    method UpdateGlobalSamplingConfig(payload: Payload) returns (r: Result<SamplingResponse, HttpError>)
      modifies this
      ensures ValidateUpdate(payload).Err? ==>
        r == Err(ValidateUpdate(payload).error) && rows == old(rows) && nextId == old(nextId)
      ensures ValidateUpdate(payload).Ok? ==>
        rows == Applied(old(rows), ValidateUpdate(payload).value, old(nextId)) &&
        nextId == (if old(rows) == [] then old(nextId) + 1 else old(nextId)) &&
        r == Ok(ResponseOf(rows[0]))
    {
      var interval := Get(payload, "sampling_interval");
      var depth := Get(payload, "sampling_depth");
      if interval.Some? {
        var n := AsInt(interval.value);
        if n.None? || n.value < 5 || n.value > 60 {
          return Err(HttpError(400, INTERVAL_ERROR));
        }
      }
      if depth.Some? {
        var n := AsInt(depth.value);
        if n.None? || n.value < 10 || n.value > 60 {
          return Err(HttpError(400, DEPTH_ERROR));
        }
      }
      var iv := if interval.Some? then AsInt(interval.value) else None;
      var dv := if depth.Some? then AsInt(depth.value) else None;
      if rows == [] {
        rows := [SamplingRow(nextId, OrDefault(iv, DEFAULT_INTERVAL), OrDefault(dv, DEFAULT_DEPTH))];
        nextId := nextId + 1;
      } else {
        var first := rows[0];
        if iv.Some? {
          first := first.(interval := iv.value);
        }
        if dv.Some? {
          first := first.(depth := dv.value);
        }
        rows := rows[0 := first];
      }
      r := Ok(ResponseOf(rows[0]));
    }
  }

  /** After a successful update, reading the configuration shows every value that was
      given, and no other record is touched. */
  lemma UpdateThenRead(rows: seq<SamplingRow>, payload: Payload, newId: int)
    requires ValidateUpdate(payload).Ok?
    ensures var u := ValidateUpdate(payload).value;
      var after := Applied(rows, u, newId);
      (u.interval.Some? ==> after[0].interval == u.interval.value) &&
      (u.depth.Some? ==> after[0].depth == u.depth.value) &&
      (Get(payload, "sampling_interval").Some? ==> 5 <= after[0].interval <= 60) &&
      (Get(payload, "sampling_depth").Some? ==> 10 <= after[0].depth <= 60)
  {
  }
}
