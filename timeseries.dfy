/**
 * The Postgres side of the gateway (lib/models/timeseries.js): the typed
 * value resolver with its conversions, the device lookup by access token,
 * the latest-value object and the order of calls when a time series is
 * streamed. The pool is replaced by the answers it gives to each query;
 * `parseFloat`, `parseInt` and `JSON.stringify` are kept symbolic.
 */
module Timeseries {
  import opened Wrappers
  import opened KvRows
  import opened HttpErrors
  import opened Express
  import History

  /**
   * A resolved value. `VFloat(t)` stands for `parseFloat(t)`, `VInt(t)` for
   * `parseInt(t)`, `VJson(t, true)` for `JSON.stringify(t)` and
   * `VJson(t, false)` for the column text itself.
   */
  datatype Value =
    | VBool(b: bool)
    | VFloat(text: string)
    | VJson(text: string, stringified: bool)
    | VInt(text: string)
    | VString(text: string)

  /** What each column's text becomes once it is the first non-null one. */
  function Converted(c: Column, text: string, stringifyJson: bool): Value {
    match c
    case BoolV => VBool(text == "true")
    case DblV => VFloat(text)
    case JsonV => VJson(text, stringifyJson)
    case LongV => VInt(text)
    case StrV => VString(text)
  }

  /**
   * `getValueFromRow(row, stringifyJson)`: `None` is `undefined`. The chain of
   * tests looks at the columns in the priority order and converts the first
   * non-null one.
   */
  function ResolveValue(row: KvRow, stringifyJson: bool): (v: Option<Value>)
    ensures v.None? <==> AllNull(row)
    ensures v.Some? ==> exists i ::
      (FirstNonNullAt(row, i) && v.value == Converted(PriorityOrder[i], Cell(row, PriorityOrder[i]).value, stringifyJson))
  {
    if row.boolV.Some? then
      assert FirstNonNullAt(row, 0);
      Some(VBool(row.boolV.value == "true"))
    else if row.dblV.Some? then
      assert FirstNonNullAt(row, 1);
      Some(VFloat(row.dblV.value))
    else if row.jsonV.Some? then
      assert FirstNonNullAt(row, 2);
      if stringifyJson then Some(VJson(row.jsonV.value, true)) else Some(VJson(row.jsonV.value, false))
    else if row.longV.Some? then
      assert FirstNonNullAt(row, 3);
      Some(VInt(row.longV.value))
    else if row.strV.Some? then
      assert FirstNonNullAt(row, 4);
      Some(VString(row.strV.value))
    else None
  }

  /** The column text a resolved value was made from; a boolean keeps only its truth. */
  function SourceText(v: Value): Option<string> {
    match v
    case VBool(_) => None
    case VFloat(t) => Some(t)
    case VJson(t, _) => Some(t)
    case VInt(t) => Some(t)
    case VString(t) => Some(t)
  }

  /**
   * Both resolvers pick the same column: the Postgres one is undefined exactly
   * when the Cassandra one is, and apart from booleans it is made from the very
   * text the Cassandra one returns.
   */
  lemma ResolversAgree(row: KvRow, stringifyJson: bool)
    ensures ResolveValue(row, stringifyJson).None? <==> History.FirstNonNull(row).None?
    ensures ResolveValue(row, stringifyJson).Some? && !ResolveValue(row, stringifyJson).value.VBool? ==>
      SourceText(ResolveValue(row, stringifyJson).value) == History.FirstNonNull(row)
    ensures ResolveValue(row, stringifyJson).Some? && ResolveValue(row, stringifyJson).value.VBool? ==>
      History.FirstNonNull(row) == row.boolV
  {
    var v := ResolveValue(row, stringifyJson);
    var w := History.FirstNonNull(row);
    if v.Some? {
      var i :| FirstNonNullAt(row, i) &&
        v.value == Converted(PriorityOrder[i], Cell(row, PriorityOrder[i]).value, stringifyJson);
      var k :| FirstNonNullAt(row, k) && w == Cell(row, PriorityOrder[k]);
      FirstNonNullUnique(row, i, k);
    }
  }

  /** A non-null `bool_v` is true only when it is the text `true`; every other text is false. */
  lemma BoolOnlyTrueText(row: KvRow, stringifyJson: bool)
    requires row.boolV.Some?
    ensures ResolveValue(row, stringifyJson).Some? && ResolveValue(row, stringifyJson).value.VBool?
    ensures ResolveValue(row, stringifyJson).value.b <==> row.boolV.value == "true"
  {
    var v := ResolveValue(row, stringifyJson);
    var i :| FirstNonNullAt(row, i) &&
      v.value == Converted(PriorityOrder[i], Cell(row, PriorityOrder[i]).value, stringifyJson);
    FirstNonNullUnique(row, i, 0) by {
      assert FirstNonNullAt(row, 0);
    }
  }

  /** `json_v` is stringified by default and returned as it is when `stringifyJson` is false. */
  lemma JsonStringifiedByFlag(row: KvRow, stringifyJson: bool)
    requires row.boolV.None? && row.dblV.None? && row.jsonV.Some?
    ensures ResolveValue(row, stringifyJson) == Some(VJson(row.jsonV.value, stringifyJson))
  {
    var v := ResolveValue(row, stringifyJson);
    var i :| FirstNonNullAt(row, i) &&
      v.value == Converted(PriorityOrder[i], Cell(row, PriorityOrder[i]).value, stringifyJson);
    FirstNonNullUnique(row, i, 2) by {
      assert FirstNonNullAt(row, 2);
    }
  }

  /** The only credential type the lookup uses. */
  const CredentialsType: string := "ACCESS_TOKEN"

  /** The three parameterised statements, with their bound parameters. */
  datatype PgQuery =
    | SelectDeviceCredentials(credentialsId: string, credentialsType: string)
    | SelectTimeseries(name: string, deviceId: string, from: string, to: string)
    | SelectLatest(name: string, deviceId: string)

  /** A `device_credentials` row; only `device_id` is read. */
  datatype CredentialRow = CredentialRow(deviceId: string)

  /** How the model functions fail: by throwing `InsufficientPermissions`, or with the pool's own rejection. */
  datatype Failure = Denied(error: HttpError) | DbRejected(reason: Rejection)

  /** The lookup of a token. */
  function CredentialsQuery(token: string): PgQuery {
    SelectDeviceCredentials(token, CredentialsType)
  }

  /**
   * `getDeviceIdFromToken(token)`: `credentials` is what the pool answers to
   * a `device_credentials` query.
   */
  function GetDeviceIdFromToken(token: string, credentials: PgQuery -> Result<seq<CredentialRow>, Rejection>): (r: Result<string, Failure>)
    // no credential row: InsufficientPermissions is thrown
    ensures r == Err(Denied(InsufficientPermissions())) <==> credentials(CredentialsQuery(token)) == Ok([])
    // otherwise the first row's device, from the lookup with type ACCESS_TOKEN
    ensures r.Ok? <==> credentials(CredentialsQuery(token)).Ok? && |credentials(CredentialsQuery(token)).value| > 0
    ensures r.Ok? ==> r.value == credentials(CredentialsQuery(token)).value[0].deviceId
    ensures r.Err? && r.error.DbRejected? ==> credentials(CredentialsQuery(token)) == Err(r.error.reason)
  {
    match credentials(SelectDeviceCredentials(token, CredentialsType))
    case Err(e) => Err(DbRejected(e))
    case Ok(rows) =>
      if |rows| == 0 then Err(Denied(InsufficientPermissions())) else Ok(rows[0].deviceId)
  }

  /** The lookup consults nothing but the `ACCESS_TOKEN` credentials of the token. */
  lemma DeviceLookupOnlyByAccessToken(token: string,
    c1: PgQuery -> Result<seq<CredentialRow>, Rejection>, c2: PgQuery -> Result<seq<CredentialRow>, Rejection>)
    requires c1(SelectDeviceCredentials(token, "ACCESS_TOKEN")) == c2(SelectDeviceCredentials(token, "ACCESS_TOKEN"))
    ensures GetDeviceIdFromToken(token, c1) == GetDeviceIdFromToken(token, c2)
  {
    assert CredentialsQuery(token) == SelectDeviceCredentials(token, "ACCESS_TOKEN");
  }

  /** One interaction with the pool, in the order it happens. */
  datatype DbCall = Query(q: PgQuery) | Connect | Stream(q: PgQuery)

  /** The calls `getTimeseries` makes and the stream it returns, as the query the stream runs. */
  datatype TimeseriesRun = TimeseriesRun(calls: seq<DbCall>, stream: Result<PgQuery, Failure>)

  /**
   * `getTimeseries(token, name, from, to)`. `connectFailure` is the rejection
   * of `pool.connect()`, if any. Only the lookup precedes the connection, and the
   * stream runs on the connection for the device found.
   */
  function GetTimeseries(token: string, name: string, from: string, to: string,
    credentials: PgQuery -> Result<seq<CredentialRow>, Rejection>, connectFailure: Option<Rejection>): (run: TimeseriesRun)
    ensures |run.calls| >= 1 && run.calls[0] == Query(CredentialsQuery(token))
    ensures run.stream.Ok? <==> GetDeviceIdFromToken(token, credentials).Ok? && connectFailure.None?
    ensures run.stream.Ok? ==>
      run.stream.value == SelectTimeseries(name, GetDeviceIdFromToken(token, credentials).value, from, to)
    ensures GetDeviceIdFromToken(token, credentials).Err? ==>
      run.stream == Err(GetDeviceIdFromToken(token, credentials).error)
    ensures connectFailure.Some? && GetDeviceIdFromToken(token, credentials).Ok? ==>
      run.stream == Err(DbRejected(connectFailure.value))
    // an unknown or failing token takes no connection and runs no time-series query
    ensures |run.calls| > 1 ==> GetDeviceIdFromToken(token, credentials).Ok?
    ensures forall k :: 0 <= k < |run.calls| && run.calls[k].Stream? ==>
      k == 2 && run.calls[1] == Connect && run.stream.Ok? && run.calls[k].q == run.stream.value
  {
    var lookup := [Query(CredentialsQuery(token))];
    match GetDeviceIdFromToken(token, credentials)
    case Err(f) => TimeseriesRun(lookup, Err(f))
    case Ok(deviceId) =>
      match connectFailure
      case Some(e) => TimeseriesRun(lookup + [Connect], Err(DbRejected(e)))
      case None =>
        var q := SelectTimeseries(name, deviceId, from, to);
        TimeseriesRun(lookup + [Connect, Stream(q)], Ok(q))
  }

  /** The object `getLatest` answers with; a key mapped to `None` holds `undefined`. */
  type LatestObject = map<string, Option<Value>>

  /**
   * The shaping of the latest row: `{}` for no row; otherwise the property
   * name mapped to the resolved value and `ts` to the parsed timestamp. The
   * `ts` key is written last, so a property named `ts` is overwritten.
   */
  function LatestOf(name: string, rows: seq<KvRow>): (m: LatestObject)
    ensures rows == [] ==> m == map[]
    ensures rows != [] ==> m.Keys == {name, "ts"}
    ensures rows != [] ==> m["ts"] == Some(VInt(rows[0].ts))
    ensures rows != [] && name != "ts" ==> m[name] == ResolveValue(rows[0], true)
  {
    if |rows| == 0 then map[]
    else map[name := ResolveValue(rows[0], true)]["ts" := Some(VInt(rows[0].ts))]
  }

  /**
   * `getLatest(token, name)`: the device lookup first, then the latest row of
   * the property for that device.
   */
  function GetLatest(token: string, name: string,
    credentials: PgQuery -> Result<seq<CredentialRow>, Rejection>,
    latest: PgQuery -> Result<seq<KvRow>, Rejection>): (r: Result<LatestObject, Failure>)
    ensures GetDeviceIdFromToken(token, credentials).Err? ==> r == Err(GetDeviceIdFromToken(token, credentials).error)
    ensures GetDeviceIdFromToken(token, credentials).Ok? ==>
      var answer := latest(SelectLatest(name, GetDeviceIdFromToken(token, credentials).value));
      (answer.Err? ==> r == Err(DbRejected(answer.error))) &&
      (answer.Ok? ==> r == Ok(LatestOf(name, answer.value)))
  {
    match GetDeviceIdFromToken(token, credentials)
    case Err(f) => Err(f)
    case Ok(deviceId) =>
      match latest(SelectLatest(name, deviceId))
      case Err(e) => Err(DbRejected(e))
      case Ok(rows) => Ok(LatestOf(name, rows))
  }

  /** With a known token and a row, the answer has exactly the property and `ts`; with no row it is `{}`. */
  lemma LatestShape(token: string, name: string,
    credentials: PgQuery -> Result<seq<CredentialRow>, Rejection>,
    latest: PgQuery -> Result<seq<KvRow>, Rejection>)
    requires GetDeviceIdFromToken(token, credentials).Ok?
    requires latest(SelectLatest(name, GetDeviceIdFromToken(token, credentials).value)).Ok?
    ensures var rows := latest(SelectLatest(name, GetDeviceIdFromToken(token, credentials).value)).value;
      var r := GetLatest(token, name, credentials, latest);
      r.Ok? &&
      (rows == [] <==> r.value == map[]) &&
      (rows != [] ==> r.value.Keys == {name, "ts"} && r.value["ts"] == Some(VInt(rows[0].ts)))
  {
    var rows := latest(SelectLatest(name, GetDeviceIdFromToken(token, credentials).value)).value;
    if rows != [] {
      assert "ts" in LatestOf(name, rows);
    }
  }
}
