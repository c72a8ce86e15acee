/**
 * The Flux query builders of lib/middlewares/influxdb.js. A query is the
 * ordered sequence of its template lines; the escaping helpers of the
 * InfluxDB client (`fluxString`, `fluxDateTime`, `fluxDuration`, `fluxBool`,
 * `fluxInteger`, `fluxFloat`, `fluxExpression`) stay symbolic as the
 * constructors of `FluxParam`, so what a line holds is which helper wraps
 * which input.
 */
module Flux {
  import opened Wrappers
  import opened Text
  import opened FixIds

  /** A window length as the request carries it: a JSON number or a duration literal such as `1h`. */
  datatype Duration = DurationNumber(n: int) | DurationText(text: string)

  /** What `fluxBool` is applied to: a boolean, a string, or `undefined`. */
  datatype BoolArg = BoolLit(b: bool) | BoolText(text: string) | BoolUndefined

  /** One interpolated, escaped value. */
  datatype FluxParam =
    | FluxString(s: string)
    | FluxDateTime(s: string)
    | FluxDuration(d: Duration)
    | FluxBool(arg: BoolArg)
    | FluxInteger(text: string)
    | FluxFloat(text: string)
    | FluxExpression(text: string)
    /** `fluxExpression(undefined)`. */
    | FluxUndefinedExpression

  // ---------------------------------------------------------------- operators

  const OperatorNames: seq<string> := ["eq", "ne", "gt", "lt", "ge", "le"]
  const OperatorSymbols: seq<string> := ["==", "!=", ">", "<", ">=", "<="]

  /** `toFluxComparisonOperator(name)`: the switch; any other name falls through to `undefined`. */
  function ToFluxComparisonOperator(name: string): (r: Option<string>)
    ensures r.Some? <==> name in OperatorNames
    ensures forall i :: 0 <= i < |OperatorNames| && name == OperatorNames[i] ==> r == Some(OperatorSymbols[i])
  {
    match name
    case "eq" => Some("==")
    case "ne" => Some("!=")
    case "gt" => Some(">")
    case "lt" => Some("<")
    case "ge" => Some(">=")
    case "le" => Some("<=")
    case _ => None
  }

  /** The mapping is one-to-one: two names giving the same operator are the same name. */
  lemma ToFluxComparisonOperatorInjective(a: string, b: string)
    requires ToFluxComparisonOperator(a).Some?
    requires ToFluxComparisonOperator(a) == ToFluxComparisonOperator(b)
    ensures a == b
  {
    var i :| 0 <= i < |OperatorNames| && OperatorNames[i] == a;
    var j :| 0 <= j < |OperatorNames| && OperatorNames[j] == b;
    assert OperatorSymbols[i] == OperatorSymbols[j];
  }

  /** The operator as it is interpolated: `fluxExpression` of the switch's answer. */
  function OperatorParam(name: string): (p: FluxParam)
    ensures p == FluxUndefinedExpression <==> name !in OperatorNames
    ensures p.FluxExpression? ==> Some(p.text) == ToFluxComparisonOperator(name)
  {
    match ToFluxComparisonOperator(name)
    case None => FluxUndefinedExpression
    case Some(op) => FluxExpression(op)
  }

  // ------------------------------------------------------------ value guessing

  predicate IsDigit(c: char) {
    '0' <= c <= '9'
  }

  predicate AllDigits(s: string) {
    forall i :: 0 <= i < |s| ==> IsDigit(s[i])
  }

  /** The text without one leading sign. */
  function Unsigned(s: string): string {
    if |s| > 0 && (s[0] == '+' || s[0] == '-') then s[1..] else s
  }

  /**
   * A decimal literal: an optional sign, digits, and optionally a point and
   * more digits, with at least one digit in all (`5`, `-5.`, `.5`, `+1.50`).
   */
  predicate DecimalLiteral(s: string) {
    var parts := Split(Unsigned(s), '.');
    (|parts| == 1 && |parts[0]| >= 1 && AllDigits(parts[0])) ||
    (|parts| == 2 && |parts[0]| + |parts[1]| >= 1 && AllDigits(parts[0]) && AllDigits(parts[1]))
  }

  /** The fraction digits, if any, are all zero: `parseFloat` gives a whole number. */
  predicate IntegralText(s: string) {
    var parts := Split(Unsigned(s), '.');
    |parts| == 1 || forall i :: 0 <= i < |parts[1]| ==> parts[1][i] == '0'
  }

  /** `isNaN(value) === false` on this grammar: `Number("")` is 0, so the empty text is numeric too. */
  predicate NumericText(s: string) {
    s == "" || DecimalLiteral(s)
  }

  /**
   * `getFluxValue(value)`: numeric text becomes `fluxInteger` when it parses
   * to a whole number and `fluxFloat` otherwise (the empty text, which
   * `parseFloat` turns into NaN, among them); `true`/`false` become
   * `fluxBool`; anything else `fluxString`. The text itself is passed on.
   */
  function GetFluxValue(v: string): (r: FluxParam)
    ensures r.FluxInteger? <==> DecimalLiteral(v) && IntegralText(v)
    ensures r.FluxFloat? <==> v == "" || (DecimalLiteral(v) && !IntegralText(v))
    ensures r.FluxBool? <==> v == "true" || v == "false"
    ensures r.FluxString? <==> !NumericText(v) && v != "true" && v != "false"
    ensures r.FluxInteger? || r.FluxFloat? || r.FluxBool? || r.FluxString?
    ensures r in {FluxInteger(v), FluxFloat(v), FluxBool(BoolText(v)), FluxString(v)}
  {
    if NumericText(v) then
      if v != "" && IntegralText(v) then FluxInteger(v) else FluxFloat(v)
    else if v == "true" || v == "false" then FluxBool(BoolText(v))
    else FluxString(v)
  }

  /** Digits followed by a point and zeros still count as an integer. */
  lemma {:induction false} GetFluxValueTrailingZeros(d: string, z: string)
    requires |d| >= 1 && AllDigits(d)
    requires forall i :: 0 <= i < |z| ==> z[i] == '0'
    ensures GetFluxValue(d + "." + z) == FluxInteger(d + "." + z)
  {
    var s := d + "." + z;
    assert s[0] == d[0];
    assert Unsigned(s) == s;
    assert forall i :: 0 <= i < |d| ==> d[i] != '.' by {
      forall i | 0 <= i < |d| ensures d[i] != '.' { assert IsDigit(d[i]); }
    }
    assert forall i :: 0 <= i < |z| ==> z[i] != '.';
    assert s == d + ['.'] + z;
    SplitAfterFirst(d, '.', z);
    SplitWhole(z, '.');
    assert Split(Unsigned(s), '.') == [d, z];
  }

  /** `1.0` parses to a whole number, so it is sent as an integer. */
  lemma GetFluxValueOnePointZero()
    ensures GetFluxValue("1.0") == FluxInteger("1.0")
  {
    GetFluxValueTrailingZeros("1", "0");
    assert "1" + "." + "0" == "1.0";
  }

  /** The empty text is numeric to `isNaN` but NaN to `parseFloat`: a float. */
  lemma GetFluxValueEmpty()
    ensures GetFluxValue("") == FluxFloat("")
  {
  }

  /** A word that starts with a letter and has no point is not numeric. */
  lemma {:induction false} LetterWordNotNumeric(w: string)
    requires |w| >= 1 && ('a' <= w[0] <= 'z' || 'A' <= w[0] <= 'Z')
    requires '.' !in w
    ensures !NumericText(w)
  {
    SplitWhole(w, '.');
    assert Unsigned(w) == w;
    assert !IsDigit(w[0]);
  }

  /** Only the exact lower-case words are booleans. */
  lemma GetFluxValueBooleans()
    ensures GetFluxValue("true") == FluxBool(BoolText("true"))
    ensures GetFluxValue("false") == FluxBool(BoolText("false"))
    ensures GetFluxValue("True") == FluxString("True")
  {
    LetterWordNotNumeric("true");
    LetterWordNotNumeric("false");
    LetterWordNotNumeric("True");
  }

  // ----------------------------------------------------------------- fragments

  /** `createStopQuery(stop)`: the given stop as a date-time, or the expression `now()`. */
  function StopParam(stop: Option<string>): (p: FluxParam)
    ensures stop.None? <==> p == FluxExpression("now()")
    ensures stop.Some? ==> p == FluxDateTime(stop.value)
  {
    match stop
    case None => FluxExpression("now()")
    case Some(s) => FluxDateTime(s)
  }

  /** `createCreateEmptyQuery(createEmpty)`: `, createEmpty: <bool>` when given, an empty fragment (`None`) otherwise. */
  function CreateEmptyParam(createEmpty: Option<bool>): (p: Option<FluxParam>)
    ensures p.None? <==> createEmpty.None?
    ensures p.Some? ==> p.value == FluxBool(BoolLit(createEmpty.value))
  {
    match createEmpty
    case None => None
    case Some(b) => Some(FluxBool(BoolLit(b)))
  }

  /** `options.aggregateWindow` of a request. */
  datatype AggregateWindowOptions = AggregateWindowOptions(every: Option<Duration>, func: Option<string>, createEmpty: Option<bool>)

  /** What `createAggregateWindowQuery` returns. */
  datatype AggFragment =
    | AggregateEmpty
    /** The function falls off its end and returns `undefined`. */
    | AggregateUndefined
    /** `|> aggregateWindow(every: …, fn: …<createEmpty>)`. */
    | AggregateWindowCall(every: FluxParam, fn: FluxParam, createEmpty: Option<FluxParam>)

  /**
   * `createAggregateWindowQuery(options)`. The stage is built only when
   * `every === 0` (so the window it describes is always 0 long) and `func` is
   * defined; with `every === 0` and no `func` the result is `undefined`; any
   * other or missing `every` gives the empty fragment. No function name is
   * checked against a list.
   */
  function CreateAggregateWindowQuery(agg: Option<AggregateWindowOptions>): (f: AggFragment)
    ensures f.AggregateWindowCall? <==> agg.Some? && agg.value.every == Some(DurationNumber(0)) && agg.value.func.Some?
    ensures f == AggregateEmpty <==> agg.None? || agg.value.every != Some(DurationNumber(0))
    ensures f.AggregateWindowCall? ==>
      f.every == FluxDuration(DurationNumber(0)) &&
      f.fn == FluxExpression(agg.value.func.value) &&
      f.createEmpty == CreateEmptyParam(agg.value.createEmpty)
  {
    if agg.Some? && agg.value.every == Some(DurationNumber(0)) then
      match agg.value.func
      case Some(fn) => AggregateWindowCall(FluxDuration(agg.value.every.value), FluxExpression(fn), CreateEmptyParam(agg.value.createEmpty))
      case None => AggregateUndefined
    else AggregateEmpty
  }

  /** `options.window` of a count request. */
  datatype CountWindowOptions = CountWindowOptions(every: Option<Duration>, createEmpty: Option<bool>)

  datatype WindowFragment = NoWindow | WindowCall(every: FluxParam, createEmpty: FluxParam)

  /** `createCountWindow(window = {})`: a window stage exactly when `every` is defined; `createEmpty` is passed to `fluxBool` even when undefined. */
  function CreateCountWindow(window: Option<CountWindowOptions>): (f: WindowFragment)
    ensures f.WindowCall? <==> window.Some? && window.value.every.Some?
    ensures f.WindowCall? ==> f.every == FluxDuration(window.value.every.value)
    ensures f.WindowCall? ==> f.createEmpty == FluxBool(if window.value.createEmpty.Some? then BoolLit(window.value.createEmpty.value) else BoolUndefined)
  {
    match window
    case None => NoWindow
    case Some(w) =>
      match w.every
      case None => NoWindow
      case Some(e) =>
        var b := match w.createEmpty case None => BoolUndefined case Some(c) => BoolLit(c);
        WindowCall(FluxDuration(e), FluxBool(b))
  }

  // ------------------------------------------------------------------ filters

  /** One value filter of a request: `{ func, value }`. */
  datatype Filter = Filter(func: string, value: string)

  /** `|> filter(fn: (r) => r["_value"] <op> <value>)`. */
  datatype FilterLine = FilterLine(op: FluxParam, value: FluxParam)

  function FilterLineFor(f: Filter): FilterLine {
    FilterLine(OperatorParam(f.func), GetFluxValue(f.value))
  }

  function FilterLines(fs: seq<Filter>): (r: seq<FilterLine>)
    ensures |r| == |fs|
    ensures forall i :: 0 <= i < |fs| ==> r[i] == FilterLineFor(fs[i])
  {
    if |fs| == 0 then [] else [FilterLineFor(fs[0])] + FilterLines(fs[1..])
  }

  /** `createFilterQuery(filters = [])`: one line per filter, in order; none when absent. */
  function CreateFilterQuery(filters: Option<seq<Filter>>): (r: seq<FilterLine>)
    ensures filters.None? ==> r == []
    ensures filters.Some? ==> |r| == |filters.value|
    ensures filters.Some? ==> forall i :: 0 <= i < |r| ==>
      r[i].op == OperatorParam(filters.value[i].func) && r[i].value == GetFluxValue(filters.value[i].value)
  {
    match filters
    case None => []
    case Some(fs) => FilterLines(fs)
  }

  /** Filters compose: the lines of two filter lists are the lines of each, one after the other. */
  lemma {:induction false} CreateFilterQueryAppend(a: seq<Filter>, b: seq<Filter>)
    ensures CreateFilterQuery(Some(a + b)) == CreateFilterQuery(Some(a)) + CreateFilterQuery(Some(b))
  {
    var l := CreateFilterQuery(Some(a + b));
    var r := CreateFilterQuery(Some(a)) + CreateFilterQuery(Some(b));
    assert |l| == |r|;
    forall i | 0 <= i < |l|
      ensures l[i] == r[i]
    {
      if i < |a| {
        assert (a + b)[i] == a[i];
      } else {
        assert (a + b)[i] == b[i - |a|];
      }
    }
  }

  // ------------------------------------------------------------------ queries

  /** One line of a query template. */
  datatype Line =
    | FromLine(bucket: FluxParam)
    | RangeLine(start: FluxParam, stop: FluxParam)
    /** `|> filter(fn: (r) => r["_measurement"] == "property_raw")`. */
    | MeasurementLine
    | ThingLine(thing: FluxParam)
    | PropertyLine(property: FluxParam)
    /** `|> filter(fn: (r) => r["_measurement"] == "property_raw" and <selection>)`. */
    | MeasurementAndLine(selection: FluxParam)
    /** `fluxExpression` of the filter lines joined by `\r\n`. */
    | FiltersLine(filters: seq<FilterLine>)
    | AggregateLine(agg: AggFragment)
    | WindowLine(window: WindowFragment)
    /** `|> count()`. */
    | CountLine

  type Query = seq<Line>

  datatype TimeRange = TimeRange(start: string, stop: Option<string>)

  /** The query options of a request body or query string. */
  datatype QueryOptions = QueryOptions(
    range: TimeRange,
    filters: Option<seq<Filter>>,
    aggregateWindow: Option<AggregateWindowOptions>,
    window: Option<CountWindowOptions>,
    properties: seq<string>)

  function RangeFor(range: TimeRange): Line {
    RangeLine(FluxDateTime(range.start), StopParam(range.stop))
  }

  /**
   * `createQuery(thingId, propertyName, options)`: from the bucket, the range,
   * the `property_raw` measurement, the thing and the property, the value
   * filters, then the aggregate stage, in that order.
   */
  function CreateQuery(bucket: string, thingId: string, propertyName: string, options: QueryOptions): (q: Query)
    ensures |q| == 7
    ensures q[0] == FromLine(FluxString(bucket))
    ensures q[1] == RangeFor(options.range)
    ensures q[1].RangeLine? && q[1].start == FluxDateTime(options.range.start)
    ensures q[1].stop == FluxExpression("now()") <==> options.range.stop.None?
    ensures options.range.stop.Some? ==> q[1].stop == FluxDateTime(options.range.stop.value)
    ensures q[2] == MeasurementLine
    ensures q[3] == ThingLine(FluxString(thingId)) && q[4] == PropertyLine(FluxString(propertyName))
    ensures q[5] == FiltersLine(CreateFilterQuery(options.filters))
    ensures q[6] == AggregateLine(CreateAggregateWindowQuery(options.aggregateWindow))
  {
    [ FromLine(FluxString(bucket)),
      RangeFor(options.range),
      MeasurementLine,
      ThingLine(FluxString(thingId)),
      PropertyLine(FluxString(propertyName)),
      FiltersLine(CreateFilterQuery(options.filters)),
      AggregateLine(CreateAggregateWindowQuery(options.aggregateWindow)) ]
  }

  /**
   * `createCountQuery(thingId, propertyName, options)`: the first six lines of
   * `createQuery`, then the window stage (empty unless `window.every` is
   * defined), then `|> count()`.
   */
  function CreateCountQuery(bucket: string, thingId: string, propertyName: string, options: QueryOptions): (q: Query)
    ensures |q| == 8 && q[7] == CountLine
    ensures q[6] == WindowLine(CreateCountWindow(options.window))
    ensures q[6].window.WindowCall? <==> options.window.Some? && options.window.value.every.Some?
  {
    [ FromLine(FluxString(bucket)),
      RangeFor(options.range),
      MeasurementLine,
      ThingLine(FluxString(thingId)),
      PropertyLine(FluxString(propertyName)),
      FiltersLine(CreateFilterQuery(options.filters)),
      WindowLine(CreateCountWindow(options.window)),
      CountLine ]
  }

  /** A count query selects the same rows as the history query: their first six lines agree. */
  lemma CountQuerySharesSelection(bucket: string, thingId: string, propertyName: string, options: QueryOptions)
    ensures CreateCountQuery(bucket, thingId, propertyName, options)[..6] == CreateQuery(bucket, thingId, propertyName, options)[..6]
  {
  }

  /** The aggregate options change only the last line of a history query. */
  lemma CreateQueryAggregateOnlyLast(bucket: string, thingId: string, propertyName: string, o1: QueryOptions, o2: QueryOptions)
    requires o1.range == o2.range && o1.filters == o2.filters
    ensures CreateQuery(bucket, thingId, propertyName, o1)[..6] == CreateQuery(bucket, thingId, propertyName, o2)[..6]
  {
  }

  // -------------------------------------------------------- properties query

  /** The query cannot be built: the capture of this property failed (`exec` returned null). */
  datatype BuildError = NoPropertiesSegment(property: string)

  const PropertiesSep: string := "/properties/"

  /**
   * `/^(.*)\/properties\/(.*)$/.exec(property)`: both groups match no line
   * terminator, and the greedy first group makes the split fall at the LAST
   * `/properties/`.
   */
  function SplitProperty(property: string): (r: Option<(string, string)>)
    ensures r.Some? <==> NoLineTerminator(property) && Contains(property, PropertiesSep)
    ensures r.Some? ==> property == r.value.0 + PropertiesSep + r.value.1
    ensures r.Some? ==> forall j: nat :: |r.value.0| < j ==> !OccursAt(property, PropertiesSep, j)
  {
    if NoLineTerminator(property) then SplitLast(property, PropertiesSep) else None
  }

  /** The split is the one at the last separator, wherever a separator stands in the thing id. */
  lemma SplitPropertyOf(thingId: string, key: string)
    requires NoLineTerminator(thingId + PropertiesSep + key)
    requires forall j: nat :: |thingId| < j ==> !OccursAt(thingId + PropertiesSep + key, PropertiesSep, j)
    ensures SplitProperty(thingId + PropertiesSep + key) == Some((thingId, key))
  {
    SplitLastOf(thingId, PropertiesSep, key);
  }

  /** `( r["thingId"] == "<thing>" and r["propertyId"] == "<key>" )`, interpolated without escaping. */
  function Clause(thingId: string, key: string): string {
    "( r[\"thingId\"] == \"" + thingId + "\" and r[\"propertyId\"] == \"" + key + "\" )"
  }

  /** The clause of one property, or `None` when its capture fails. */
  function PropertyClause(property: string): (c: Option<string>)
    ensures c.Some? <==> SplitProperty(property).Some?
  {
    match SplitProperty(property)
    case None => None
    case Some(pair) => Some(Clause(FixThingId(pair.0), pair.1))
  }

  /** What `clause` gives for each property in order, or the first property it gives nothing for. */
  function Captured(properties: seq<string>, clause: string -> Option<string>): (r: Result<seq<string>, BuildError>)
    ensures r.Ok? <==> forall i :: 0 <= i < |properties| ==> clause(properties[i]).Some?
    ensures r.Ok? ==> |r.value| == |properties|
    ensures r.Ok? ==> forall i :: 0 <= i < |properties| ==> r.value[i] == clause(properties[i]).value
    ensures r.Err? ==>
      exists i :: 0 <= i < |properties| && r.error == NoPropertiesSegment(properties[i]) &&
        clause(properties[i]).None? &&
        (forall j :: 0 <= j < i ==> clause(properties[j]).Some?)
  {
    if |properties| == 0 then Ok([])
    else
      match clause(properties[0])
      case None => Err(NoPropertiesSegment(properties[0]))
      case Some(c) =>
        match Captured(properties[1..], clause)
        case Err(e) =>
          assert forall j :: 1 <= j < |properties| ==> properties[1..][j - 1] == properties[j];
          Err(e)
        case Ok(rest) =>
          assert forall j :: 1 <= j < |properties| ==> properties[1..][j - 1] == properties[j];
          Ok([c] + rest)
  }

  /** `properties.map(...)`: the clauses of the properties in order, or the first property that has no capture. */
  function PropertyClauses(properties: seq<string>): Result<seq<string>, BuildError> {
    Captured(properties, PropertyClause)
  }

  /**
   * `createPropertiesQuery(options)`: from, range, one measurement filter
   * whose selection is the clauses joined by ` or `, the value filters and the
   * aggregate stage. A property without `/properties/` makes it throw.
   */
  function CreatePropertiesQuery(bucket: string, options: QueryOptions): (r: Result<Query, BuildError>)
    ensures r.Err? <==> PropertyClauses(options.properties).Err?
    ensures r.Err? ==> r.error == PropertyClauses(options.properties).error
    ensures r.Ok? ==> |r.value| == 5 && r.value[0] == FromLine(FluxString(bucket)) && r.value[1] == RangeFor(options.range)
    ensures r.Ok? ==> r.value[2] == MeasurementAndLine(FluxExpression(Join(PropertyClauses(options.properties).value, " or ")))
    ensures r.Ok? ==> r.value[3] == FiltersLine(CreateFilterQuery(options.filters))
    ensures r.Ok? ==> r.value[4] == AggregateLine(CreateAggregateWindowQuery(options.aggregateWindow))
  {
    match PropertyClauses(options.properties)
    case Err(e) => Err(e)
    case Ok(clauses) =>
      Ok([ FromLine(FluxString(bucket)),
           RangeFor(options.range),
           MeasurementAndLine(FluxExpression(Join(clauses, " or "))),
           FiltersLine(CreateFilterQuery(options.filters)),
           AggregateLine(CreateAggregateWindowQuery(options.aggregateWindow)) ])
  }

  /** An empty property list is not rejected: it yields an empty selection. */
  lemma PropertiesQueryEmptyList(bucket: string, options: QueryOptions)
    requires options.properties == []
    ensures CreatePropertiesQuery(bucket, options).Ok?
    ensures CreatePropertiesQuery(bucket, options).value[2] == MeasurementAndLine(FluxExpression(""))
  {
  }

  /** One more property that has a clause adds it at the end. */
  lemma CapturedSnoc(ps: seq<string>, p: string, clause: string -> Option<string>)
    requires Captured(ps, clause).Ok? && clause(p).Some?
    ensures Captured(ps + [p], clause) == Ok(Captured(ps, clause).value + [clause(p).value])
  {
    var qs := ps + [p];
    assert forall i :: 0 <= i < |ps| ==> qs[i] == ps[i];
    assert qs[|ps|] == p;
    var r := Captured(qs, clause).value;
    assert r == Captured(ps, clause).value + [clause(p).value];
  }

  /** One more property adds ` or ` and its clause at the end of the selection. */
  lemma PropertyClausesSnoc(ps: seq<string>, p: string)
    requires |ps| >= 1 && PropertyClauses(ps).Ok? && SplitProperty(p).Some?
    ensures PropertyClauses(ps + [p]).Ok?
    ensures Join(PropertyClauses(ps + [p]).value, " or ") ==
      Join(PropertyClauses(ps).value, " or ") + " or " + Clause(FixThingId(SplitProperty(p).value.0), SplitProperty(p).value.1)
  {
    CapturedSnoc(ps, p, PropertyClause);
    JoinSnoc(PropertyClauses(ps).value, PropertyClause(p).value, " or ");
  }

  /**
   * The key after the last `/properties/` reaches the query text verbatim: a
   * key holding quotes changes the selection expression itself.
   */
  lemma PropertyKeyInterpolatedRaw(thingId: string, key: string)
    requires NoLineTerminator(thingId + PropertiesSep + key)
    requires forall j: nat :: |thingId| < j ==> !OccursAt(thingId + PropertiesSep + key, PropertiesSep, j)
    ensures PropertyClauses([thingId + PropertiesSep + key]) == Ok([Clause(FixThingId(thingId), key)])
    ensures Contains(Clause(FixThingId(thingId), key), key)
  {
    SplitPropertyOf(thingId, key);
    var ps := [thingId + PropertiesSep + key];
    assert ps[1..] == [];
    assert PropertyClauses(ps[1..]) == Ok([]);
    assert PropertyClauses(ps) == Ok([Clause(FixThingId(thingId), key)] + []);
    assert [Clause(FixThingId(thingId), key)] + [] == [Clause(FixThingId(thingId), key)];
    var pre := "( r[\"thingId\"] == \"" + FixThingId(thingId) + "\" and r[\"propertyId\"] == \"";
    var c := Clause(FixThingId(thingId), key);
    assert c == pre + key + "\" )";
    assert c[|pre|..|pre| + |key|] == key;
    assert OccursAt(c, key, |pre|);
  }
}
