/**
 * The Cassandra history route, lib/routes/query.js: property ids are parsed
 * with a regular expression (non-matching ones are dropped), the registry
 * says which things may be read, a CSV header is written, and every row of
 * every permitted property is written as one CSV line. The registry call
 * (`fetch`) and the Cassandra client are oracles.
 */
module History {
  import opened Wrappers
  import opened Text
  import opened HttpErrors
  import opened Express
  import opened KvRows

  // ------------------------------------------------------------ value column

  /**
   * `getValueFromRow(row)`: the loop over `bool_v, dbl_v, json_v, long_v,
   * str_v` that returns the first column that is not null, and `undefined`
   * (`None`) when every column is null.
   */
  method GetValueFromRow(row: KvRow) returns (v: Option<string>)
    ensures v.None? <==> AllNull(row)
    ensures v.Some? ==> exists i :: FirstNonNullAt(row, i) && v == Cell(row, PriorityOrder[i])
  {
    var i := 0;
    while i < |PriorityOrder|
      invariant 0 <= i <= |PriorityOrder|
      invariant forall j :: 0 <= j < i ==> Cell(row, PriorityOrder[j]).None?
    {
      var cell := Cell(row, PriorityOrder[i]);
      if cell.Some? {
        assert FirstNonNullAt(row, i);
        return cell;
      }
      i := i + 1;
    }
    return None;
  }

  /** The same search as a function, for the specifications below. */
  function FirstNonNull(row: KvRow): (v: Option<string>)
    ensures v.None? <==> AllNull(row)
    ensures v.Some? ==> exists i :: FirstNonNullAt(row, i) && v == Cell(row, PriorityOrder[i])
  {
    if row.boolV.Some? then assert FirstNonNullAt(row, 0); row.boolV
    else if row.dblV.Some? then assert FirstNonNullAt(row, 1); row.dblV
    else if row.jsonV.Some? then assert FirstNonNullAt(row, 2); row.jsonV
    else if row.longV.Some? then assert FirstNonNullAt(row, 3); row.longV
    else if row.strV.Some? then assert FirstNonNullAt(row, 4); row.strV
    else None
  }

  /** The loop and the function agree: there is one first non-null column. */
  lemma GetValueFromRowIsFirstNonNull(row: KvRow, v: Option<string>)
    requires v.None? <==> AllNull(row)
    requires v.Some? ==> exists i :: FirstNonNullAt(row, i) && v == Cell(row, PriorityOrder[i])
    ensures v == FirstNonNull(row)
  {
    if v.Some? {
      var i :| FirstNonNullAt(row, i) && v == Cell(row, PriorityOrder[i]);
      var w := FirstNonNull(row);
      var k :| FirstNonNullAt(row, k) && w == Cell(row, PriorityOrder[k]);
      FirstNonNullUnique(row, i, k);
    }
  }

  // --------------------------------------------------------- property ids

  predicate IsNidStart(c: char) {
    ('a' <= c <= 'z') || ('0' <= c <= '9')
  }

  predicate IsNidChar(c: char) {
    IsNidStart(c) || c == '-'
  }

  /** `[a-z0-9][a-z0-9-]{0,31}`: a namespace id of 1 to 32 characters. */
  predicate ValidNid(nid: string) {
    1 <= |nid| <= 32 && IsNidStart(nid[0]) && forall i :: 0 <= i < |nid| ==> IsNidChar(nid[i])
  }

  /** The groups of a matched property id: `urn:<nid>:<entityId>` is the thing id, then `/properties/<key>`. */
  datatype PropertyRef = PropertyRef(nid: string, entityId: string, key: string)

  /** Capture group 1, the thing id sent to the registry. */
  function ThingId(r: PropertyRef): string {
    "urn:" + r.nid + ":" + r.entityId
  }

  const PropertiesSep: string := "/properties/"

  /** The whole matched text. */
  function PropertyText(r: PropertyRef): string {
    ThingId(r) + PropertiesSep + r.key
  }

  /**
   * `property.match(/^(urn:[a-z0-9][a-z0-9-]{0,31}:(.*))\/properties\/(.*)$/)`.
   * No group matches a line terminator; the namespace id ends at the first
   * `:` after `urn:`; the greedy second group makes the split fall at the
   * last `/properties/`.
   */
  function MatchProperty(s: string): (m: Option<PropertyRef>)
    ensures m.Some? ==> NoLineTerminator(s) && ValidNid(m.value.nid) && s == PropertyText(m.value)
    ensures m.Some? ==> NoSepAfter(s, |ThingId(m.value)|)
  {
    if !NoLineTerminator(s) || |s| < 4 || s[..4] != "urn:" then None
    else
      var t := s[4..];
      match IndexOf(t, ":")
      case None => None
      case Some(k) =>
        var nid := t[..k];
        if !ValidNid(nid) then None
        else
          match SplitLast(t[k + 1..], PropertiesSep)
          case None => None
          case Some(pair) =>
            assert t == s[4..];
            MatchedParts(s, k, pair);
            Some(PropertyRef(nid, pair.0, pair.1))
  }

  /** The groups found by the match rebuild the text, and nothing after the thing id is a separator. */
  lemma MatchedParts(s: string, k: nat, pair: (string, string))
    requires |s| >= 4 && s[..4] == "urn:" && IndexOf(s[4..], ":") == Some(k)
    requires k < |s[4..]| && SplitLast(s[4..][k + 1..], PropertiesSep) == Some(pair)
    ensures s == PropertyText(PropertyRef(s[4..][..k], pair.0, pair.1))
    ensures NoSepAfter(s, |ThingId(PropertyRef(s[4..][..k], pair.0, pair.1))|)
  {
    var t := s[4..];
    var rest := t[k + 1..];
    var r := PropertyRef(t[..k], pair.0, pair.1);
    assert t[k..k + 1] == ":";
    assert t == t[..k] + ":" + rest;
    assert rest == r.entityId + PropertiesSep + r.key;
    assert s == "urn:" + t;
    Rebuilt(r, t, rest);
    LaterOccurrences(r, s);
  }

  lemma Rebuilt(r: PropertyRef, t: string, rest: string)
    requires t == r.nid + ":" + rest && rest == r.entityId + PropertiesSep + r.key
    ensures "urn:" + t == PropertyText(r)
  {
    calc {
      "urn:" + t;
      "urn:" + (r.nid + ":" + (r.entityId + PropertiesSep + r.key));
      { Assoc("urn:", r.nid + ":", r.entityId + PropertiesSep + r.key); }
      "urn:" + (r.nid + ":") + (r.entityId + PropertiesSep + r.key);
      { Assoc("urn:", r.nid, ":"); }
      ("urn:" + r.nid + ":") + (r.entityId + PropertiesSep + r.key);
      { Assoc("urn:" + r.nid + ":", r.entityId + PropertiesSep, r.key);
        Assoc("urn:" + r.nid + ":", r.entityId, PropertiesSep); }
      PropertyText(r);
    }
  }

  /** No `/properties/` starts in `s` after index `k`. */
  ghost predicate NoSepAfter(s: string, k: nat) {
    forall j: nat :: k < j ==> !OccursAt(s, PropertiesSep, j)
  }

  /** An occurrence of `/properties/` past the thing id lies in the text after `urn:<nid>:`. */
  lemma LaterOccurrences(r: PropertyRef, s: string)
    requires s == PropertyText(r)
    requires NoSepAfter(s[|r.nid| + 5..], |r.entityId|)
    ensures NoSepAfter(s, |ThingId(r)|)
  {
    var n := |r.nid| + 5;
    forall j: nat | |ThingId(r)| < j
      ensures !OccursAt(s, PropertiesSep, j)
    {
      if OccursAt(s, PropertiesSep, j) {
        assert s[n..][j - n..j - n + |PropertiesSep|] == s[j..j + |PropertiesSep|];
        assert OccursAt(s[n..], PropertiesSep, j - n);
      }
    }
  }

  /**
   * Every property id of that form is matched, with the groups it was built
   * from, whatever the entity id holds (including `/properties/`).
   */
  lemma {:induction false} MatchPropertyComplete(r: PropertyRef)
    requires ValidNid(r.nid) && NoLineTerminator(PropertyText(r))
    requires NoSepAfter(PropertyText(r), |ThingId(r)|)
    ensures MatchProperty(PropertyText(r)) == Some(r)
  {
    var s := PropertyText(r);
    var rest := r.entityId + PropertiesSep + r.key;
    var t := r.nid + ":" + rest;
    Rebuilt(r, t, rest);
    assert s[..4] == "urn:" && s[4..] == t;
    FirstColon(r.nid, rest);
    assert t[..|r.nid|] == r.nid && t[|r.nid| + 1..] == rest;
    RestHasNoLaterSep(r);
    SplitLastOf(r.entityId, PropertiesSep, r.key);
  }

  /** A namespace id holds no `:`, so the first `:` after it is the one that ends it. */
  lemma FirstColon(nid: string, rest: string)
    requires ValidNid(nid)
    ensures IndexOf(nid + ":" + rest, ":") == Some(|nid|)
  {
    var t := nid + ":" + rest;
    assert t[|nid|..|nid| + 1] == ":";
    assert OccursAt(t, ":", |nid|);
    assert forall k :: 0 <= k < |nid| ==> t[k] == nid[k] && IsNidChar(nid[k]);
  }

  /** The text after `urn:<nid>:` has no separator past the entity id either. */
  lemma RestHasNoLaterSep(r: PropertyRef)
    requires NoSepAfter(PropertyText(r), |ThingId(r)|)
    ensures forall j: nat :: |r.entityId| < j ==> !OccursAt(r.entityId + PropertiesSep + r.key, PropertiesSep, j)
  {
    var s := PropertyText(r);
    var rest := r.entityId + PropertiesSep + r.key;
    var n := |r.nid| + 5;
    Rebuilt(r, r.nid + ":" + rest, rest);
    assert s[n..] == rest;
    forall j: nat | |r.entityId| < j
      ensures !OccursAt(rest, PropertiesSep, j)
    {
      if OccursAt(rest, PropertiesSep, j) {
        assert s[n + j..n + j + |PropertiesSep|] == rest[j..j + |PropertiesSep|];
        assert OccursAt(s, PropertiesSep, n + j);
      }
    }
  }

  /** `.map(matcher).filter(Boolean)`: the results of the ids that match, in order. */
  function Kept(properties: seq<string>, matcher: string -> Option<PropertyRef>): (refs: seq<PropertyRef>)
    ensures |refs| <= |properties|
  {
    if |properties| == 0 then []
    else
      var rest := Kept(properties[1..], matcher);
      match matcher(properties[0])
      case None => rest
      case Some(r) => [r] + rest
  }

  /** A result is kept exactly when some id yields it; an id that yields nothing is dropped without an error. */
  lemma {:induction false} KeptMembers(properties: seq<string>, matcher: string -> Option<PropertyRef>, r: PropertyRef)
    ensures r in Kept(properties, matcher) <==> exists i :: 0 <= i < |properties| && matcher(properties[i]) == Some(r)
    decreases |properties|
  {
    if |properties| > 0 {
      KeptMembers(properties[1..], matcher, r);
      assert forall i :: 1 <= i < |properties| ==> properties[1..][i - 1] == properties[i];
    }
  }

  /**
   * Order is kept: the results of two lists of ids, one after the other, are
   * the results of the first list followed by those of the second. With
   * `KeptOne` this pins `Kept` down as the in-order list of present results.
   */
  lemma {:induction false} KeptAppend(a: seq<string>, b: seq<string>, matcher: string -> Option<PropertyRef>)
    ensures Kept(a + b, matcher) == Kept(a, matcher) + Kept(b, matcher)
    decreases |a|
  {
    if |a| > 0 {
      assert (a + b)[0] == a[0];
      assert (a + b)[1..] == a[1..] + b;
      KeptAppend(a[1..], b, matcher);
    } else {
      assert a + b == b;
    }
  }

  /** One id contributes its own result, or nothing when it does not match. */
  lemma KeptOne(p: string, matcher: string -> Option<PropertyRef>)
    ensures Kept([p], matcher) == if matcher(p).Some? then [matcher(p).value] else []
  {
    assert [p][1..] == [];
  }

  /** The property ids of the request that match the pattern, as their groups. */
  function MatchAll(properties: seq<string>): seq<PropertyRef> {
    Kept(properties, MatchProperty)
  }

  /** The kept groups are exactly those of the ids that match. */
  lemma MatchAllMembers(properties: seq<string>, r: PropertyRef)
    ensures r in MatchAll(properties) <==> exists i :: 0 <= i < |properties| && MatchProperty(properties[i]) == Some(r)
  {
    KeptMembers(properties, MatchProperty, r);
  }

  /** `propertyIds.map(p => p[1])`. */
  function ThingIds(refs: seq<PropertyRef>): (ids: seq<string>)
    ensures |ids| == |refs| && forall i :: 0 <= i < |refs| ==> ids[i] == ThingId(refs[i])
  {
    if |refs| == 0 then [] else [ThingId(refs[0])] + ThingIds(refs[1..])
  }

  /** `.filter(p => thingIds.includes(p[1]))`: the properties of permitted things, in order. */
  function Permitted(refs: seq<PropertyRef>, thingIds: seq<string>): (ps: seq<PropertyRef>)
    ensures forall r :: r in ps <==> r in refs && ThingId(r) in thingIds
    ensures |ps| <= |refs|
  {
    if |refs| == 0 then []
    else
      var rest := Permitted(refs[1..], thingIds);
      assert forall r :: r in refs <==> r == refs[0] || r in refs[1..];
      if ThingId(refs[0]) in thingIds then [refs[0]] + rest else rest
  }

  // -------------------------------------------------------------- Cassandra

  /**
   * A prepared CQL statement of `queryData`: the partition it names and the
   * bound parameters. Its text is a function of the partition alone.
   */
  datatype CqlQuery = SelectKv(partition: nat, params: seq<string>)

  /** The statement of `queryData` for the configured partition. */
  function SelectStatement(partition: nat): string {
    "SELECT * FROM thingsboard.ts_kv_cf WHERE entity_id=? AND key=? AND entity_type='DEVICE' AND partition=" + NatToString(partition) + ";"
  }

  function StatementText(q: CqlQuery): string {
    SelectStatement(q.partition)
  }

  /**
   * `queryData(entityId, key, res)`: the entity id and the key travel as
   * bound parameters, in that order; the configured partition is the only
   * value placed into the text.
   */
  function QueryData(partition: nat, entityId: string, key: string): (q: CqlQuery)
    ensures q.params == [entityId, key] && q.partition == partition
  {
    SelectKv(partition, [entityId, key])
  }

  /** However the entity id and key are chosen, the statement text is the same. */
  lemma QueryTextIndependentOfInput(partition: nat, e1: string, k1: string, e2: string, k2: string)
    ensures StatementText(QueryData(partition, e1, k1)) == StatementText(QueryData(partition, e2, k2)) == SelectStatement(partition)
  {
  }

  /** `${value}` of a template literal: `undefined` for a missing value. */
  function Rendered(v: Option<string>): string {
    match v
    case None => "undefined"
    case Some(s) => s
  }

  /** The property id a line names: always under `urn:uri:`, whatever namespace the request used. */
  function LineId(row: KvRow): string {
    "urn:uri:" + row.entityId + "/properties/" + row.key
  }

  /** `${row.ts},urn:uri:${row.entity_id}/properties/${row.key},${getValueFromRow(row)}\n`. */
  function HistoryLine(row: KvRow): string {
    row.ts + "," + (LineId(row) + "," + (Rendered(FirstNonNull(row)) + "\n"))
  }

  const CsvHeader: string := "timestamp,property_id,value\n"

  /**
   * A line has the three fields of the header: the timestamp, the property id
   * rebuilt under `urn:uri:`, and the value, when none of them holds a comma.
   */
  lemma {:induction false} HistoryLineFields(row: KvRow)
    requires ',' !in row.ts && ',' !in row.entityId && ',' !in row.key
    requires ',' !in Rendered(FirstNonNull(row))
    ensures Split(HistoryLine(row), ',') == [row.ts, LineId(row), Rendered(FirstNonNull(row)) + "\n"]
  {
    var v := Rendered(FirstNonNull(row)) + "\n";
    assert ',' !in "urn:uri:" && ',' !in "/properties/" && ',' !in "\n";
    assert ',' !in LineId(row);
    assert ',' !in v;
    SplitAfterFirst(row.ts, ',', LineId(row) + "," + v);
    SplitAfterFirst(LineId(row), ',', v);
    SplitWhole(v, ',');
  }

  /** The lines of a batch of rows, one per row, in the order the client delivers them. */
  function HistoryLines(rows: seq<KvRow>): seq<string> {
    seq(|rows|, i requires 0 <= i < |rows| => HistoryLine(rows[i]))
  }

  /** One more row adds its line at the end. */
  lemma HistoryLinesSnoc(rows: seq<KvRow>, j: nat)
    requires j < |rows|
    ensures HistoryLines(rows[..j + 1]) == HistoryLines(rows[..j]) + [HistoryLine(rows[j])]
  {
    var ls := HistoryLines(rows[..j]) + [HistoryLine(rows[j])];
    assert |ls| == j + 1;
    forall i | 0 <= i <= j
      ensures HistoryLines(rows[..j + 1])[i] == ls[i]
    {
      assert rows[..j + 1][i] == rows[i];
    }
  }

  /** What the client answers to the query of each permitted property, in order. */
  function Answers(todo: seq<PropertyRef>, partition: nat, rowsOf: CqlQuery -> Result<seq<KvRow>, Rejection>): (answers: seq<Result<seq<KvRow>, Rejection>>)
    ensures |answers| == |todo|
  {
    if |todo| == 0 then []
    else [rowsOf(QueryData(partition, todo[0].entityId, todo[0].key))] + Answers(todo[1..], partition, rowsOf)
  }

  /** The i-th answer is the client's answer to the i-th property's query. */
  lemma {:induction false} AnswersAt(todo: seq<PropertyRef>, partition: nat, rowsOf: CqlQuery -> Result<seq<KvRow>, Rejection>, i: nat)
    requires i < |todo|
    ensures Answers(todo, partition, rowsOf)[i] == rowsOf(QueryData(partition, todo[i].entityId, todo[i].key))
    decreases i
  {
    if i > 0 {
      AnswersAt(todo[1..], partition, rowsOf, i - 1);
    }
  }

  /**
   * The lines of all answers, one property after the other, or the first
   * rejection of the client.
   */
  function Collected(answers: seq<Result<seq<KvRow>, Rejection>>): Result<seq<string>, Rejection> {
    if |answers| == 0 then Ok([])
    else
      match Collected(answers[..|answers| - 1])
      case Err(e) => Err(e)
      case Ok(lines) =>
        match answers[|answers| - 1]
        case Err(e) => Err(e)
        case Ok(rows) => Ok(lines + HistoryLines(rows))
  }

  /** All lines are collected exactly when every query succeeds. */
  lemma {:induction false} CollectedOk(answers: seq<Result<seq<KvRow>, Rejection>>)
    ensures Collected(answers).Ok? <==> forall i :: 0 <= i < |answers| ==> answers[i].Ok?
    decreases |answers|
  {
    if |answers| > 0 {
      var init := answers[..|answers| - 1];
      CollectedOk(init);
      assert forall i :: 0 <= i < |init| ==> init[i] == answers[i];
    }
  }

  /** On success the lines are those of each property's rows, property by property. */
  lemma {:induction false} CollectedLines(answers: seq<Result<seq<KvRow>, Rejection>>, i: nat)
    requires Collected(answers).Ok? && i < |answers|
    ensures answers[i].Ok?
    ensures multiset(HistoryLines(answers[i].value)) <= multiset(Collected(answers).value)
    decreases |answers|
  {
    CollectedOk(answers);
    var init := answers[..|answers| - 1];
    if i < |answers| - 1 {
      CollectedOk(init);
      assert init[i] == answers[i];
      CollectedLines(init, i);
    }
  }

  /** A rejected query makes the whole collection fail. */
  lemma CollectedStops(answers: seq<Result<seq<KvRow>, Rejection>>, i: nat)
    requires i < |answers| && answers[i].Err?
    ensures Collected(answers).Err?
  {
    CollectedOk(answers);
  }

  /** One more successful query adds its lines at the end. */
  lemma CollectedStep(answers: seq<Result<seq<KvRow>, Rejection>>, i: nat)
    requires i < |answers| && Collected(answers[..i]).Ok? && answers[i].Ok?
    ensures Collected(answers[..i + 1]) == Ok(Collected(answers[..i]).value + HistoryLines(answers[i].value))
  {
    assert answers[..i + 1][..i] == answers[..i];
  }

  /** The registry request of `checkPermissionsForThings`: the thing ids, scope `history`, the bearer token. */
  datatype PermissionRequest = PermissionRequest(thingIds: seq<string>, scope: string, token: string)

  /** The response of the history route. */
  class HistoryResponse {
    /** The `Content-Type` header, once set. */
    var contentType: Option<string>
    /** Every `res.write`, in order. */
    var output: seq<string>
    var status: Option<int>
    var ended: bool
    /** Calls of `next`. */
    var nexts: seq<NextArg>

    constructor ()
      ensures contentType.None? && output == [] && status.None? && !ended && nexts == []
    {
      contentType := None;
      output := [];
      status := None;
      ended := false;
      nexts := [];
    }
  }

  /** The `eachRow` callback, once per row of one query. */
  method WriteLines(res: HistoryResponse, rows: seq<KvRow>)
    modifies res`output
    ensures res.output == old(res.output) + HistoryLines(rows)
  {
    var j := 0;
    while j < |rows|
      invariant 0 <= j <= |rows|
      invariant res.output == old(res.output) + HistoryLines(rows[..j])
    {
      Assoc(old(res.output), HistoryLines(rows[..j]), [HistoryLine(rows[j])]);
      res.output := res.output + [HistoryLine(rows[j])];
      HistoryLinesSnoc(rows, j);
      j := j + 1;
    }
    assert rows[..j] == rows;
  }

  /**
   * The `eachRow` loops of the permitted properties' queries, one after the
   * other, given what the client answers to each; `false` at the first
   * rejection, after which nothing more is written.
   */
  method QueryAll(res: HistoryResponse, answers: seq<Result<seq<KvRow>, Rejection>>) returns (ok: bool)
    modifies res`output
    ensures ok ==> Collected(answers).Ok? && res.output == old(res.output) + Collected(answers).value
    ensures !ok ==> Collected(answers).Err?
    ensures old(res.output) <= res.output
  {
    var i := 0;
    ghost var lines: seq<string> := [];
    while i < |answers|
      invariant 0 <= i <= |answers|
      invariant Collected(answers[..i]) == Ok(lines)
      invariant res.output == old(res.output) + lines
      invariant old(res.output) <= res.output
    {
      var rows := answers[i];
      if rows.Err? {
        CollectedStops(answers, i);
        return false;
      }
      CollectedStep(answers, i);
      WriteLines(res, rows.value);
      Assoc(old(res.output), lines, HistoryLines(rows.value));
      lines := lines + HistoryLines(rows.value);
      i := i + 1;
    }
    assert answers[..i] == answers;
    return true;
  }

  /**
   * The part of `get` after the registry granted: the CSV header, then the
   * queries; on success status 200 and the end of the response, on the first
   * rejection `next(InsufficientPermissions)`.
   */
  method Serve(res: HistoryResponse, answers: seq<Result<seq<KvRow>, Rejection>>)
    modifies res
    ensures res.contentType == Some("text/csv")
    ensures |res.output| > |old(res.output)| && res.output[..|old(res.output)| + 1] == old(res.output) + [CsvHeader]
    ensures Collected(answers).Ok? ==>
      res.output[|old(res.output)| + 1..] == Collected(answers).value &&
      res.status == Some(200) && res.ended && res.nexts == old(res.nexts)
    ensures Collected(answers).Err? ==>
      res.status == old(res.status) && res.ended == old(res.ended) && res.nexts == old(res.nexts) + [Deny()]
  {
    res.contentType := Some("text/csv");
    res.output := res.output + [CsvHeader];
    ghost var written := res.output;
    var ok := QueryAll(res, answers);
    assert res.output[..|written|] == written;
    if !ok {
      res.nexts := res.nexts + [Deny()];
      return;
    }
    assert res.output[|old(res.output)| + 1..] == Collected(answers).value;
    res.status := Some(200);
    res.ended := true;
  }

  /**
   * `get(req, res, next)`. `properties` is the `property` query parameter and
   * `token` is `req.auth.access_token.token`, `None` when missing (reading
   * them then throws). `evalPermissions` is the registry call and yields
   * the permitted thing ids, or `Err` when the response is not ok or the call
   * fails; `rowsOf` is the Cassandra client. A failure of either ends in
   * `next(InsufficientPermissions)`; a registry failure before anything is
   * written, a query failure after the header. On success the header comes
   * first and then, in some order (the queries run concurrently), exactly the
   * lines of the rows of the permitted properties.
   */
  method Get(res: HistoryResponse, properties: Option<seq<string>>, token: Option<string>, partition: nat,
             evalPermissions: PermissionRequest -> Result<seq<string>, Rejection>,
             rowsOf: CqlQuery -> Result<seq<KvRow>, Rejection>)
    modifies res
    // no `property` parameter, or no `req.auth`: a throw before the registry call
    ensures properties.None? || token.None? ==>
      res.output == old(res.output) && res.contentType == old(res.contentType) &&
      res.status == old(res.status) && res.ended == old(res.ended) && res.nexts == old(res.nexts) + [Deny()]
    ensures properties.Some? && token.Some? ==>
      var granted := evalPermissions(PermissionRequest(ThingIds(MatchAll(properties.value)), "history", token.value));
      granted.Err? ==>
        res.output == old(res.output) && res.contentType == old(res.contentType) &&
        res.status == old(res.status) && res.ended == old(res.ended) && res.nexts == old(res.nexts) + [Deny()]
    ensures properties.Some? && token.Some? ==>
      var granted := evalPermissions(PermissionRequest(ThingIds(MatchAll(properties.value)), "history", token.value));
      granted.Ok? ==>
        res.contentType == Some("text/csv") &&
        |res.output| > |old(res.output)| && res.output[..|old(res.output)| + 1] == old(res.output) + [CsvHeader]
    ensures properties.Some? && token.Some? ==>
      var granted := evalPermissions(PermissionRequest(ThingIds(MatchAll(properties.value)), "history", token.value));
      granted.Ok? ==>
        var all := Collected(Answers(Permitted(MatchAll(properties.value), granted.value), partition, rowsOf));
        (all.Ok? ==>
           multiset(res.output[|old(res.output)| + 1..]) == multiset(all.value) &&
           res.status == Some(200) && res.ended && res.nexts == old(res.nexts)) &&
        (all.Err? ==> res.status == old(res.status) && res.ended == old(res.ended) && res.nexts == old(res.nexts) + [Deny()])
  {
    if properties.None? || token.None? {
      res.nexts := res.nexts + [Deny()];
      return;
    }
    var refs := MatchAll(properties.value);
    var granted := evalPermissions(PermissionRequest(ThingIds(refs), "history", token.value));
    if granted.Err? {
      res.nexts := res.nexts + [Deny()];
      return;
    }
    Respond(res, Permitted(refs, granted.value), partition, rowsOf);
  }

  /** The queries of the permitted properties, each asked of the client, then `Serve`. */
  method Respond(res: HistoryResponse, todo: seq<PropertyRef>, partition: nat,
                 rowsOf: CqlQuery -> Result<seq<KvRow>, Rejection>)
    modifies res
    ensures res.contentType == Some("text/csv")
    ensures |res.output| > |old(res.output)| && res.output[..|old(res.output)| + 1] == old(res.output) + [CsvHeader]
    ensures var all := Collected(Answers(todo, partition, rowsOf));
      (all.Ok? ==>
         multiset(res.output[|old(res.output)| + 1..]) == multiset(all.value) &&
         res.status == Some(200) && res.ended && res.nexts == old(res.nexts)) &&
      (all.Err? ==> res.status == old(res.status) && res.ended == old(res.ended) && res.nexts == old(res.nexts) + [Deny()])
  {
    var answers := Answers(todo, partition, rowsOf);
    Serve(res, answers);
  }
}
