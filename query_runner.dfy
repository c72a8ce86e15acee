/**
 * The streaming encoder of `runQuery` (lib/middlewares/influxdb.js): it picks
 * JSON or CSV once, then appends to the response on every row the InfluxDB
 * client delivers, driven by a `firstRow` flag, and closes the response on
 * `complete`. The client and `JSON.stringify(tableMeta.toObject(row))` are
 * outside the model: a row arrives with its values, its column labels and
 * its JSON text.
 */
module QueryRunner {
  import opened Wrappers
  import opened Text

  /** One row of a result table as the `next` callback receives it. */
  datatype StreamRow = StreamRow(values: seq<string>, labels: seq<string>, json: string)

  /** The content type written in JSON mode, spelled as the source spells it. */
  const JsonContentType: string := "appplication/json"
  const CsvContentType: string := "text/csv"

  /** `req.accepts('json') === 'json'`, with the negotiation itself an input. */
  predicate IsJsonAnswer(accepted: Option<string>) {
    accepted == Some("json")
  }

  /** `row.join(',') + '\n'`. */
  function CsvLine(row: StreamRow): string {
    Join(row.values, ",") + "\n"
  }

  /** The header: the column labels of the row's table, joined by commas. */
  function HeaderLine(row: StreamRow): string {
    Join(row.labels, ",") + "\n"
  }

  /** The chunks written by the `next` callback in JSON mode: the first row bare, every later one after a comma. */
  function JsonChunks(rows: seq<StreamRow>): seq<string> {
    if |rows| == 0 then []
    else JsonChunks(rows[..|rows| - 1]) + [(if |rows| == 1 then "" else ",") + rows[|rows| - 1].json]
  }

  /** The chunks written by the `next` callback in CSV mode: on the first row the header and the row, then one line per row. */
  function CsvChunks(rows: seq<StreamRow>): seq<string> {
    if |rows| == 0 then []
    else if |rows| == 1 then [HeaderLine(rows[0]), CsvLine(rows[0])]
    else CsvChunks(rows[..|rows| - 1]) + [CsvLine(rows[|rows| - 1])]
  }

  /** Everything written before `complete`: the opening `[` in JSON mode, then the row chunks. */
  function Writes(isJson: bool, rows: seq<StreamRow>): seq<string> {
    if isJson then ["["] + JsonChunks(rows) else CsvChunks(rows)
  }

  /** The response text made of the written chunks. */
  function Concat(chunks: seq<string>): string {
    if |chunks| == 0 then "" else Concat(chunks[..|chunks| - 1]) + chunks[|chunks| - 1]
  }

  lemma {:induction false} ConcatAppend(a: seq<string>, b: seq<string>)
    ensures Concat(a + b) == Concat(a) + Concat(b)
    decreases |b|
  {
    if |b| > 0 {
      ConcatAppend(a, b[..|b| - 1]);
      assert (a + b)[..|a + b| - 1] == a + b[..|b| - 1];
    } else {
      assert a + b == a;
    }
  }

  lemma ConcatSingle(x: string)
    ensures Concat([x]) == x
  {
    assert [x][..0] == [];
  }

  /** The JSON texts of the rows, in order. */
  function Jsons(rows: seq<StreamRow>): (js: seq<string>)
    ensures |js| == |rows|
    ensures forall i :: 0 <= i < |rows| ==> js[i] == rows[i].json
  {
    seq(|rows|, i requires 0 <= i < |rows| => rows[i].json)
  }

  /** The CSV lines of the rows, in order. */
  function CsvLines(rows: seq<StreamRow>): (ls: seq<string>)
    ensures |ls| == |rows|
    ensures forall i :: 0 <= i < |rows| ==> ls[i] == CsvLine(rows[i])
  {
    seq(|rows|, i requires 0 <= i < |rows| => CsvLine(rows[i]))
  }

  /** The JSON row chunks spell the row texts joined by commas. */
  lemma {:induction false} JsonChunksJoin(rows: seq<StreamRow>)
    ensures Concat(JsonChunks(rows)) == Join(Jsons(rows), ",")
    decreases |rows|
  {
    if |rows| == 1 {
      ConcatSingle(rows[0].json);
      assert JsonChunks(rows) == [] + ["" + rows[0].json];
      assert Jsons(rows) == [rows[0].json];
    } else if |rows| > 1 {
      var init := rows[..|rows| - 1];
      var last := rows[|rows| - 1];
      var joined := Join(Jsons(init), ",");
      var chunk := "," + last.json;
      JsonChunksJoin(init);
      JsonChunksSnoc(rows);
      ConcatAppend(JsonChunks(init), [chunk]);
      ConcatSingle(chunk);
      assert Concat(JsonChunks(rows)) == joined + chunk;
      JsonsSnoc(rows);
      JoinSnoc(Jsons(init), last.json, ",");
      assert joined + chunk == joined + "," + last.json;
    }
  }

  /** A later row's chunk is its JSON after a comma. */
  lemma JsonChunksSnoc(rows: seq<StreamRow>)
    requires |rows| > 1
    ensures JsonChunks(rows) == JsonChunks(rows[..|rows| - 1]) + ["," + rows[|rows| - 1].json]
  {
  }

  lemma JsonsSnoc(rows: seq<StreamRow>)
    requires |rows| >= 1
    ensures Jsons(rows) == Jsons(rows[..|rows| - 1]) + [rows[|rows| - 1].json]
  {
    var js := Jsons(rows[..|rows| - 1]) + [rows[|rows| - 1].json];
    assert |js| == |rows|;
    assert forall i :: 0 <= i < |rows| ==> js[i] == rows[i].json;
  }

  /**
   * The JSON body of a completed response: `[`, the rows separated by
   * commas, `]`; so no rows give `[]`.
   */
  lemma JsonBody(rows: seq<StreamRow>)
    ensures Concat(Writes(true, rows) + ["]"]) == "[" + Join(Jsons(rows), ",") + "]"
    ensures rows == [] ==> Concat(Writes(true, rows) + ["]"]) == "[]"
  {
    ConcatAppend(["["], JsonChunks(rows));
    ConcatAppend(Writes(true, rows), ["]"]);
    ConcatSingle("[");
    ConcatSingle("]");
    JsonChunksJoin(rows);
  }

  /**
   * The CSV chunks are the header of the first row's table, once, followed by
   * one line per row; no rows give no header and an empty body.
   */
  lemma {:induction false} CsvChunksShape(rows: seq<StreamRow>)
    ensures rows == [] ==> CsvChunks(rows) == []
    ensures rows != [] ==> CsvChunks(rows) == [HeaderLine(rows[0])] + CsvLines(rows)
    decreases |rows|
  {
    if |rows| == 1 {
      assert CsvLines(rows) == [CsvLine(rows[0])];
    } else if |rows| > 1 {
      var init := rows[..|rows| - 1];
      var last := CsvLine(rows[|rows| - 1]);
      CsvChunksShape(init);
      assert init[0] == rows[0];
      var ls := CsvLines(init) + [last];
      assert |ls| == |rows|;
      assert forall i :: 0 <= i < |rows| ==> ls[i] == CsvLine(rows[i]);
      assert CsvLines(rows) == ls;
      assert CsvChunks(rows) == CsvChunks(init) + [last];
    }
  }

  /** Every chunk of a CSV response is one line ending in a newline. */
  lemma CsvChunksAreLines(rows: seq<StreamRow>)
    ensures forall i :: 0 <= i < |CsvChunks(rows)| ==>
      |CsvChunks(rows)[i]| >= 1 && CsvChunks(rows)[i][|CsvChunks(rows)[i]| - 1] == '\n'
  {
    CsvChunksShape(rows);
  }

  /** The response side of one `runQuery` call. */
  class Encoder {
    /** Chosen once, before any row. */
    const isJson: bool
    /** The `firstRow` flag of the closure. */
    var firstRow: bool
    /** The `content-type` header set before the query runs. */
    var contentType: string
    /** Every `res.write`, in order. */
    var output: seq<string>
    /** The status passed to `res.status`, once the response is finished. */
    var status: Option<int>
    /** Set by `complete` and by `error`. */
    var ended: bool
    /** The text sent by the `error` callback. */
    var failure: Option<string>
    /** The rows delivered so far. */
    ghost var rows: seq<StreamRow>

    /** Before `complete` or `error` the output is the writes of the rows delivered, and `firstRow` says that none was. */
    ghost predicate Streaming()
      reads this
    {
      !ended && failure.None? && status.None? &&
      output == Writes(isJson, rows) &&
      (firstRow <==> rows == []) &&
      contentType == (if isJson then JsonContentType else CsvContentType)
    }

    /** The header is set and, in JSON mode, `[` is written before the query runs. */
    constructor (accepted: Option<string>)
      ensures isJson <==> IsJsonAnswer(accepted)
      ensures rows == [] && firstRow
      ensures output == (if isJson then ["["] else [])
      ensures Streaming()
    {
      isJson := accepted == Some("json");
      firstRow := true;
      status := None;
      ended := false;
      failure := None;
      rows := [];
      new;
      if isJson {
        contentType := JsonContentType;
        output := ["["];
      } else {
        contentType := CsvContentType;
        output := [];
      }
    }

    /** The `next(row, tableMeta)` callback. */
    method Next(row: StreamRow)
      requires Streaming()
      modifies this
      ensures Streaming()
      ensures rows == old(rows) + [row]
      ensures !firstRow
      ensures output == old(output) +
        (if isJson then [(if old(firstRow) then "" else ",") + row.json]
         else if old(firstRow) then [HeaderLine(row), CsvLine(row)]
         else [CsvLine(row)])
    {
      if firstRow {
        if isJson {
          output := output + [row.json];
          assert "" + row.json == row.json;
        } else {
          output := output + [HeaderLine(row)];
          output := output + [CsvLine(row)];
        }
        firstRow := false;
      } else {
        if isJson {
          output := output + ["," + row.json];
        } else {
          output := output + [CsvLine(row)];
        }
      }
      rows := rows + [row];
      assert rows[..|rows| - 1] == old(rows);
    }

    /** The `complete` callback: `]` in JSON mode, then status 200 and the end of the response. */
    method Complete()
      requires Streaming()
      modifies this
      ensures output == old(output) + (if isJson then ["]"] else [])
      ensures status == Some(200) && ended && failure.None?
      ensures rows == old(rows) && contentType == old(contentType)
    {
      if isJson {
        output := output + ["]"];
      }
      status := Some(200);
      ended := true;
    }

    /** The `error` callback: status 500 and the text `Internal server Error`, after whatever was written. */
    method Error()
      requires Streaming()
      modifies this
      ensures output == old(output) && rows == old(rows)
      ensures status == Some(500) && ended && failure == Some("Internal server Error")
    {
      status := Some(500);
      failure := Some("Internal server Error");
      ended := true;
    }
  }

  /**
   * One whole successful run: the encoder fed every row and then completed.
   * JSON mode answers `[`, the rows' JSON joined by commas, `]`; CSV mode
   * the first table's header and one line per row, or nothing for no rows.
   */
  method EncodeRun(accepted: Option<string>, rows: seq<StreamRow>) returns (contentType: string, body: string)
    ensures contentType == (if IsJsonAnswer(accepted) then JsonContentType else CsvContentType)
    ensures IsJsonAnswer(accepted) ==> body == "[" + Join(Jsons(rows), ",") + "]"
    ensures !IsJsonAnswer(accepted) && rows == [] ==> body == ""
    ensures !IsJsonAnswer(accepted) && rows != [] ==> body == Concat([HeaderLine(rows[0])] + CsvLines(rows))
  {
    var enc := new Encoder(accepted);
    var i := 0;
    while i < |rows|
      invariant 0 <= i <= |rows|
      invariant fresh(enc)
      invariant enc.isJson == IsJsonAnswer(accepted)
      invariant enc.Streaming() && enc.rows == rows[..i]
    {
      enc.Next(rows[i]);
      assert rows[..i + 1] == rows[..i] + [rows[i]];
      i := i + 1;
    }
    assert enc.rows == rows;
    contentType := enc.contentType;
    enc.Complete();
    body := Concat(enc.output);
    if enc.isJson {
      JsonBody(rows);
      assert enc.output == Writes(true, rows) + ["]"];
    } else {
      CsvChunksShape(rows);
      assert enc.output == CsvChunks(rows);
    }
  }
}
