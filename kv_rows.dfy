/**
 * A row of the ThingsBoard key/value time-series tables, as both the
 * Cassandra route (lib/routes/query.js) and the Postgres model
 * (lib/models/timeseries.js) read it: one value column per type, all but one
 * of them null. Column values are modelled as text, whatever type the
 * driver gives them; `None` is SQL/CQL null.
 */
module KvRows {
  import opened Wrappers

  datatype KvRow = KvRow(
    ts: string,
    entityId: string,
    key: string,
    boolV: Option<string>,
    dblV: Option<string>,
    jsonV: Option<string>,
    longV: Option<string>,
    strV: Option<string>)

  /** The typed value columns. */
  datatype Column = BoolV | DblV | JsonV | LongV | StrV

  /** The order in which both resolvers look at the columns. */
  const PriorityOrder: seq<Column> := [BoolV, DblV, JsonV, LongV, StrV]

  function Cell(row: KvRow, c: Column): Option<string> {
    match c
    case BoolV => row.boolV
    case DblV => row.dblV
    case JsonV => row.jsonV
    case LongV => row.longV
    case StrV => row.strV
  }

  /** The column `PriorityOrder[i]` is the first non-null one of the row. */
  predicate FirstNonNullAt(row: KvRow, i: int) {
    0 <= i < |PriorityOrder| && Cell(row, PriorityOrder[i]).Some? &&
    forall j :: 0 <= j < i ==> Cell(row, PriorityOrder[j]).None?
  }

  /** Every value column of the row is null. */
  predicate AllNull(row: KvRow) {
    forall j :: 0 <= j < |PriorityOrder| ==> Cell(row, PriorityOrder[j]).None?
  }

  /** At most one column is the first non-null one, and there is one unless all are null. */
  lemma FirstNonNullUnique(row: KvRow, i: int, j: int)
    requires FirstNonNullAt(row, i) && FirstNonNullAt(row, j)
    ensures i == j && !AllNull(row)
  {
  }
}
