/** Tables: a schema, rows in order, and the metadata map attached to them. */
module Frames {
  import opened Wrappers
  import opened Engine
  import opened Metadata
  import Seqs

  datatype Table = Table(columns: set<Column>, rows: seq<Row>, meta: Meta)

  /** The engine's `filter`: keeps the rows the predicate is true on, in order,
      leaves the schema alone, and hands the source's metadata on to the new
      table; it raises when the predicate cannot be evaluated on some row. */
  function Filter(t: Table, p: Pred): (r: Result<Table, EngineError>)
    ensures r.Success? <==> forall x :: x in t.rows ==> p.eval(x).Some?
    ensures r.Success? ==> r.value == t.(rows := Seqs.Filter(t.rows, Holds(p)))
  {
    if exists i :: 0 <= i < |t.rows| && p.eval(t.rows[i]).None? then Failure(EvaluationError)
    else Success(t.(rows := Seqs.Filter(t.rows, Holds(p))))
  }
}
