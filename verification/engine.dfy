/** The query engine as the hopper sees it: rows of named cells, and
    predicates that name the columns they read and give a per-row verdict. */
module Engine {
  import opened Wrappers
  import Seqs

  type Column = string

  /** One cell of a row; the engine's other value kinds add nothing here. */
  datatype Cell = Int(i: int) | Bool(b: bool) | Str(s: string) | Null

  type Row = map<Column, Cell>

  /** A filter expression: `needs` is what `expr.meta.root_names()` reports,
      `eval` is the engine's evaluation of the expression on one row —
      `Some(keep)` for a boolean outcome, `None` when the engine raises. */
  datatype Pred = Pred(needs: set<Column>, eval: Row -> Option<bool>)

  /** The error the engine raises when evaluating a predicate fails. */
  datatype EngineError = EvaluationError

  /** A predicate is ready when every column it reads is in the schema. */
  predicate Ready(p: Pred, columns: set<Column>)
  {
    p.needs <= columns
  }

  function ReadyIn(columns: set<Column>): Pred -> bool
  {
    p => Ready(p, columns)
  }

  function NotReadyIn(columns: set<Column>): Pred -> bool
  {
    p => !Ready(p, columns)
  }

  /** The predicates of `queue` that can fire against `columns`, in queue order. */
  function ReadyPart(queue: seq<Pred>, columns: set<Column>): seq<Pred>
  {
    Seqs.Filter(queue, ReadyIn(columns))
  }

  /** The predicates of `queue` that must wait for columns, in queue order. */
  function WaitingPart(queue: seq<Pred>, columns: set<Column>): seq<Pred>
  {
    Seqs.Filter(queue, NotReadyIn(columns))
  }

  /** Row `r` is kept by `p`: the engine evaluates `p` to true on it. */
  function Holds(p: Pred): Row -> bool
  {
    r => p.eval(r) == Some(true)
  }

  /** Row `r` is kept by every predicate of `ps`. */
  predicate PassesAll(r: Row, ps: seq<Pred>)
  {
    forall i :: 0 <= i < |ps| ==> ps[i].eval(r) == Some(true)
  }

  function PassesAllOf(ps: seq<Pred>): Row -> bool
  {
    r => PassesAll(r, ps)
  }

  /** The rows of `rows` that pass every predicate of `ps`, in their original order. */
  function Survivors(rows: seq<Row>, ps: seq<Pred>): seq<Row>
  {
    Seqs.Filter(rows, PassesAllOf(ps))
  }

  /** What happens to row `r` when the predicates of `ps` are applied one
      after the other: it is dropped by the first one that is false on it,
      and the whole application fails if the first one that is not true on
      it raises. A dropped row is never evaluated again. */
  function Verdict(r: Row, ps: seq<Pred>): Option<bool>
  {
    if ps == [] then Some(true)
    else match ps[0].eval(r)
      case None => None
      case Some(false) => Some(false)
      case Some(true) => Verdict(r, ps[1..])
  }

  /** A row survives the cascade exactly when it passes every predicate. */
  lemma {:induction false} VerdictTrueIffPassesAll(r: Row, ps: seq<Pred>)
    ensures Verdict(r, ps) == Some(true) <==> PassesAll(r, ps)
  {
    if ps != [] {
      VerdictTrueIffPassesAll(r, ps[1..]);
      if ps[0].eval(r) == Some(true) {
        if PassesAll(r, ps[1..]) {
          forall i | 0 <= i < |ps| ensures ps[i].eval(r) == Some(true) {
            if i > 0 { assert ps[i] == ps[1..][i - 1]; }
          }
        }
      }
    }
  }

  /** Passing `[p] + ps` is passing `p` and then passing `ps`. */
  lemma PassesAllCons(r: Row, p: Pred, ps: seq<Pred>)
    ensures PassesAll(r, [p] + ps) <==> p.eval(r) == Some(true) && PassesAll(r, ps)
  {
    var qs := [p] + ps;
    assert qs[0] == p;
    if p.eval(r) == Some(true) && PassesAll(r, ps) {
      forall i | 0 <= i < |qs| ensures qs[i].eval(r) == Some(true) {
        if i > 0 { assert qs[i] == ps[i - 1]; }
      }
    }
    if PassesAll(r, qs) {
      forall i | 0 <= i < |ps| ensures ps[i].eval(r) == Some(true) {
        assert ps[i] == qs[i + 1];
      }
    }
  }
}
