/** The filter hopper: a queue of pending predicates kept in a table's
    metadata, applied one by one as soon as the columns they read exist. */
module Hopper {
  import opened Wrappers
  import opened Engine
  import opened Metadata
  import opened Frames
  import Seqs

  /** Attaching the hopper: creates an empty queue when the key is missing
      and leaves a table that already has one exactly as it is. */
  function Init(t: Table): (r: Table)
    ensures r.columns == t.columns && r.rows == t.rows
    ensures HopperKey in r.meta
    ensures HopperKey in t.meta ==> r == t
    ensures HopperKey !in t.meta ==> WellFormed(r.meta) && PendingOf(r.meta) == []
    ensures r.meta.Keys == t.meta.Keys + {HopperKey}
    ensures forall k :: k in t.meta ==> r.meta[k] == t.meta[k]
  {
    if HopperKey !in t.meta then t.(meta := t.meta[HopperKey := Filters([])]) else t
  }

  /** Appends `p` to the end of the queue; nothing else in the table changes. */
  function AddFilter(t: Table, p: Pred): (r: Table)
    requires WellFormed(t.meta)
    ensures r.columns == t.columns && r.rows == t.rows
    ensures WellFormed(r.meta)
    ensures |PendingOf(r.meta)| == |PendingOf(t.meta)| + 1
    ensures PendingOf(r.meta)[..|PendingOf(t.meta)|] == PendingOf(t.meta)
    ensures PendingOf(r.meta)[|PendingOf(t.meta)|] == p
    ensures r.meta.Keys == t.meta.Keys + {HopperKey}
    ensures forall k :: k in t.meta && k != HopperKey ==> r.meta[k] == t.meta[k]
  {
    t.(meta := WithPending(t.meta, PendingOf(t.meta) + [p]))
  }

  /** The pending queue, in insertion order; empty when nothing was ever added. */
  function ListFilters(t: Table): (q: seq<Pred>)
    requires WellFormed(t.meta)
    ensures HopperKey !in t.meta ==> q == []
    ensures HopperKey in t.meta ==> t.meta[HopperKey] == Filters(q)
  {
    PendingOf(t.meta)
  }

  /** Adding `ps` one predicate at a time, as a caller's sequence of `add_filter` calls. */
  function AddAll(t: Table, ps: seq<Pred>): (r: Table)
    requires WellFormed(t.meta)
    ensures WellFormed(r.meta)
    decreases |ps|
  {
    if ps == [] then t else AddAll(AddFilter(t, ps[0]), ps[1..])
  }

  /** Listing after a run of additions gives back the old queue followed by
      the added predicates, in the order they were added. */
  lemma {:induction false} ListAfterAddsKeepsOrder(t: Table, ps: seq<Pred>)
    requires WellFormed(t.meta)
    ensures ListFilters(AddAll(t, ps)) == ListFilters(t) + ps
    decreases |ps|
  {
    if ps != [] {
      var t' := AddFilter(t, ps[0]);
      assert PendingOf(t'.meta) == PendingOf(t.meta) + [ps[0]];
      ListAfterAddsKeepsOrder(t', ps[1..]);
      assert [ps[0]] + ps[1..] == ps;
    }
  }

  /** The state of the loop over the queue: the table filtered so far, the
      predicates set aside, and whether any predicate was applied. */
  datatype Pass = Pass(current: Table, stillPending: seq<Pred>, appliedAny: bool)

  /** The loop over the queue: each predicate is checked against the current
      table's schema and either applied to it or set aside, unchanged. An
      evaluation error stops the loop and propagates. */
  function Sweep(current: Table, exprs: seq<Pred>, stillPending: seq<Pred>, appliedAny: bool)
    : (r: Result<Pass, EngineError>)
    ensures r.Success? <==>
      forall x :: x in current.rows ==> Verdict(x, ReadyPart(exprs, current.columns)).Some?
    ensures r.Success? ==>
      && r.value.current == current.(rows := Survivors(current.rows, ReadyPart(exprs, current.columns)))
      && r.value.stillPending == stillPending + WaitingPart(exprs, current.columns)
      && r.value.appliedAny == (appliedAny || ReadyPart(exprs, current.columns) != [])
    decreases |exprs|
  {
    if exprs == [] then
      Seqs.FilterKeepsAll(current.rows, PassesAllOf([]));
      Success(Pass(current, stillPending, appliedAny))
    else
      var p := exprs[0];
      if Ready(p, current.columns) then
        match Filter(current, p)
        case Failure(e) => Failure(e)
        case Success(next) =>
          SweepReadyStep(current, p, exprs[1..]);
          Sweep(next, exprs[1..], stillPending, true)
      else
        SweepWaitingStep(current.columns, p, exprs[1..]);
        assert stillPending + [p] + WaitingPart(exprs[1..], current.columns)
            == stillPending + WaitingPart(exprs, current.columns);
        Sweep(current, exprs[1..], stillPending + [p], appliedAny)
  }

  /** Applying a ready `p` first and then the ready part of `rest` is applying
      the ready part of `[p] + rest`, row by row. */
  lemma SweepReadyStep(current: Table, p: Pred, rest: seq<Pred>)
    requires Ready(p, current.columns)
    ensures ReadyPart([p] + rest, current.columns) == [p] + ReadyPart(rest, current.columns)
    ensures WaitingPart([p] + rest, current.columns) == WaitingPart(rest, current.columns)
    ensures Seqs.Filter(Seqs.Filter(current.rows, Holds(p)), PassesAllOf(ReadyPart(rest, current.columns)))
         == Survivors(current.rows, [p] + ReadyPart(rest, current.columns))
  {
    var cols := current.columns;
    assert ([p] + rest)[1..] == rest;
    var ps := ReadyPart(rest, cols);
    forall x ensures PassesAllOf([p] + ps)(x) == (Holds(p)(x) && PassesAllOf(ps)(x)) {
      PassesAllCons(x, p, ps);
    }
    Seqs.FilterCompose(current.rows, Holds(p), PassesAllOf(ps), PassesAllOf([p] + ps));
  }

  /** A predicate that is not ready is set aside and changes nothing that is applied. */
  lemma SweepWaitingStep(columns: set<Column>, p: Pred, rest: seq<Pred>)
    requires !Ready(p, columns)
    ensures ReadyPart([p] + rest, columns) == ReadyPart(rest, columns)
    ensures WaitingPart([p] + rest, columns) == [p] + WaitingPart(rest, columns)
  {
  }

  /** What `apply_ready_filters` leaves behind: the input table with its
      queue rewritten, the table it returns, and whether any predicate fired
      (when none did, the returned table is the input table itself). */
  datatype Applied = Applied(original: Table, result: Table, appliedAny: bool)

  /** Runs the loop over the stored queue, then writes the predicates that
      are still pending into the input table's metadata and, when filtering
      produced a new table, into that table's metadata as well. */
  function ApplyReadyFilters(t: Table): (r: Result<Applied, EngineError>)
    requires WellFormed(t.meta)
    ensures r.Failure? <==>
      exists x :: x in t.rows && Verdict(x, ReadyPart(PendingOf(t.meta), t.columns)) == None
    ensures r.Success? ==>
      var queue := PendingOf(t.meta);
      var o := r.value;
      && o.original.columns == t.columns
      && o.original.rows == t.rows
      && WellFormed(o.original.meta)
      && PendingOf(o.original.meta) == WaitingPart(queue, t.columns)
      && o.original.meta.Keys == t.meta.Keys + {HopperKey}
      && (forall k :: k in t.meta && k != HopperKey ==> o.original.meta[k] == t.meta[k])
      && o.result.columns == t.columns
      && o.result.rows == Survivors(t.rows, ReadyPart(queue, t.columns))
      && WellFormed(o.result.meta)
      && PendingOf(o.result.meta) == WaitingPart(queue, t.columns)
      && o.result.meta == o.original.meta
      && (o.appliedAny <==> ReadyPart(queue, t.columns) != [])
      && (!o.appliedAny ==> o.result == o.original)
  {
    match Sweep(t, PendingOf(t.meta), [], false)
    case Failure(e) => Failure(e)
    case Success(pass) =>
      Seqs.FilterKeepsAll(t.rows, PassesAllOf([]));
      var original := t.(meta := WithPending(t.meta, pass.stillPending));
      var result :=
        if pass.appliedAny then pass.current.(meta := WithPending(pass.current.meta, pass.stillPending))
        else original;
      Success(Applied(original, result, pass.appliedAny))
  }
}

/** Properties relating several hopper calls. */
module HopperLaws {
  import opened Wrappers
  import opened Engine
  import opened Metadata
  import opened Frames
  import opened Hopper
  import Seqs

  /** Every queued predicate is either applied or kept pending, never both
      and never neither, and the two parts together account for the whole
      queue, each occurrence of a repeated predicate included. */
  lemma {:induction false} QueueIsPartitioned(queue: seq<Pred>, columns: set<Column>)
    ensures multiset(ReadyPart(queue, columns)) + multiset(WaitingPart(queue, columns)) == multiset(queue)
    ensures |ReadyPart(queue, columns)| + |WaitingPart(queue, columns)| == |queue|
    ensures forall p :: p in queue <==> p in ReadyPart(queue, columns) || p in WaitingPart(queue, columns)
    ensures forall p :: p in WaitingPart(queue, columns) <==> p in queue && !Ready(p, columns)
    ensures forall p :: p in ReadyPart(queue, columns) <==> p in queue && Ready(p, columns)
  {
    Seqs.FilterSplit(queue, ReadyIn(columns), NotReadyIn(columns));
    if queue != [] {
      QueueIsPartitioned(queue[1..], columns);
      assert queue == [queue[0]] + queue[1..];
    }
  }

  /** Skip, don't block: a predicate that is not ready, wherever it sits in
      the queue, does not change which predicates are applied or in what
      order; the rows returned are the same as if it were not queued. */
  lemma WaitingDoesNotBlock(queue: seq<Pred>, i: nat, columns: set<Column>, rows: seq<Row>)
    requires i < |queue| && !Ready(queue[i], columns)
    ensures ReadyPart(queue, columns) == ReadyPart(queue[..i] + queue[i + 1..], columns)
    ensures Survivors(rows, ReadyPart(queue, columns))
         == Survivors(rows, ReadyPart(queue[..i] + queue[i + 1..], columns))
  {
    var before, p, after := queue[..i], queue[i], queue[i + 1..];
    assert queue == before + ([p] + after);
    Seqs.FilterAppend(before, [p] + after, ReadyIn(columns));
    SweepWaitingStep(columns, p, after);
    Seqs.FilterAppend(before, after, ReadyIn(columns));
  }

  /** Ready predicates fire in queue order: everything ready before position
      `j` is applied before everything ready from `j` on. */
  lemma ReadyInQueueOrder(queue: seq<Pred>, j: nat, columns: set<Column>)
    requires j <= |queue|
    ensures ReadyPart(queue, columns) == ReadyPart(queue[..j], columns) + ReadyPart(queue[j..], columns)
  {
    assert queue == queue[..j] + queue[j..];
    Seqs.FilterAppend(queue[..j], queue[j..], ReadyIn(columns));
  }

  /** When no queued predicate is ready the call returns the input table
      itself, rows untouched, with its queue as it was. */
  lemma NothingReadyChangesNothing(t: Table)
    requires WellFormed(t.meta)
    requires forall i :: 0 <= i < |PendingOf(t.meta)| ==> !Ready(PendingOf(t.meta)[i], t.columns)
    ensures ApplyReadyFilters(t).Success?
    ensures ApplyReadyFilters(t).value.result == ApplyReadyFilters(t).value.original
    ensures ApplyReadyFilters(t).value.result.rows == t.rows
    ensures !ApplyReadyFilters(t).value.appliedAny
    ensures PendingOf(ApplyReadyFilters(t).value.result.meta) == PendingOf(t.meta)
    ensures HopperKey in t.meta ==> ApplyReadyFilters(t).value.result == t
  {
    var queue := PendingOf(t.meta);
    Seqs.FilterKeepsNone(queue, ReadyIn(t.columns));
    Seqs.FilterKeepsAll(queue, NotReadyIn(t.columns));
  }

  /** Skip, don't block, for a two-entry queue: a first predicate waiting
      for a missing column stays pending while the second, ready one is
      applied. */
  lemma SecondFiresPastWaitingFirst(t: Table, a: Pred, b: Pred)
    requires WellFormed(t.meta) && PendingOf(t.meta) == [a, b]
    requires !Ready(a, t.columns) && Ready(b, t.columns)
    requires forall x :: x in t.rows ==> b.eval(x).Some?
    ensures ApplyReadyFilters(t).Success?
    ensures ApplyReadyFilters(t).value.appliedAny
    ensures ApplyReadyFilters(t).value.result.rows == Seqs.Filter(t.rows, Holds(b))
    ensures PendingOf(ApplyReadyFilters(t).value.result.meta) == [a]
    ensures PendingOf(ApplyReadyFilters(t).value.original.meta) == [a]
  {
    var cols := t.columns;
    SweepWaitingStep(cols, a, [b]);
    assert [a, b] == [a] + [b];
    assert [b][1..] == [];
    assert ReadyPart([b], cols) == [b];
    assert WaitingPart([b], cols) == [];
    var applied := ReadyPart([a, b], cols);
    assert applied == [b];
    forall x ensures PassesAllOf([b])(x) == Holds(b)(x) {
      PassesAllCons(x, b, []);
    }
    Seqs.FilterCongruent(t.rows, PassesAllOf([b]), Holds(b));
    forall x | x in t.rows ensures Verdict(x, applied).Some? {
    }
    var r := ApplyReadyFilters(t);
    assert r.Success?;
  }

  /** Applying again, with no new columns, applies nothing: the returned
      table comes back unchanged and so does its queue. */
  lemma ApplyTwiceAppliesNothing(t: Table)
    requires WellFormed(t.meta)
    requires ApplyReadyFilters(t).Success?
    ensures WellFormed(ApplyReadyFilters(t).value.result.meta)
    ensures var t' := ApplyReadyFilters(t).value.result;
      ApplyReadyFilters(t') == Success(Applied(t', t', false))
  {
    var o := ApplyReadyFilters(t).value;
    var t' := o.result;
    var waiting := WaitingPart(PendingOf(t.meta), t.columns);
    assert PendingOf(t'.meta) == waiting;
    assert t'.columns == t.columns;
    forall i | 0 <= i < |waiting| ensures !Ready(waiting[i], t'.columns) {
      assert waiting[i] in waiting;
    }
    NothingReadyChangesNothing(t');
  }
}
