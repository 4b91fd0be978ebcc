# Filter hopper, modelled in Dafny

This project models the core of `polars-expr-hopper`: the `hopper` namespace on a
Polars `DataFrame`. A table carries an ordered queue of pending filter expressions in
its metadata map, under the key `"hopper_filters"`. Filters can be added and listed.
`apply_ready_filters` walks the queue in order. It applies every predicate whose
columns exist in the current table and keeps the others, unchanged, for a later call.
The remaining queue is then written back into the metadata of the input table. When
filtering produced a new table, the queue is written into that table's metadata too.

The model uses plain values:

- `Engine`: rows are maps from column name to cell. A predicate (`Pred`) is the set of
  columns it reads (`expr.meta.root_names()`) plus a per-row evaluation. The evaluation
  returns `Some(keep)`, or `None` when the engine raises. `ReadyPart` and `WaitingPart`
  split a queue by readiness. `Survivors` is the reference meaning of a cascade of such
  row tests: the rows that pass every predicate, in their original order. `Verdict` is the row-by-row
  account of the same cascade, including failure.
- `Metadata`: the metadata map (`map<string, Value>`), the key `"hopper_filters"`,
  reading the queue with an empty default (`PendingOf`), and writing it (`WithPending`).
- `Frames`: a table is a column set, a row sequence and a metadata map. `Filter` is the
  engine's `filter`.
- `Hopper`: `Init`, `AddFilter`, `ListFilters`, and `ApplyReadyFilters`. The loop of
  `ApplyReadyFilters` is the recursive `Sweep`.
- `HopperLaws`: properties that relate several calls.
- `Scenarios`: the repository's conditional-apply test, worked through the model in two
  steps. The test queues a Python lambda (tests/conditional_apply_test.py:10). The code as
  shown calls `expr.meta.root_names()` on it (line 67), which a lambda does not have, so
  the test as written raises there. The model puts the expression `pl.col("age") > 18`,
  which the lambda returns, in its place.

Every `df.hopper` access builds a new `HopperPlugin`, whose constructor (lines 26-32)
runs before the method called. So each public call is the model's operation applied to
`Init(t)`, as the scenarios write it. In particular `df.hopper.list_filters()` on a table
without the key adds the empty queue to its metadata; `ListFilters` itself, like the method
at lines 45-47, reads only.

The Python code has object identity; the model has values instead. The input table
after the call is `Applied.original`, and the returned table is `Applied.result`.
Polars' `filter` always returns a new object, so the two differ exactly when some
predicate was applied (`appliedAny`). In that case the check at line 81 of the source
holds. When nothing was applied, the returned table is the input table, with the
rewritten metadata of lines 77-78.

The model assumes polars-config-meta's propagation, as the docstring at lines 57-58
of `src/polars_hopper/__init__.py` describes it: a table produced by `filter` carries
a copy of its source's metadata. Every such copy is taken before the write-back, so
the new table starts with the input's original map. The rewrite at lines 82-84 then
makes both maps equal.

The docstring of `apply_ready_filters` and its code disagree on one point. The docstring at lines
52-53 says a failing expression is caught and kept pending. The code never catches
anything. It checks for the needed columns first (lines 67-69), and any error raised
inside `filter` propagates out of the call. The model follows the code. An evaluation
error makes `ApplyReadyFilters` return `Failure`. The metadata write-back comes after
the loop, so a failed call writes nothing.

## Model

| member | source | states |
|---|---|---|
| `Hopper.Init` | src/polars_hopper/__init__.py:26-32 | Afterwards the key exists. If it was missing, the queue is empty. A table that already has the key comes back unchanged, so attaching again is a no-op. Rows, columns and every other metadata entry are kept. |
| `Hopper.AddFilter` | src/polars_hopper/__init__.py:34-43 | The queue grows by exactly one. The old queue is its prefix and the new predicate is its last entry. Other metadata entries, rows and columns are unchanged. |
| `Hopper.ListFilters` | src/polars_hopper/__init__.py:45-47 | Returns the stored queue, or the empty queue when the key is absent. As a function it has no side effects; the `df.hopper` access before it may add the empty queue (see `Hopper.Init`). |
| `Hopper.ListAfterAddsKeepsOrder` | src/polars_hopper/__init__.py:39-47 | After any run of `add_filter` calls, listing returns the old queue followed by the added predicates, in insertion order. |
| `Metadata.PendingOf` | src/polars_hopper/__init__.py:60-61 | Reads the queue with an empty default: `[]` when the key is absent, otherwise the stored queue. |
| `Metadata.WithPending` | src/polars_hopper/__init__.py:76-78 | Writing the queue makes the key hold exactly that queue and leaves every other key and value as it was. |
| `Frames.Filter` | src/polars_hopper/__init__.py:70 | The engine's filter succeeds exactly when the predicate evaluates on every row. It keeps the rows the predicate is true on, in order, and leaves the columns and the (copied) metadata alone. |
| `Hopper.Sweep` | src/polars_hopper/__init__.py:62-74 | The loop succeeds exactly when no row's verdict under the ready predicates is an error. It then returns the rows passing every ready predicate, in order, with columns unchanged. The pending list grows by exactly the not-ready predicates, in queue order. `appliedAny` is set exactly when some predicate was ready. Readiness is checked against each filtered table, whose columns equal the input's. |
| `Hopper.SweepReadyStep` | src/polars_hopper/__init__.py:68-71 | A ready predicate at the head of the queue is applied first. Filtering by it and then by the rest's ready part keeps exactly the rows that pass all of them. |
| `Hopper.ApplyReadyFilters` | src/polars_hopper/__init__.py:49-86 | The call fails exactly when some row's cascade through the ready predicates hits an evaluation error. On success, the input table keeps its rows and columns. Its queue becomes exactly the order-preserving subsequence of not-ready predicates, and its other metadata entries are kept. The returned table has the input's columns and the input rows that pass every ready predicate, in order. Its queue is the same not-ready subsequence, and its whole metadata equals the input's new metadata. `appliedAny` holds exactly when some predicate was ready, and without it the returned table is the input table. |
| `Engine.VerdictTrueIffPassesAll` | src/polars_hopper/__init__.py:66-71 | Applying filters one after the other keeps a row exactly when the row passes every one of them. |
| `HopperLaws.QueueIsPartitioned` | src/polars_hopper/__init__.py:66-74 | Every queued predicate is either applied or kept pending, according to readiness alone. As multisets the two parts add up to the queue, so no occurrence is dropped or duplicated, repeated equal predicates included, and their lengths add up to the queue's. |
| `HopperLaws.WaitingDoesNotBlock` | src/polars_hopper/__init__.py:66-74 | A not-ready predicate anywhere in the queue changes neither which predicates are applied nor the rows returned. |
| `HopperLaws.ReadyInQueueOrder` | src/polars_hopper/__init__.py:66-71 | Ready predicates are applied in queue order: those before any position come before those after it. |
| `HopperLaws.SecondFiresPastWaitingFirst` | src/polars_hopper/__init__.py:66-84 | With queue `[a, b]`, `a` waiting and `b` ready, only `b` is applied. The rows are those `b` keeps, and both tables' queues become `[a]`. |
| `HopperLaws.NothingReadyChangesNothing` | src/polars_hopper/__init__.py:63-81 | When no queued predicate is ready, the call succeeds and applies nothing. It returns the input table with its rows and its queue unchanged, and exactly the input table when the key was present. |
| `HopperLaws.ApplyTwiceAppliesNothing` | src/polars_hopper/__init__.py:66-84 | Applying again to the returned table, with no new columns, succeeds, applies nothing, and returns that table unchanged. |
| `Scenarios.FilterWaitsForAge` | tests/conditional_apply_test.py:8-17 | On a `user_id`-only table, a queued `age > 18` filter is not applied: the table is returned as is, with the filter still pending. |
| `Scenarios.AgeFilterKeepsTwo` | tests/conditional_apply_test.py:19-22 | With ages 25, 15 and 30, the `age > 18` filter evaluates on every row and keeps the first and third rows. |
| `Scenarios.AgeFilterFiresOnceAdded` | tests/conditional_apply_test.py:19-24 | A 3-row table with columns `user_id` and `age` (ages 25, 15, 30) and the `age > 18` filter queued: applying gives 2 rows, 2 columns and an empty queue. |

## Left out

- `serialize_filters` / `deserialize_filters` (lines 88-140): a pass-through to Polars' own expression serialization. As written, the deserializer uses `io`, which the module never imports.
- `__getattr__` (lines 142-155): fallback delegation to `config_meta` and then to the table, with no logic of its own.
- Polars internals are opaque. The model stands in for `expr.meta.root_names()` with `Pred.needs`, for `collect_schema()` with `Table.columns`, and for expression evaluation with `Pred.eval`.
- Frames.Filter: an evaluation error is modelled per row. A schema-level error that Polars raises even on an empty table is not distinguished.
- polars-config-meta's metadata propagation is an external library. It is assumed to copy the source table's metadata into each table `filter` produces, and `Filter` does so explicitly.
- Python list aliasing is not modelled. After the call, both tables' metadata refer to the same `still_pending` list object. The model has values, so a later in-place append through one table is not seen through the other.
- Hopper.ApplyReadyFilters, Hopper.AddFilter, Hopper.ListFilters: require the `"hopper_filters"` entry, when present, to hold a queue. A non-list value there makes the Python code fail or misbehave, and that path is not modelled.
- Callable (lambda) predicates are not a separate kind. tests/conditional_apply_test.py:10, tests/early_pruning_test.py:8 and tests/metadata_preservation_test.py:10 queue lambdas; the code as shown calls `expr.meta.root_names()` on them (line 67), which only expressions have, so those tests raise as written. The scenarios use the expression each lambda returns.
- Hopper.ApplyReadyFilters: a predicate is a test on one row, so the returned rows are a per-row conjunction of the ready predicates. Filters whose verdict on a row depends on other rows (`pl.col("x") > pl.col("x").mean()`, `is_duplicated()`, `rank()`, window expressions with `over(...)`) are evaluated at line 70 on the table earlier filters already cut down; their outcome depends on queue order, and the model does not cover them.
- Hopper.ApplyReadyFilters: the returned table's whole metadata equals the input's rewritten metadata only because `Filter` is assumed to copy the source's map. The queue part of the contract does not rest on that assumption: lines 82-84 rewrite the key, and `WithPending` reads back the written queue whatever map it is given.
- The tests for `add_filters`, `add_addcols`, `apply_ready_exprs` and `_read_expr_registry` (tests/relative_order_test.py, tests/cascade_apply_test.py) exercise functions that `src/polars_hopper/__init__.py` does not define. They are not part of this model.
- The Parquet test (tests/parquet_roundtrip_test.py) is file I/O and ends in a stub assertion.
- Thread safety: the source has no locking, and the model is purely sequential.
