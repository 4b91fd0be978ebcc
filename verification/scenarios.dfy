/** The two steps of the repository's conditional-apply test, worked
    through the model: the filter waits for its column, then fires. The test
    queues a Python lambda; the code's readiness check asks the filter for
    `meta.root_names()`, which only expressions have, so here the filter is
    the expression `pl.col("age") > 18` the lambda returns. */
module Scenarios {
  import opened Wrappers
  import opened Engine
  import opened Metadata
  import opened Frames
  import opened Hopper
  import Seqs
  import HopperLaws

  /** `pl.col("age") > 18`: a null age compares to null, and `filter` drops
      that row; any other non-integer age is an evaluation error. */
  function AgeOver18(): Pred
  {
    Pred({"age"}, (r: Row) =>
      if "age" in r && r["age"].Int? then Some(r["age"].i > 18)
      else if "age" in r && r["age"].Null? then Some(false)
      else None)
  }

  function UserIds(): Table
  {
    Table({"user_id"}, [map["user_id" := Int(0)], map["user_id" := Int(1)], map["user_id" := Int(2)]], map[])
  }

  /** Before `age` exists, applying leaves the table as it is and the filter pending. */
  lemma FilterWaitsForAge(df: Table)
    requires df == AddFilter(Init(UserIds()), AgeOver18())
    ensures PendingOf(df.meta) == [AgeOver18()]
    ensures ApplyReadyFilters(Init(df)) == Success(Applied(df, df, false))
  {
    var p := AgeOver18();
    assert PendingOf(df.meta) == [p];
    assert !Ready(p, df.columns) by { assert "age" !in df.columns; }
    HopperLaws.NothingReadyChangesNothing(df);
  }

  /** The rows of the enriched table the filter keeps: ages 25 and 30. */
  lemma AgeFilterKeepsTwo(rows: seq<Row>)
    requires |rows| == 3
    requires forall i :: 0 <= i < 3 ==> "age" in rows[i]
    requires rows[0]["age"] == Int(25) && rows[1]["age"] == Int(15) && rows[2]["age"] == Int(30)
    ensures forall x :: x in rows ==> Verdict(x, [AgeOver18()]).Some?
    ensures Survivors(rows, [AgeOver18()]) == [rows[0], rows[2]]
  {
    var p := AgeOver18();
    var keep := PassesAllOf([p]);
    forall x | x in rows ensures Verdict(x, [p]).Some? {
      assert x == rows[0] || x == rows[1] || x == rows[2];
    }
    assert [p][0].eval(rows[1]) == Some(false);
    assert keep(rows[0]) && !keep(rows[1]) && keep(rows[2]);
    assert rows[1..][1..] == [rows[2]];
    assert [rows[2]][1..] == [];
    assert Seqs.Filter([rows[2]], keep) == [rows[2]];
    assert Seqs.Filter(rows[1..], keep) == [rows[2]];
  }

  /** Once `age` = [25, 15, 30] is added to the `user_id` table whose queue
      holds the `age > 18` filter, applying keeps two rows and two columns and
      empties the queue. */
  lemma AgeFilterFiresOnceAdded(df3: Table)
    requires df3.columns == {"user_id", "age"}
    requires HopperKey in df3.meta && df3.meta[HopperKey] == Filters([AgeOver18()])
    requires |df3.rows| == 3 && forall i :: 0 <= i < 3 ==> "age" in df3.rows[i]
    requires df3.rows[0]["age"] == Int(25) && df3.rows[1]["age"] == Int(15) && df3.rows[2]["age"] == Int(30)
    ensures ApplyReadyFilters(Init(df3)).Success?
    ensures |ApplyReadyFilters(Init(df3)).value.result.rows| == 2
    ensures |ApplyReadyFilters(Init(df3)).value.result.columns| == 2
    ensures WellFormed(ApplyReadyFilters(Init(df3)).value.result.meta)
    ensures ListFilters(ApplyReadyFilters(Init(df3)).value.result) == []
  {
    var p := AgeOver18();
    assert Init(df3) == df3;
    assert |df3.columns| == 2;
    assert Ready(p, df3.columns);
    assert PendingOf(df3.meta) == [p];
    assert ReadyPart([p], df3.columns) == [p];
    assert WaitingPart([p], df3.columns) == [];
    AgeFilterKeepsTwo(df3.rows);
  }
}
