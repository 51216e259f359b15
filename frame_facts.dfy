/** What building a frame from a plan guarantees, for any way of running
    the fetches: when it succeeds, which names it holds and where each
    column's cells come from; when it fails, which error it reports. */
module FrameFacts {
  import opened Model
  import opened Frame
  import opened Export

  /** Where a name was last fetched in the plan, or -1 if it never was. */
  function LastFetchOf(plan: seq<Fetch>, name: string): (i: int)
    ensures -1 <= i < |plan|
    ensures 0 <= i ==> plan[i].column == name
    ensures forall j :: i < j < |plan| ==> plan[j].column != name
  {
    if plan == [] then -1
    else if plan[|plan| - 1].column == name then |plan| - 1
    else LastFetchOf(plan[..|plan| - 1], name)
  }

  /** A frame is built iff every fetch of the plan succeeds. */
  lemma {:induction false} FrameBuiltIff(fetch: Fetcher, plan: seq<Fetch>)
    ensures BuildFrame(fetch, plan).Ok? <==> forall i :: 0 <= i < |plan| ==> fetch(plan[i]).Ok?
  {
    if plan != [] {
      var n := |plan| - 1;
      FrameBuiltIff(fetch, plan[..n]);
      assert forall i :: 0 <= i < n ==> plan[..n][i] == plan[i];
    }
  }

  /** A failed frame build reports the error of the first failing fetch. */
  lemma {:induction false} FrameFirstFailure(fetch: Fetcher, plan: seq<Fetch>)
    requires BuildFrame(fetch, plan).Err?
    ensures exists i :: && 0 <= i < |plan|
                        && fetch(plan[i]) == Err(BuildFrame(fetch, plan).failure)
                        && forall j :: 0 <= j < i ==> fetch(plan[j]).Ok?
  {
    var n := |plan| - 1;
    var init := plan[..n];
    var e := BuildFrame(fetch, plan).failure;
    if BuildFrame(fetch, init).Err? {
      FrameFirstFailure(fetch, init);
      var i :| 0 <= i < n && fetch(init[i]) == Err(e)
        && forall j :: 0 <= j < i ==> fetch(init[j]).Ok?;
      assert forall j :: 0 <= j <= i ==> init[j] == plan[j];
    } else {
      assert fetch(plan[n]) == Err(e);
      FrameBuiltIff(fetch, init);
      assert forall j :: 0 <= j < n ==> init[j] == plan[j];
    }
  }

  /** A built frame has the fetched names in first-occurrence order, each
      once. */
  lemma {:induction false} FrameNames(fetch: Fetcher, plan: seq<Fetch>)
    requires BuildFrame(fetch, plan).Ok?
    ensures Names(BuildFrame(fetch, plan).value) == Dedup(Columns(plan))
    ensures Distinct(Names(BuildFrame(fetch, plan).value))
  {
    if plan != [] {
      var n := |plan| - 1;
      var init := plan[..n];
      FrameNames(fetch, init);
      AssignSemantics(BuildFrame(fetch, init).value, Column(plan[n].column, fetch(plan[n]).value));
      DedupMembers(Columns(init));
      assert Columns(plan) == Columns(init) + [plan[n].column];
      assert Columns(plan)[..n] == Columns(init);
    }
  }

  /** In a built frame, the column for a name holds the cells of that
      name's last fetch (an earlier fetch of the same name is overwritten
      in place). */
  lemma {:induction false} FrameCells(fetch: Fetcher, plan: seq<Fetch>)
    requires BuildFrame(fetch, plan).Ok?
    ensures forall k :: 0 <= k < |BuildFrame(fetch, plan).value| ==>
      var col := BuildFrame(fetch, plan).value[k];
      var i := LastFetchOf(plan, col.name);
      0 <= i && fetch(plan[i]) == Ok(col.cells)
  {
    if plan != [] {
      var n := |plan| - 1;
      var init := plan[..n];
      FrameCells(fetch, init);
      var df := BuildFrame(fetch, init).value;
      var c := Column(plan[n].column, fetch(plan[n]).value);
      var df' := BuildFrame(fetch, plan).value;
      assert df' == Assign(df, c);
      AssignSemantics(df, c);
      forall k | 0 <= k < |df'|
        ensures var i := LastFetchOf(plan, df'[k].name);
          0 <= i && fetch(plan[i]) == Ok(df'[k].cells)
      {
        if df'[k].name != c.name {
          var i := LastFetchOf(init, df'[k].name);
          assert df'[k] == df[k];
          assert LastFetchOf(plan, df'[k].name) == i;
          assert init[i] == plan[i];
        }
      }
    }
  }

  /** Running one more fetch assigns its cells into the frame, or stops the
      build with its error. */
  lemma BuildFrameStep(fetch: Fetcher, plan: seq<Fetch>, f: Fetch)
    requires BuildFrame(fetch, plan).Ok?
    ensures fetch(f).Ok? ==>
      BuildFrame(fetch, plan + [f])
        == Ok(Assign(BuildFrame(fetch, plan).value, Column(f.column, fetch(f).value)))
    ensures fetch(f).Err? ==> BuildFrame(fetch, plan + [f]) == Err(fetch(f).failure)
  {
    assert (plan + [f])[..|plan|] == plan;
  }

  /** Once the frame build has failed on a prefix of the plan, later
      fetches cannot change the outcome: the export stops there. */
  lemma {:induction false} BuildFrameStops(fetch: Fetcher, plan: seq<Fetch>, n: nat)
    requires n <= |plan|
    requires BuildFrame(fetch, plan[..n]).Err?
    ensures BuildFrame(fetch, plan) == BuildFrame(fetch, plan[..n])
  {
    if n < |plan| {
      var m := |plan| - 1;
      assert plan[..m][..n] == plan[..n];
      BuildFrameStops(fetch, plan[..m], n);
    } else {
      assert plan[..n] == plan;
    }
  }
}
