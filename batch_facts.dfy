/** What a batch guarantees, for any per-table exporter: files in list order,
    stopping at the first failing table. */
module BatchFacts {
  import opened Model
  import opened Export

  /** A batch writes one file per table in list order and stops at the
      first table that fails, with that table's error; without a failure
      every table has been written. */
  lemma {:induction false} BatchOutcome(exporter: Exporter, tables: seq<TableRow>)
    ensures var b := ExportAll(exporter, tables);
      && |b.written| <= |tables|
      && (forall i :: 0 <= i < |b.written| ==> exporter(tables[i]) == Ok(b.written[i]))
      && (b.failure.None? ==> |b.written| == |tables|)
      && (b.failure.Some? ==>
            |b.written| < |tables| && exporter(tables[|b.written|]) == Err(b.failure.value))
  {
    if tables != [] {
      var n := |tables| - 1;
      var init := tables[..n];
      BatchOutcome(exporter, init);
      assert forall i :: 0 <= i < n ==> init[i] == tables[i];
    }
  }

  /** Exporting one more table appends its file, or stops the batch with
      its error. */
  lemma BatchStep(exporter: Exporter, tables: seq<TableRow>, i: nat)
    requires i < |tables|
    requires ExportAll(exporter, tables[..i]).failure.None?
    ensures exporter(tables[i]).Ok? ==>
      ExportAll(exporter, tables[..i + 1])
        == Batch(ExportAll(exporter, tables[..i]).written + [exporter(tables[i]).value], None)
    ensures exporter(tables[i]).Err? ==>
      ExportAll(exporter, tables[..i + 1])
        == Batch(ExportAll(exporter, tables[..i]).written, Some(exporter(tables[i]).failure))
  {
    assert tables[..i + 1][..i] == tables[..i];
  }

  /** Once a table of the batch has failed, the tables after it are never
      exported. */
  lemma {:induction false} BatchStops(exporter: Exporter, tables: seq<TableRow>, n: nat)
    requires n <= |tables|
    requires ExportAll(exporter, tables[..n]).failure.Some?
    ensures ExportAll(exporter, tables) == ExportAll(exporter, tables[..n])
  {
    if n < |tables| {
      var m := |tables| - 1;
      assert tables[..m][..n] == tables[..n];
      BatchStops(exporter, tables[..m], n);
    } else {
      assert tables[..n] == tables;
    }
  }
}
