/** What exporting one table against a server guarantees: the file name,
    the exported columns and their cells, and the files of a whole batch. */
module TableFacts {
  import opened Model
  import opened Frame
  import opened Export
  import PlanFacts
  import FrameFacts
  import BatchFacts
  import Sql

  /** Every exported table is written to `Database/<schema>.<table>.csv`,
      and a refused column catalog query stops its export. */
  lemma ExportedPath(server: Server, t: TableRow)
    ensures TableExport(server, t).Ok? ==>
      TableExport(server, t).value.path == CsvPath(t)
    ensures server.columns(Sql.ColumnsQuery(t.name)).Refused? ==>
      TableExport(server, t) == Err(QueryFailed(Sql.ColumnsQuery(t.name)))
  {
  }

  /** The columns of an exported table: exactly the catalog's names that are
      not excluded, each once, in catalog order of first appearance; so
      `rowguid` and `ModifiedDate` are never among them. */
  lemma ExportedColumns(server: Server, t: TableRow)
    requires TableExport(server, t).Ok?
    ensures server.columns(Sql.ColumnsQuery(t.name)).Rows?
    ensures var cat := server.columns(Sql.ColumnsQuery(t.name)).rows;
      var names := Names(TableExport(server, t).value.frame);
      && names == Dedup(Columns(PlanColumns(t, cat)))
      && Distinct(names)
      && forall x :: x in names <==> !IsExcluded(x) && exists i :: 0 <= i < |cat| && cat[i].name == x
  {
    var cat := server.columns(Sql.ColumnsQuery(t.name)).rows;
    var plan := PlanColumns(t, cat);
    FrameFacts.FrameNames(FetcherOf(server), plan);
    DedupMembers(Columns(plan));
    PlanFacts.PlanIsOrderedSelection(t, cat);
    PlanFacts.KeptPositionsExact(cat);
    var idx := PlanFacts.KeptPositions(cat);
    forall x
      ensures x in Columns(plan) <==> !IsExcluded(x) && exists i :: 0 <= i < |cat| && cat[i].name == x
    {
      if x in Columns(plan) {
        var j :| 0 <= j < |plan| && Columns(plan)[j] == x;
        assert cat[idx[j]].name == x;
      }
      if !IsExcluded(x) && exists i :: 0 <= i < |cat| && cat[i].name == x {
        var i :| 0 <= i < |cat| && cat[i].name == x;
        assert i in idx;
        var j :| 0 <= j < |idx| && idx[j] == i;
        assert Columns(plan)[j] == x;
      }
    }
  }

  /** With distinct catalog names (the usual case), the exported columns are
      exactly the catalog's names in catalog order, minus the excluded ones. */
  lemma ExportedColumnsInCatalogOrder(server: Server, t: TableRow)
    requires TableExport(server, t).Ok?
    requires server.columns(Sql.ColumnsQuery(t.name)).Rows?
    requires var cat := server.columns(Sql.ColumnsQuery(t.name)).rows;
      forall i, j :: 0 <= i < j < |cat| ==> cat[i].name != cat[j].name
    ensures var cat := server.columns(Sql.ColumnsQuery(t.name)).rows;
      Names(TableExport(server, t).value.frame) == Columns(PlanColumns(t, cat))
  {
    var cat := server.columns(Sql.ColumnsQuery(t.name)).rows;
    var plan := PlanColumns(t, cat);
    PlanFacts.PlanIsOrderedSelection(t, cat);
    PlanFacts.KeptPositionsExact(cat);
    var idx := PlanFacts.KeptPositions(cat);
    assert Distinct(Columns(plan)) by {
      forall j, j' | 0 <= j < j' < |plan| ensures Columns(plan)[j] != Columns(plan)[j'] {
        assert idx[j] < idx[j'];
      }
    }
    FrameFacts.FrameNames(FetcherOf(server), plan);
    DedupOfDistinct(Columns(plan));
  }

  /** Each exported column holds one cell per row that its (last) fetch
      query returned, in cursor order. */
  lemma ExportedCellCounts(server: Server, t: TableRow)
    requires TableExport(server, t).Ok?
    ensures server.columns(Sql.ColumnsQuery(t.name)).Rows?
    ensures var plan := PlanColumns(t, server.columns(Sql.ColumnsQuery(t.name)).rows);
      var df := TableExport(server, t).value.frame;
      forall k :: 0 <= k < |df| ==>
        var i := FrameFacts.LastFetchOf(plan, df[k].name);
        && 0 <= i
        && server.data(plan[i].query).Rows?
        && |df[k].cells| == |server.data(plan[i].query).rows|
  {
    var plan := PlanColumns(t, server.columns(Sql.ColumnsQuery(t.name)).rows);
    var df := TableExport(server, t).value.frame;
    FrameFacts.FrameCells(FetcherOf(server), plan);
    forall k | 0 <= k < |df|
      ensures var i := FrameFacts.LastFetchOf(plan, df[k].name);
        0 <= i && server.data(plan[i].query).Rows? && |df[k].cells| == |server.data(plan[i].query).rows|
    {
      var i := FrameFacts.LastFetchOf(plan, df[k].name);
      var f := plan[i];
      assert Fetched(server, f) == Ok(df[k].cells);
      if server.data(f.query).Rows? {
        PlanFacts.ExtractCells(f.strategy, f.query, server.data(f.query).rows);
      }
    }
  }

  /** The column catalog is looked up by table name alone: two tables of
      the same name in different schemas read the same catalog rows and so
      plan the same column names, in the same order and with the same
      strategies. */
  lemma {:induction false} SameNameSamePlan(server: Server, t1: TableRow, t2: TableRow, cat: seq<ColumnRow>)
    requires t1.name == t2.name
    ensures server.columns(Sql.ColumnsQuery(t1.name)) == server.columns(Sql.ColumnsQuery(t2.name))
    ensures |PlanColumns(t1, cat)| == |PlanColumns(t2, cat)|
    ensures forall j :: 0 <= j < |PlanColumns(t1, cat)| ==>
      && PlanColumns(t1, cat)[j].column == PlanColumns(t2, cat)[j].column
      && PlanColumns(t1, cat)[j].strategy == PlanColumns(t2, cat)[j].strategy
  {
    if cat != [] {
      var n := |cat| - 1;
      SameNameSamePlan(server, t1, t2, cat[..n]);
    }
  }

  /** Two tables of the same name, in whatever schemas, are exported with
      the same column names in the same order. */
  lemma SameNameSameColumns(server: Server, t1: TableRow, t2: TableRow)
    requires t1.name == t2.name
    requires TableExport(server, t1).Ok? && TableExport(server, t2).Ok?
    ensures Names(TableExport(server, t1).value.frame) == Names(TableExport(server, t2).value.frame)
  {
    ExportedColumns(server, t1);
    ExportedColumns(server, t2);
    var cat := server.columns(Sql.ColumnsQuery(t1.name)).rows;
    SameNameSamePlan(server, t1, t2, cat);
    assert Columns(PlanColumns(t1, cat)) == Columns(PlanColumns(t2, cat));
  }

  /** A table whose own column queries all return no rows is exported with all
      its columns and no cells: only the header line. */
  lemma EmptyTableExport(server: Server, t: TableRow)
    requires TableExport(server, t).Ok?
    requires server.columns(Sql.ColumnsQuery(t.name)).Rows?
    requires forall f :: f in PlanColumns(t, server.columns(Sql.ColumnsQuery(t.name)).rows) ==>
      server.data(f.query) == Rows([])
    ensures forall k :: 0 <= k < |TableExport(server, t).value.frame| ==>
      TableExport(server, t).value.frame[k].cells == []
  {
    ExportedCellCounts(server, t);
  }

  /** A batch against a server writes `Database/<schema>.<table>.csv` for
      the tables in list order, each file the table's export. */
  lemma BatchFiles(server: Server, tables: seq<TableRow>)
    ensures var b := ExportAll(ExporterOf(server), tables);
      |b.written| <= |tables| &&
      forall i :: 0 <= i < |b.written| ==>
        && TableExport(server, tables[i]) == Ok(b.written[i])
        && b.written[i].path == CsvPath(tables[i])
  {
    var b := ExportAll(ExporterOf(server), tables);
    BatchFacts.BatchOutcome(ExporterOf(server), tables);
    forall i | 0 <= i < |b.written|
      ensures TableExport(server, tables[i]) == Ok(b.written[i])
        && b.written[i].path == CsvPath(tables[i])
    {
      assert ExporterOf(server)(tables[i]) == Ok(b.written[i]);
      ExportedPath(server, tables[i]);
    }
  }
}
