/** The connector's export methods as the source runs them: each drains the
    cursor after one statement into a list, and `TablesToCsv` walks the tables,
    their catalog columns and each column's rows in nested loops. */
module Connector {
  import opened Model
  import opened Frame
  import opened Export
  import PlanFacts
  import FrameFacts
  import BatchFacts
  import Sql

  /** `get_all_tables`: every row the table catalog query yields, in cursor
      order, nothing dropped or repeated. */
  method GetAllTables(server: Server) returns (r: Result<seq<TableRow>>)
    ensures server.tables(Sql.TablesQuery).Refused? ==> r == Err(QueryFailed(Sql.TablesQuery))
    ensures server.tables(Sql.TablesQuery).Rows? ==> r == Ok(server.tables(Sql.TablesQuery).rows)
  {
    var reply := server.tables(Sql.TablesQuery);
    if reply.Refused? {
      return Err(QueryFailed(Sql.TablesQuery));
    }
    var cursor := reply.rows;
    var tablesList: seq<TableRow> := [];
    var i := 0;
    while i < |cursor|
      invariant 0 <= i <= |cursor|
      invariant tablesList == cursor[..i]
    {
      tablesList := tablesList + [cursor[i]];
      i := i + 1;
    }
    assert cursor[..i] == cursor;
    return Ok(tablesList);
  }

  /** The column catalog read of one table (`col_list`): every row the
      column query for the table's name yields, in cursor order. */
  method ReadColumns(server: Server, tableName: string) returns (r: Result<seq<ColumnRow>>)
    ensures server.columns(Sql.ColumnsQuery(tableName)).Refused? ==>
      r == Err(QueryFailed(Sql.ColumnsQuery(tableName)))
    ensures server.columns(Sql.ColumnsQuery(tableName)).Rows? ==>
      r == Ok(server.columns(Sql.ColumnsQuery(tableName)).rows)
  {
    var colQuery := Sql.ColumnsQuery(tableName);
    var reply := server.columns(colQuery);
    if reply.Refused? {
      return Err(QueryFailed(colQuery));
    }
    var cursor := reply.rows;
    var colList: seq<ColumnRow> := [];
    var i := 0;
    while i < |cursor|
      invariant 0 <= i <= |cursor|
      invariant colList == cursor[..i]
    {
      colList := colList + [cursor[i]];
      i := i + 1;
    }
    assert cursor[..i] == cursor;
    return Ok(colList);
  }

  /** One column's `result_list`: a cell per row the fetch returns, in cursor
      order, or the error of the first row that does not fit. */
  method FetchColumn(server: Server, f: Fetch) returns (r: Result<seq<Cell>>)
    ensures r == Fetched(server, f)
  {
    var reply := server.data(f.query);
    if reply.Refused? {
      return Err(QueryFailed(f.query));
    }
    var cursor := reply.rows;
    var resultList: seq<Cell> := [];
    var i := 0;
    while i < |cursor|
      invariant 0 <= i <= |cursor|
      invariant Extract(f.strategy, f.query, cursor[..i]) == Ok(resultList)
    {
      var row := cursor[i];
      assert cursor[..i + 1][..i] == cursor[..i];
      if f.strategy == Geography {
        if |row| != 2 {
          PlanFacts.ExtractStops(f.strategy, f.query, cursor, i + 1);
          return Err(UnpackFailed(f.query, i));
        }
        resultList := resultList + [Pair(row[0], row[1])];
      } else {
        if |row| == 0 {
          PlanFacts.ExtractStops(f.strategy, f.query, cursor, i + 1);
          return Err(IndexFailed(f.query, i));
        }
        resultList := resultList + [Scalar(row[0])];
      }
      i := i + 1;
    }
    assert cursor[..i] == cursor;
    return Ok(resultList);
  }

  /** The `if`/`elif`/`else` on the column's type: the strategy and the
      statement text for one kept column. */
  method Dispatch(t: TableRow, column: string, dataType: string) returns (f: Fetch)
    ensures f == PlanOf(t, ColumnRow(column, dataType))
  {
    var strategy, query;
    if dataType == "geography" {
      strategy, query := Geography, Sql.GeographyQuery(t.schema, t.name, column);
    } else if dataType == "hierarchyid" {
      strategy, query := HierarchyId, Sql.HierarchyQuery(t.schema, t.name, column);
    } else {
      strategy, query := Plain, Sql.ScalarQuery(t.schema, t.name, column);
    }
    f := Fetch(column, strategy, query);
  }

  /** The body of the per-table loop of `tables_to_csv`: read the columns,
      skip the excluded names, dispatch each kept column on its type, fetch
      it and assign it into the frame, then name the output file. */
  method ExportTable(server: Server, t: TableRow) returns (r: Result<CsvFile>)
    ensures r == TableExport(server, t)
  {
    var cols := ReadColumns(server, t.name);
    if cols.Err? {
      return Err(cols.failure);
    }
    var colList := cols.value;
    var df: Table := [];
    var i := 0;
    while i < |colList|
      invariant 0 <= i <= |colList|
      invariant BuildFrame(FetcherOf(server), PlanColumns(t, colList[..i])) == Ok(df)
    {
      var column, dataType := colList[i].name, colList[i].dataType;
      ghost var plan := PlanColumns(t, colList[..i]);
      PlanFacts.PlanStep(t, colList, i);
      if column == "rowguid" || column == "ModifiedDate" {
        assert PlanColumns(t, colList[..i + 1]) == plan;
        i := i + 1;
        continue;
      }
      var f := Dispatch(t, column, dataType);
      var resultList := FetchColumn(server, f);
      assert PlanColumns(t, colList[..i + 1]) == plan + [f];
      FrameFacts.BuildFrameStep(FetcherOf(server), plan, f);
      if resultList.Err? {
        PlanFacts.PlanOfPrefix(t, colList, i + 1);
        FrameFacts.BuildFrameStops(FetcherOf(server), PlanColumns(t, colList), |PlanColumns(t, colList[..i + 1])|);
        return Err(resultList.failure);
      }
      df := Assign(df, Column(column, resultList.value));
      assert BuildFrame(FetcherOf(server), plan + [f]) == Ok(df);
      i := i + 1;
    }
    assert colList[..i] == colList;
    return Ok(CsvFile(CsvPath(t), df));
  }

  /** `tables_to_csv`: the tables in list order, one file each, until the
      first table whose export fails; files already written stay written. */
  method TablesToCsv(server: Server, tablesList: seq<TableRow>) returns (b: Batch)
    ensures b == ExportAll(ExporterOf(server), tablesList)
  {
    var written: seq<CsvFile> := [];
    var i := 0;
    while i < |tablesList|
      invariant 0 <= i <= |tablesList|
      invariant ExportAll(ExporterOf(server), tablesList[..i]) == Batch(written, None)
    {
      var file := ExportTable(server, tablesList[i]);
      BatchFacts.BatchStep(ExporterOf(server), tablesList, i);
      if file.Err? {
        BatchFacts.BatchStops(ExporterOf(server), tablesList, i + 1);
        return Batch(written, Some(file.failure));
      }
      written := written + [file.value];
      i := i + 1;
    }
    assert tablesList[..i] == tablesList;
    return Batch(written, None);
  }
}
