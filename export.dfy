/** The column export plan of `tables_to_csv`: which catalog columns are
    exported, how each one is fetched, how its rows become cells, and what
    each table's export and the whole batch produce. */
module Export {
  import opened Model
  import opened Frame
  import Sql

  /** The two columns never exported, whatever their type. */
  predicate IsExcluded(name: string)
  {
    name == "rowguid" || name == "ModifiedDate"
  }

  /** Dispatch on the catalog's DATA_TYPE, by exact, case-sensitive match. */
  function StrategyOf(dataType: string): (k: Strategy)
    ensures k == Geography <==> dataType == "geography"
    ensures k == HierarchyId <==> dataType == "hierarchyid"
    ensures k == Plain <==> dataType != "geography" && dataType != "hierarchyid"
  {
    if dataType == "geography" then Geography
    else if dataType == "hierarchyid" then HierarchyId
    else Plain
  }

  function FetchQuery(t: TableRow, column: string, k: Strategy): string
  {
    match k
    case Geography => Sql.GeographyQuery(t.schema, t.name, column)
    case HierarchyId => Sql.HierarchyQuery(t.schema, t.name, column)
    case Plain => Sql.ScalarQuery(t.schema, t.name, column)
  }

  /** The fetch issued for one non-excluded column of table `t`. */
  function PlanOf(t: TableRow, c: ColumnRow): (f: Fetch)
    ensures f.column == c.name && f.strategy == StrategyOf(c.dataType)
  {
    var k := StrategyOf(c.dataType);
    Fetch(c.name, k, FetchQuery(t, c.name, k))
  }

  /** Each statement text is two indented lines, the select list then the
      table: `c.Lat, c.Long` unquoted for geography, `"c".ToString()` for
      hierarchyid, `"c"` for every other type. */
  lemma PlanOfQueryText(t: TableRow, c: ColumnRow)
    ensures c.dataType == "geography" ==>
      PlanOf(t, c).query
        == "\n" + Sql.Spaces(20) + ("SELECT " + c.name + ".Lat, " + c.name + ".Long")
         + "\n" + Sql.Spaces(20) + ("FROM " + t.schema + "." + t.name) + "\n" + Sql.Spaces(20)
    ensures c.dataType == "hierarchyid" ==>
      PlanOf(t, c).query
        == "\n" + Sql.Spaces(20) + ("SELECT \"" + c.name + "\".ToString()")
         + "\n" + Sql.Spaces(20) + ("FROM " + t.schema + "." + t.name) + "\n" + Sql.Spaces(20)
    ensures c.dataType != "geography" && c.dataType != "hierarchyid" ==>
      PlanOf(t, c).query
        == "\n" + Sql.Spaces(20) + ("SELECT \"" + c.name + "\"")
         + "\n" + Sql.Spaces(20) + ("FROM " + t.schema + "." + t.name) + "\n" + Sql.Spaces(20)
  {
  }

  /** The fetches for a table's catalog rows, in catalog order, skipping the
      excluded names before any type is looked at. */
  function PlanColumns(t: TableRow, cat: seq<ColumnRow>): seq<Fetch>
  {
    if cat == [] then []
    else
      var last := cat[|cat| - 1];
      PlanColumns(t, cat[..|cat| - 1]) + (if IsExcluded(last.name) then [] else [PlanOf(t, last)])
  }

  function Columns(plan: seq<Fetch>): (r: seq<string>)
    ensures |r| == |plan|
    ensures forall j :: 0 <= j < |plan| ==> r[j] == plan[j].column
  {
    seq(|plan|, j requires 0 <= j < |plan| => plan[j].column)
  }

  /** Whether a result row has the shape its strategy reads: exactly two
      fields to unpack into (lat, long), or at least a field 0. */
  predicate Fits(k: Strategy, row: Row)
  {
    if k == Geography then |row| == 2 else |row| >= 1
  }

  function CellOf(k: Strategy, row: Row): Cell
    requires Fits(k, row)
  {
    if k == Geography then Pair(row[0], row[1]) else Scalar(row[0])
  }

  /** The error a misshapen row raises: an unpacking error on the geography
      path, an index error on the other two. */
  function ShapeFailure(k: Strategy, query: string, i: nat): Failure
  {
    if k == Geography then UnpackFailed(query, i) else IndexFailed(query, i)
  }

  /** The cells of one fetched column, row by row in cursor order, until a
      row does not fit. */
  function Extract(k: Strategy, query: string, rows: seq<Row>): Result<seq<Cell>>
  {
    if rows == [] then Ok([])
    else
      var n := |rows| - 1;
      match Extract(k, query, rows[..n])
      case Err(e) => Err(e)
      case Ok(cells) =>
        if Fits(k, rows[n]) then Ok(cells + [CellOf(k, rows[n])])
        else Err(ShapeFailure(k, query, n))
  }

  /** Execute one fetch and extract its cells. */
  function Fetched(server: Server, f: Fetch): Result<seq<Cell>>
  {
    match server.data(f.query)
    case Refused => Err(QueryFailed(f.query))
    case Rows(rows) => Extract(f.strategy, f.query, rows)
  }

  /** Running a fetch, as a value: the frame build depends on nothing else. */
  type Fetcher = Fetch -> Result<seq<Cell>>

  function FetcherOf(server: Server): Fetcher
  {
    f => Fetched(server, f)
  }

  /** The frame built by running the fetches in order, each assigned into
      the frame under its column name; the first failing fetch stops it. */
  function BuildFrame(fetch: Fetcher, plan: seq<Fetch>): Result<Table>
  {
    if plan == [] then Ok([])
    else
      var last := plan[|plan| - 1];
      match BuildFrame(fetch, plan[..|plan| - 1])
      case Err(e) => Err(e)
      case Ok(df) =>
        match fetch(last)
        case Err(e) => Err(e)
        case Ok(cells) => Ok(Assign(df, Column(last.column, cells)))
  }

  /** One output file: its path and the frame written to it. */
  datatype CsvFile = CsvFile(path: string, frame: Table)

  function CsvPath(t: TableRow): string
  {
    "Database/" + t.schema + "." + t.name + ".csv"
  }

  /** The export of one table: read its columns from the catalog, build
      its frame, name its file. */
  function TableExport(server: Server, t: TableRow): Result<CsvFile>
  {
    var q := Sql.ColumnsQuery(t.name);
    match server.columns(q)
    case Refused => Err(QueryFailed(q))
    case Rows(cat) =>
      match BuildFrame(FetcherOf(server), PlanColumns(t, cat))
      case Err(e) => Err(e)
      case Ok(df) => Ok(CsvFile(CsvPath(t), df))
  }

  /** Exporting one table, as a value: the batch depends on nothing else. */
  type Exporter = TableRow -> Result<CsvFile>

  function ExporterOf(server: Server): Exporter
  {
    t => TableExport(server, t)
  }

  /** What a batch leaves behind: the files written, in order, and the
      error that stopped it, if any. */
  datatype Batch = Batch(written: seq<CsvFile>, failure: Option<Failure>)

  /** The tables exported in list order until the first one that fails. */
  function ExportAll(exporter: Exporter, tables: seq<TableRow>): Batch
  {
    if tables == [] then Batch([], None)
    else
      var n := |tables| - 1;
      var b := ExportAll(exporter, tables[..n]);
      if b.failure.Some? then b
      else
        match exporter(tables[n])
        case Err(e) => Batch(b.written, Some(e))
        case Ok(file) => Batch(b.written + [file], None)
  }
}
