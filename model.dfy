/** The values that flow between the database server and the exporter. */
module Model {

  /** A value the driver hands back for one field of a row. It is opaque:
      the exporter never looks inside it, it only moves it around. */
  datatype Field = Null | Datum(image: string)

  /** One result row as the cursor yields it: its fields in select-list order. */
  type Row = seq<Field>

  /** One row of the table catalog query: (TABLE_SCHEMA, TABLE_NAME). */
  datatype TableRow = TableRow(schema: string, name: string)

  /** One row of the column catalog query: (COLUMN_NAME, DATA_TYPE). */
  datatype ColumnRow = ColumnRow(name: string, dataType: string)

  /** What the server answers to one executed statement. */
  datatype Reply<T> = Rows(rows: seq<T>) | Refused

  /** The database as the exporter sees it through its cursor: for every
      statement text, the rows the cursor then yields (or a refusal). The
      three catalogs differ only in the shape of their rows. */
  datatype Server = Server(
    tables: string -> Reply<TableRow>,
    columns: string -> Reply<ColumnRow>,
    data: string -> Reply<Row>)

  /** The three fetch strategies for a column. */
  datatype Strategy = Geography | HierarchyId | Plain

  /** The value stored into an exported cell: a [lat, long] pair for a
      geography column, the row's first field otherwise. */
  datatype Cell = Scalar(value: Field) | Pair(lat: Field, long: Field)

  /** The decision taken for one exported column: its name, its strategy and
      the statement issued to fetch it. */
  datatype Fetch = Fetch(column: string, strategy: Strategy, query: string)

  /** The errors the export can stop with: the server refused a statement;
      a geography row did not unpack into (lat, long); a row had no field 0. */
  datatype Failure =
    | QueryFailed(query: string)
    | UnpackFailed(query: string, row: nat)
    | IndexFailed(query: string, row: nat)

  datatype Option<T> = None | Some(value: T)

  datatype Result<T> = Ok(value: T) | Err(failure: Failure)
}
