# AdventureWorks table export, modelled in Dafny

This project models the export core of the `Connector` class in `connector.py`.
`get_all_tables` lists the user tables. `tables_to_csv` then walks each table's
catalog columns in catalog order. It skips the two fixed columns `rowguid` and
`ModifiedDate`, whatever their type. It issues one `SELECT` per remaining column:
- `geography` columns are fetched as `.Lat, .Long` and stored as `[lat, long]` pairs;
- `hierarchyid` columns are fetched as `.ToString()` and stored as field 0;
- every other type is fetched as the quoted column and stored as field 0.

The fetched columns are assigned one by one into a DataFrame. The table is
written to `Database/<schema>.<table>.csv`.

How the model is laid out:

- `Model` (model.dfy): the values involved. Driver fields are opaque. Rows are
  sequences of fields. Cells are a scalar or a (lat, long) pair. Failures are
  Python's exceptions. `Server` stands for the database behind the cursor. It
  maps each executed statement *text* to the rows the cursor then yields, or to a
  refusal.
- `Sql` (sql.dfy): every statement text, character for character, including the
  line breaks and indentation of the triple-quoted literals.
- `Frame` (frame.dfy): the DataFrame as an ordered sequence of named columns.
  `df[name] = values` replaces a column already present in place. Otherwise it
  appends a new column.
- `Export` (export.dfy): the pure column plan. This covers exclusion, type
  dispatch, query text, row extraction, frame building, one table's export and
  the batch.
- `PlanFacts`, `FrameFacts`, `BatchFacts`, `TableFacts`: the properties of that
  plan.
- `Connector` (connector.dfy): the source's loops as methods. They drain the
  cursor, skip, dispatch, fetch, assign and move to the next table. Each method is
  proved equal to the pure plan.

What the code matches exactly, and what the model keeps of it:
- The type test is the exact, case-sensitive string `hierarchyid` (and
  `geography`); any other spelling takes the scalar path.
- No fetch query sorts its rows, so cells come in cursor order. The model makes
  no ordering claim beyond that.
- The column catalog query filters by `TABLE_NAME` only, so the catalog rows of a
  table depend on its name and not on its schema. The model keeps this
  (`SameNameSamePlan`, `SameNameSameColumns`). When the catalog repeats a column
  name, pandas keeps the first position and the last fetched cells. The model
  keeps that too (`FrameNames`, `FrameCells`).

Python exceptions are modelled as a `Failure` that ends the batch. This covers a
refused statement, a geography row that does not unpack into two values, and a
row without a field 0. Files written before the failure stay in the result.

## Model

| member | source | states |
|---|---|---|
| `Connector.GetAllTables` | connector.py:62-76 | Returns exactly the rows the table query yields, in cursor order, with none dropped or repeated. A refused query is an error. The query text is `Sql.TablesQuery`, stated line by line in `Sql.CatalogQueryTexts`. |
| `Connector.ReadColumns` | connector.py:84-93 | `col_list` is exactly the rows the column-catalog query for the table's name yields, in cursor order. A refused query is an error. The query text is `Sql.ColumnsQuery`, stated line by line in `Sql.CatalogQueryTexts`. |
| `Connector.Dispatch` | connector.py:100-130 | The `if`/`elif`/`else` on `data_type` picks the strategy and statement text that the plan assigns to the column. |
| `Connector.FetchColumn` | connector.py:106-110 | The row loop builds the cells the extraction specification gives, or stops with the error of the first misfitting row. The same applies to the loops at connector.py:119-123 and connector.py:132-136. |
| `Connector.ExportTable` | connector.py:84-142 | One table's pass (read columns, skip, dispatch, fetch, assign, name the file) yields exactly the pure table export, failures included. |
| `Connector.TablesToCsv` | connector.py:78-142 | Processing `tables_list` in order yields exactly the pure batch: the files written and the error that stopped it. |
| `Export.StrategyOf` | connector.py:100-137 | `geography` exactly selects the pair path and `hierarchyid` exactly selects the `ToString()` path. Every other type, including other spellings, takes the scalar path. |
| `Export.PlanOf` | connector.py:96-130 | A kept column is fetched under its own name, on the strategy its type selects. |
| `Export.PlanOfQueryText` | connector.py:101-130 | The exact text per strategy: `SELECT c.Lat, c.Long` unquoted, `SELECT "c".ToString()`, or `SELECT "c"`, then `FROM schema.table`, with the literals' line breaks and 20-space indentation. |
| `Frame.AssignSemantics` | connector.py:111 | `df[column] = Series` keeps names and positions and replaces only that column when the name is present. Otherwise it appends. Distinct names stay distinct. The same assignment is at connector.py:124 and connector.py:137. |
| `PlanFacts.KeptPositionsExact` | connector.py:96-98 | The kept catalog positions increase and are exactly those whose name is neither `rowguid` nor `ModifiedDate`. |
| `PlanFacts.PlanIsOrderedSelection` | connector.py:92-100 | The j-th fetch is made from the j-th kept catalog row, so kept columns keep catalog order, none is added and each gets exactly one fetch. No planned column is excluded, whatever its type: exclusion is tested before dispatch. |
| `PlanFacts.ExtractCells` | connector.py:106-136 | Extraction gives one cell per result row in cursor order: `Pair(row[0], row[1])` for geography and `Scalar(row[0])` otherwise. It fails iff some row has the wrong shape, with an unpack or index error at the first such row. |
| `PlanFacts.SalesOrderPlan` | connector.py:96-104 | A table with OrderID, CustomerID, rowguid and a geography ShipGeo plans OrderID, CustomerID and ShipGeo, with ShipGeo on the pair path. |
| `FrameFacts.FrameBuiltIff` | connector.py:96-137 | A table's frame is built iff every planned fetch succeeds. |
| `FrameFacts.FrameFirstFailure` | connector.py:96-137 | A failed frame build carries the error of the first failing fetch, and every earlier fetch succeeded. |
| `FrameFacts.FrameNames` | connector.py:95-137 | The frame's column names are the planned names in first-occurrence order, each exactly once. |
| `FrameFacts.FrameCells` | connector.py:106-137 | Each frame column holds the cells of the last fetch of that name. |
| `FrameFacts.LastFetchOf` | connector.py:111-137 | Gives the index of the last fetch of a name, or -1. No later fetch has that name. |
| `TableFacts.ExportedPath` | connector.py:142 | An exported table goes to `Database/<schema>.<table>.csv`. A refused column-catalog query (connector.py:85-91) fails the table. |
| `TableFacts.ExportedColumns` | connector.py:83-137 | The exported columns are exactly the catalog names that are not `rowguid`/`ModifiedDate`, each once, in first-appearance order. So the two excluded names never appear. |
| `TableFacts.ExportedColumnsInCatalogOrder` | connector.py:92-137 | With distinct catalog names, the exported columns are the catalog's names in catalog order with the excluded ones removed. |
| `TableFacts.ExportedCellCounts` | connector.py:106-137 | Each exported column has one cell per row its fetch query returned. |
| `TableFacts.EmptyTableExport` | connector.py:95-142 | When every fetch planned for this table returns no rows (other tables may have rows), every exported column is empty, so the file is the header alone. |
| `TableFacts.SameNameSameColumns` | connector.py:85-137 | Two exported tables with the same name, in whatever schemas, have the same column names in the same order. |
| `Sql.CatalogQueryTexts` | connector.py:64-69 | The table-list and column-catalog statements line by line: their four and three lines, the `N'<table>'` filter on name alone, and the 8- and 12-space indentation of the literals (connector.py:85-90). |
| `TableFacts.SameNameSamePlan` | connector.py:85-89 | Tables with the same name in different schemas read the same column catalog. They plan the same names and strategies in the same order. |
| `TableFacts.BatchFiles` | connector.py:83-142 | Each written file is its table's export, named `Database/<schema>.<table>.csv`, in `tables_list` order. |
| `BatchFacts.BatchOutcome` | connector.py:83-142 | One file per table in list order. A batch without a failure wrote every table. A failed batch stopped at the first failing table, with that table's error. |
| `BatchFacts.BatchStops` | connector.py:83-142 | Once a table has failed, the tables after it never change the outcome. |
| `FrameFacts.BuildFrameStops` | connector.py:96-137 | Once a column fetch has failed, the later columns never change the table's outcome. |
| `PlanFacts.ExtractStops` | connector.py:106-136 | Once a row has failed to fit, the later rows never change the column's outcome. |

## Left out

- The connection lifecycle: `__init__`, `__del__`, `set_database`, `activate_autocommit`, `deactivate_autocommit`, `get_cursor` and `recover_database` (connector.py:14-60). These are driver session plumbing and a server-side restore.
- The `USE <db>` that `get_all_tables` and `tables_to_csv` issue first (connector.py:63, 79). The `Server` value answers for the database already selected, and a failure of that statement is not modelled.
- Server-side SQL semantics: the `INFORMATION_SCHEMA` filters and the `ORDER BY TABLE_SCHEMA` (connector.py:64-69, 85-89). Each statement's rows are an input given by `Server`, not a computed filter.
- The cursor as one shared, mutable object. Each executed statement is modelled by the rows it yields, so re-executing on the same cursor (aliasing of result sets) is not captured.
- pandas beyond column assignment. Index alignment when Series of unequal length meet in one DataFrame is not modelled: each column keeps its own cells. `to_csv` text formatting is not modelled either: a written file is its path and its frame.
- Filesystem effects: the `os.path.exists`/`os.makedirs` check and the file write (connector.py:80-81, 142). Also the `print` calls (connector.py:107, 120, 133, 139-140).
- Latitude and longitude are driver floats. They are opaque `Field` values, with no numeric reasoning.
- The exception messages of the driver and of Python. A failure records only the kind, the statement text and the row position.
- `main.py`, a script that builds a `Connector` and chains the two modelled methods.
