/** The statement texts the connector issues, character for character: each
    is a triple-quoted literal that opens with a line break, puts every line
    at the literal's own indentation and ends on an indented empty line. */
module Sql {

  function Spaces(n: nat): (r: string)
    ensures |r| == n
    ensures forall i :: 0 <= i < n ==> r[i] == ' '
  {
    seq(n, _ => ' ')
  }

  /** Two indented lines: a select list and the table it reads. */
  function Block2(indent: nat, a: string, b: string): string
  {
    var pad := Spaces(indent);
    "\n" + pad + a + "\n" + pad + b + "\n" + pad
  }

  function Block3(indent: nat, a: string, b: string, c: string): string
  {
    var pad := Spaces(indent);
    "\n" + pad + a + "\n" + pad + b + "\n" + pad + c + "\n" + pad
  }

  function Block4(indent: nat, a: string, b: string, c: string, d: string): string
  {
    var pad := Spaces(indent);
    "\n" + pad + a + "\n" + pad + b + "\n" + pad + c + "\n" + pad + d + "\n" + pad
  }

  /** Base tables outside schema dbo, ordered by schema (get_all_tables). */
  const TablesQuery: string :=
    Block4(8, "SELECT TABLE_SCHEMA, TABLE_NAME",
              "FROM INFORMATION_SCHEMA.TABLES",
              "WHERE TABLE_TYPE = 'BASE TABLE' and TABLE_SCHEMA != 'dbo'",
              "ORDER BY TABLE_SCHEMA;")

  /** The columns of a table, selected by table name only (not by schema). */
  function ColumnsQuery(table: string): string
  {
    Block3(12, "SELECT COLUMN_NAME, DATA_TYPE",
               "FROM INFORMATION_SCHEMA.COLUMNS",
               "WHERE TABLE_NAME = N'" + table + "';")
  }

  function FromLine(schema: string, table: string): string
  {
    "FROM " + schema + "." + table
  }

  function GeographyQuery(schema: string, table: string, column: string): string
  {
    Block2(20, "SELECT " + column + ".Lat, " + column + ".Long", FromLine(schema, table))
  }

  function HierarchyQuery(schema: string, table: string, column: string): string
  {
    Block2(20, "SELECT \"" + column + "\".ToString()", FromLine(schema, table))
  }

  function ScalarQuery(schema: string, table: string, column: string): string
  {
    Block2(20, "SELECT \"" + column + "\"", FromLine(schema, table))
  }

  /** The two catalog statements line by line, as the literals spell them:
      the table list at 8 spaces of indentation, the column catalog at 12. */
  lemma CatalogQueryTexts(table: string)
    ensures Spaces(8) == "        " && Spaces(12) == "            "
    ensures TablesQuery ==
      "\n" + Spaces(8) + "SELECT TABLE_SCHEMA, TABLE_NAME" +
      "\n" + Spaces(8) + "FROM INFORMATION_SCHEMA.TABLES" +
      "\n" + Spaces(8) + "WHERE TABLE_TYPE = 'BASE TABLE' and TABLE_SCHEMA != 'dbo'" +
      "\n" + Spaces(8) + "ORDER BY TABLE_SCHEMA;" +
      "\n" + Spaces(8)
    ensures ColumnsQuery(table) ==
      "\n" + Spaces(12) + "SELECT COLUMN_NAME, DATA_TYPE" +
      "\n" + Spaces(12) + "FROM INFORMATION_SCHEMA.COLUMNS" +
      "\n" + Spaces(12) + ("WHERE TABLE_NAME = N'" + table + "';") +
      "\n" + Spaces(12)
  {
  }
}
