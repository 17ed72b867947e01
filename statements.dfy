/** The SQL text the handler sends to the store, built from names, types and values. */
module Statements {
  import opened Text
  import opened SqlTypes
  import opened Frames
  import opened Wrappers

  /** Identifiers are bracket-quoted. */
  function Bracket(name: string): string
  {
    "[" + name + "]"
  }

  /** One entry of the CREATE TABLE column list: `[name] TYPE`. */
  function ColumnDef(column: Column): string
  {
    Bracket(column.name) + " " + SqlType(column.dtype)
  }

  /** The column entries, one per DataFrame column, in column order. */
  function ColumnDefs(columns: seq<Column>): seq<string>
  {
    seq(|columns|, j requires 0 <= j < |columns| => ColumnDef(columns[j]))
  }

  /** `create_table`'s loop: append one `[name] TYPE` entry per column, in order. */
  method ColumnDefinitions(columns: seq<Column>) returns (defs: seq<string>)
    ensures |defs| == |columns|
    ensures forall j :: 0 <= j < |columns| ==>
              defs[j] == Bracket(columns[j].name) + " " + SqlType(columns[j].dtype)
  {
    defs := [];
    for j := 0 to |columns|
      invariant |defs| == j
      invariant forall k :: 0 <= k < j ==> defs[k] == ColumnDef(columns[k])
    {
      defs := defs + [ColumnDef(columns[j])];
    }
  }

  /** `CREATE TABLE t (<entries joined by ", ">);` over already built column entries. */
  function CreateTableText(table: string, entries: seq<string>): string
  {
    "CREATE TABLE " + table + " (" + Join(entries, ", ") + ");"
  }

  /** The CREATE TABLE statement for a DataFrame's columns. */
  function CreateTableSql(table: string, columns: seq<Column>): string
  {
    CreateTableText(table, ColumnDefs(columns))
  }

  /** One more column adds exactly one `, [name] TYPE` entry at the end of the column list. */
  lemma ColumnListSnoc(columns: seq<Column>, column: Column)
    requires |columns| > 0
    ensures Join(ColumnDefs(columns + [column]), ", ")
            == Join(ColumnDefs(columns), ", ") + ", " + Bracket(column.name) + " " + SqlType(column.dtype)
  {
    ColumnDefsSnoc(columns, column);
    JoinSnoc(ColumnDefs(columns), ColumnDef(column), ", ");
  }

  lemma ColumnDefsSnoc(columns: seq<Column>, column: Column)
    ensures ColumnDefs(columns + [column]) == ColumnDefs(columns) + [ColumnDef(column)]
  {
    assert ColumnDefs(columns + [column])[|columns|] == ColumnDef(column);
  }

  function AddColumnSql(table: string, column: string, sqlType: string): string
  {
    "ALTER TABLE " + table + " ADD COLUMN " + Bracket(column) + " " + sqlType + ";"
  }

  function DropColumnSql(table: string, column: string): string
  {
    "ALTER TABLE " + table + " DROP COLUMN " + Bracket(column) + ";"
  }

  function CopyColumnSql(table: string, target: string, source: string): string
  {
    "UPDATE " + table + " SET " + Bracket(target) + " = " + Bracket(source) + ";"
  }

  function RenameColumnSql(table: string, from: string, to: string): string
  {
    "ALTER TABLE " + table + " RENAME COLUMN " + Bracket(from) + " TO " + Bracket(to) + ";"
  }

  /** The name of the column that holds the converted values during a type change. */
  function TempName(column: string): string
  {
    column + "_temp"
  }

  /** Inverse of TempName: the column a temporary name stands for. */
  function TempBase(name: string): (r: Option<string>)
  {
    if |name| >= 5 && name[|name| - 5..] == "_temp" then Some(name[..|name| - 5]) else None
  }

  /** The temporary name is never the column's own name and always leads back to it. */
  lemma TempNameRoundTrip(column: string)
    ensures TempName(column) != column
    ensures TempBase(TempName(column)) == Some(column)
  {
    assert |TempName(column)| == |column| + 5;
    assert TempName(column)[|column|..] == "_temp";
    assert TempName(column)[..|column|] == column;
  }

  /** `change_column_type`: add the temp column, copy, drop the old column, rename the temp one. */
  function ChangeColumnTypeSql(table: string, column: string, newType: string): (steps: seq<string>)
  {
    [ AddColumnSql(table, TempName(column), newType),
      CopyColumnSql(table, TempName(column), column),
      DropColumnSql(table, column),
      RenameColumnSql(table, TempName(column), column) ]
  }

  /** One conjunct of the duplicate probe: `[col] = 'value'`. */
  function Condition(column: string, value: string): string
  {
    Bracket(column) + " = '" + value + "'"
  }

  /** One conjunct per key column, in key order. */
  function Conditions(keys: seq<string>, values: seq<string>): (conds: seq<string>)
    requires |keys| == |values|
  {
    seq(|keys|, j requires 0 <= j < |keys| => Condition(keys[j], values[j]))
  }

  function CountSql(table: string, keys: seq<string>, values: seq<string>): string
    requires |keys| == |values|
  {
    "SELECT COUNT(*) FROM " + table + " WHERE " + Join(Conditions(keys, values), " AND ") + ";"
  }

  /** One more key column adds exactly one ` AND [col] = 'value'` at the end of the predicate. */
  lemma ConditionsSnoc(keys: seq<string>, values: seq<string>, key: string, value: string)
    requires |keys| == |values| && |keys| > 0
    ensures Join(Conditions(keys + [key], values + [value]), " AND ")
            == Join(Conditions(keys, values), " AND ") + " AND " + Bracket(key) + " = '" + value + "'"
  {
    assert Conditions(keys + [key], values + [value]) == Conditions(keys, values) + [Condition(key, value)];
    JoinSnoc(Conditions(keys, values), Condition(key, value), " AND ");
  }

  /** `n` question marks joined by ", ". */
  function Placeholders(n: nat): string
  {
    Join(seq(n, _ => "?"), ", ")
  }

  /** The bracket-quoted column names, in DataFrame order, joined by ", ". */
  function ColumnNames(columns: seq<Column>): string
  {
    Join(seq(|columns|, j requires 0 <= j < |columns| => Bracket(columns[j].name)), ", ")
  }

  function InsertSql(table: string, columns: seq<Column>): string
  {
    "INSERT INTO " + table + " (" + ColumnNames(columns) + ") VALUES (" + Placeholders(|columns|) + ");"
  }

  lemma {:induction false} QuestionMarks(n: nat)
    ensures TotalCharCount(seq(n, _ => "?"), '?') == n
  {
    if n > 0 {
      assert seq(n, _ => "?")[1..] == seq(n - 1, _ => "?");
      QuestionMarks(n - 1);
    }
  }

  /** The INSERT template has exactly one parameter marker per DataFrame column. */
  lemma PlaceholderCount(columns: seq<Column>)
    ensures CharCount(Placeholders(|columns|), '?') == |columns|
  {
    assert CharCount(", ", '?') == 0;
    JoinCharCount(seq(|columns|, _ => "?"), ", ", '?');
    QuestionMarks(|columns|);
  }
}
