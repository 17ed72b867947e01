# Access table synchroniser, modelled in Dafny

This project models the logic-bearing core of `AccessDBHandler` (`test.py`). The handler is a
small wrapper that keeps one table of a Microsoft Access database in step with a spreadsheet
loaded into a pandas DataFrame. Its core has three parts:

- **Type mapping.** `get_sql_type` maps a pandas dtype name to `INTEGER`, `DOUBLE`, `DATETIME` or
  `TEXT`. It tests for the substrings "int", "float" and "datetime" in that order, and the first
  match wins.
- **Statement text.** `create_table` builds a `CREATE TABLE` statement. It has one `[name] TYPE`
  entry per column: its loop appends one entry per column, and the entries are then joined with
  ", ". `add_column`, `delete_column` and
  `change_column_type` send `ALTER TABLE` / `UPDATE` statements. A type change is four statements:
  add `<col>_temp`, copy the values into it, drop the old column, rename the temporary one.
- **Duplicate guard and insert.** `check_duplicates` sends one `SELECT COUNT(*)` per DataFrame row.
  The `WHERE` part is the key conditions `[col] = 'value'` joined with ` AND `. It stops at the
  first row whose count is positive. `insert_data_from_excel` inserts every row, with a single
  positional `INSERT` template, only when that check finds nothing.

The ODBC store is replaced by an abstract one. `Handler.AccessDbHandler` holds two fields:

- `executed`: the statements the store has accepted, each a SQL text plus its positional
  parameters;
- `table`: the rows of the synchronised table, each a map from column name to value.

A `SELECT COUNT(*)` probe is answered by `Frames.MatchCount`, which counts the table rows that
agree with the probe on every key column. Whether the store accepts a DDL statement is a method
parameter. In `ChangeColumnType` it is the number of statements accepted before the first
rejection. So the model keeps the non-atomic failure mode: after a rejected rename the statement
log holds the add, copy and drop but not the rename.

Modules: `Wrappers` (Option, Result), `Text` (substring test, `str.join`, character counts),
`Seqs` (prefix lemmas on sequences), `SqlTypes` (`get_sql_type`), `Frames` (DataFrame, table
rows, key matching), `Statements` (SQL text), `Duplicates` (`check_duplicates`), `Handler` (the
handler class and the insert).

Behaviour of the code that the model keeps, although one might expect otherwise:

- `check_duplicates` returns only a boolean. It does not report the offending row.
- A key that is not a DataFrame column raises pandas' `KeyError` on the first row, before any
  probe is sent. The model returns `MissingColumn` there.
- An empty key list produces `WHERE ;`, which the store rejects. The model returns
  `EmptyCondition`. So "an empty table gives false" holds only when the probes can be built
  (`Duplicates.Probeable`). With an empty DataFrame the loop never runs, and the result is false
  whatever the keys are.
- `add_column` accepts `position` and never uses it.

## Model

| member | source | states |
|---|---|---|
| `Text.Contains` | test.py:46-50 | Python's `sub in s`, computed by trying each start position from the left |
| `Text.ContainsIff` | test.py:46-50 | the left-to-right substring scan used for Python's `in` holds exactly when the substring occurs at some index |
| `Text.Join` | test.py:34 | `sep.join(parts)`: no text for no parts, the part itself for one, otherwise the parts with `sep` between neighbours |
| `Text.JoinSnoc` | test.py:34 | `", ".join` of a list with one more entry is the old join, the separator and that entry: entries appear in list order |
| `Text.JoinCharCount` | test.py:116 | when the separator holds no `c`, the joined text holds exactly as many `c` as all the parts together |
| `SqlTypes.SqlType` | test.py:44-53 | the result is always one of INTEGER, DOUBLE, DATETIME, TEXT |
| `SqlTypes.SqlTypePrecedence` | test.py:46-53 | INTEGER iff "int" occurs; DOUBLE iff "float" occurs and "int" does not; DATETIME iff "datetime" occurs and neither earlier one does; TEXT iff none occurs |
| `SqlTypes.IntWinsOverFloatAndDatetime` | test.py:46-47 | every name in which "int" occurs maps to INTEGER, wherever "float" or "datetime" also occur in it |
| `SqlTypes.MixedNamesAreInteger` | test.py:46-49 | "int_float64" and "float_x_int" map to INTEGER |
| `SqlTypes.IntegerDtype` | test.py:46-47 | "int64" maps to INTEGER |
| `SqlTypes.FloatDtype` | test.py:48-49 | "float64" maps to DOUBLE |
| `SqlTypes.DatetimeDtype` | test.py:50-51 | "datetime" followed by any suffix without "i" or "f" (such as "64[ns]") maps to DATETIME |
| `SqlTypes.TimestampColumn` | test.py:50-51 | "datetime64[ns]" maps to DATETIME |
| `SqlTypes.NoMarkerIsText` | test.py:46-53 | a dtype name without the letters "i", "f" and "d" falls through every test and maps to TEXT |
| `SqlTypes.TextDtypes` | test.py:46-53 | "object", "bool" and pandas' nullable "Int64" map to TEXT; "Int64" because the match is case-sensitive |
| `Frames.Bind` | test.py:121-122 | positional binding: the row holds exactly the named columns, and column j holds the j-th value |
| `Frames.RowAt` | test.py:95-96 | the `row` of `df.iterrows()`, looked up by column name |
| `Frames.MissingKey` | test.py:96 | none iff every key is a DataFrame column; otherwise a key in the list that is not a column |
| `Frames.MissingKeyIsFirst` | test.py:96 | the key reported missing is the first key, in key order, that is not a column: the one pandas' KeyError names |
| `Frames.KeyValues` | test.py:96 | row `i`'s values of the key columns (`row[col]`), one per key |
| `Frames.KeyValuesMeaning` | test.py:96 | the j-th key value of a row is that row's value in the column named by the j-th key |
| `Frames.MatchCount` | test.py:97-99 | the count never exceeds the table size, and it is positive iff some table row agrees on every key column |
| `Statements.ColumnDef` | test.py:31-32 | renders one entry `[col] TYPE`, with the type from `get_sql_type` |
| `Statements.ColumnDefinitions` | test.py:29-32 | exactly one `[name] TYPE` entry per DataFrame column, in column order, each with the column's mapped SQL type |
| `Statements.CreateTableText` | test.py:34-35 | renders `CREATE TABLE t (<entries joined by ", ">);` from the entries the loop built |
| `Statements.CreateTableSql` | test.py:29-35 | the CREATE TABLE text over one `[name] TYPE` entry per DataFrame column, in column order |
| `Statements.ColumnListSnoc` | test.py:34-35 | one more column adds exactly one `, [name] TYPE` entry at the end of the CREATE TABLE column list |
| `Statements.AddColumnSql` | test.py:59 | renders `ALTER TABLE t ADD COLUMN [c] type;` |
| `Statements.DropColumnSql` | test.py:84 | renders `ALTER TABLE t DROP COLUMN [c];` |
| `Statements.CopyColumnSql` | test.py:72 | renders `UPDATE t SET [target] = [source];` |
| `Statements.RenameColumnSql` | test.py:74 | renders `ALTER TABLE t RENAME COLUMN [from] TO [to];` |
| `Statements.ChangeColumnTypeSql` | test.py:70-74 | the four statements in order: add `<c>_temp` with the new type, copy `c` into it, drop `c`, rename `<c>_temp` to `c` |
| `Statements.TempName` | test.py:70 | the column name followed by "_temp" |
| `Statements.TempNameRoundTrip` | test.py:70 | the temporary name `<col>_temp` differs from the column name and leads back to it |
| `Statements.Condition` | test.py:96 | renders one conjunct `[col] = 'value'` |
| `Statements.Conditions` | test.py:96 | one conjunct per key, in key order, with that key's value |
| `Statements.CountSql` | test.py:96-97 | renders `SELECT COUNT(*) FROM t WHERE <conjuncts joined by " AND ">;` |
| `Statements.ConditionsSnoc` | test.py:96 | one more key column adds exactly one ` AND [col] = 'value'` conjunct at the end of the predicate |
| `Statements.Placeholders` | test.py:116 | `n` question marks joined by ", " |
| `Statements.ColumnNames` | test.py:117 | the bracket-quoted column names, in DataFrame order, joined by ", " |
| `Statements.InsertSql` | test.py:119 | renders `INSERT INTO t (<names>) VALUES (<placeholders>);` |
| `Statements.PlaceholderCount` | test.py:116 | the VALUES list has exactly one `?` per DataFrame column |
| `Duplicates.FirstDuplicate` | test.py:95-103 | the index found is a row the table already holds and no earlier row is; none means no row from the start on is held |
| `Duplicates.DuplicateCheck` | test.py:91-105 | false for an empty DataFrame; EmptyCondition iff there are rows and no keys; MissingColumn names a key the DataFrame lacks; an error iff there are rows and the probe cannot be built |
| `Duplicates.DuplicateCheckMeaning` | test.py:95-105 | true iff the probes can be built and some DataFrame row is already held; never true on an empty table |
| `Duplicates.ProbeCount` | test.py:95-103 | never more answered probes than rows, and none answered when the probe cannot be built (an empty key list still sends `WHERE ;`, which the store rejects) |
| `Duplicates.ProbeCountMeaning` | test.py:95-105 | the probes short-circuit: when the check is true, the last probe is for a held row and no earlier probed row is held; when false, every row was probed |
| `Duplicates.ProbeValues` | test.py:95-96 | `n` lists of key values, one value per key |
| `Duplicates.ProbeValuesMeaning` | test.py:95-96 | probe `i` carries row `i`'s value of each key column, in key order |
| `Duplicates.ProbeRow` | test.py:96-101 | one iteration fails iff the probe cannot be built, and then with the check's own error; otherwise its answer is true iff the row is already held |
| `Duplicates.CheckDuplicates` | test.py:91-105 | the loop returns the check's result, and the store answers exactly ProbeCount queries |
| `Duplicates.DuplicatesPersist` | test.py:95-105 | adding rows to the table never turns a found duplicate into none |
| `Handler.InsertOutcomeOf` | test.py:111-125 | how the insert ends: the check's error, skipped on a duplicate, rejected at the first INSERT the store refuses, or every row inserted |
| `Handler.Probes` | test.py:95-98 | the COUNT(*) statements the store answered: one per probed row, up to the first duplicate |
| `Handler.Inserts` | test.py:116-122 | one INSERT per DataFrame row, all with the same template, each bound to its row's values |
| `Handler.InsertedCount` | test.py:121-122 | an insert never puts more rows into the table than the DataFrame has |
| `Handler.NewRows` | test.py:121-122 | one table row per DataFrame row, in DataFrame order, holding each column's value under that column's name |
| `Handler.AccessDbHandler.constructor` | test.py:6-9 | a handler starts with no statements sent, over the given table rows |
| `Handler.AccessDbHandler.CreateTable` | test.py:25-42 | sends the CREATE TABLE text built from the columns if the store accepts it; the table rows are unchanged (DDL is not applied to the rows, see Left out) |
| `Handler.AccessDbHandler.AddColumn` | test.py:55-64 | sends the ADD COLUMN statement if accepted; the new state does not depend on `position` |
| `Handler.AccessDbHandler.ChangeColumnType` | test.py:66-78 | succeeds iff all four steps are accepted; otherwise exactly the accepted prefix of add, copy, drop, rename has been sent |
| `Handler.AccessDbHandler.DeleteColumn` | test.py:80-89 | sends the DROP COLUMN statement if accepted; the table rows are unchanged (DDL is not applied to the rows, see Left out) |
| `Handler.AccessDbHandler.Execute` | test.py:37-42 | a statement is recorded iff the store accepts it, and the result says which |
| `Handler.AccessDbHandler.CheckDuplicates` | test.py:91-105 | returns the check's result, records the COUNT(*) queries in row order up to the first duplicate, and leaves the rows unchanged |
| `Handler.AccessDbHandler.InsertDataFromExcel` | test.py:107-125 | when the check fails or finds a duplicate, nothing is inserted; otherwise the rows are appended in order, one INSERT each, up to the first one the store rejects |
| `Handler.AccessDbHandler.InsertRows` | test.py:115-124 | one INSERT with the shared template and the row's values per DataFrame row, in order, and one appended table row each, stopping at the first rejection |
| `Handler.ReinsertIsSkipped` | test.py:111-124 | once any leading rows of a DataFrame are in the table, after a full or a partial insert, inserting it again is skipped |
| `Handler.OneDuplicateSkipsAll` | test.py:111-113 | any single DataFrame row already in the table makes the whole insert skip |
| `Handler.SalesScenario` | test.py:95-113 | a table holding (2024-01-01, NY) is found to hold the first DataFrame row by the first probe, so the insert is skipped and the new second row is not inserted either |

## Left out

- `connect_db` and `close_connection` (opening and closing the ODBC connection, the file check) are
  not modelled. The constructor stands for a handler over an open connection.
- `pd.read_excel` is a foreign reader. The DataFrame is an input: column names, dtype names and
  rows of values. Distinct names and full rows are the `Frames.Valid` invariant.
- Values are strings. The model does not capture pandas' `str()` rendering of typed values, `NaN`,
  or the store's type coercion of bound parameters and of the `UPDATE` copy.
- Executing SQL is not modelled. DDL statements are only recorded, with the store's verdict given
  as a parameter. Their effect on the table's schema and rows is not modelled, and neither are
  `commit` and rollback.
- The table has no schema. A key that is not a column of the table is an error in the store; in
  the model it matches no row. An inserted column that the table lacks is stored as given.
- The table name appears only in the statement text. The model holds one table.
- Quoting and escaping of values containing `'` in the probe predicate are not modelled.
  Matching is plain string equality on every key column.
- The try/except that prints and continues is not modelled as such. A rejected DDL statement
  leaves the state unchanged and returns false; a true result stands for the success message.
  All `print` output is left out.
- `insert_data_from_excel` has no handler around its INSERT loop, so a rejected INSERT raises out
  of it. The model returns `Rejected(k)` instead, with the first `k` rows inserted. Whether
  those rows are committed is not modelled.
- `Duplicates.CheckDuplicates` counts the queries the store answered. The query texts are
  recorded by `Handler.AccessDbHandler.CheckDuplicates`, built from each probed row's key values.
- `usage.py` is a fixed script of calls with no logic of its own.
