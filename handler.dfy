/**
 * `AccessDBHandler` over an abstract store: the statements the store has accepted, in order,
 * and the rows of the table being synchronised. The store's verdict on a DDL statement is a
 * parameter, since executing SQL is outside the model.
 */
module Handler {
  import opened Wrappers
  import opened Text
  import opened Frames
  import opened Statements
  import opened Duplicates
  import opened Seqs

  /** A statement the store accepted: its text and its positional parameters. */
  datatype Statement = Statement(sql: string, params: seq<string>)

  /** How `insert_data_from_excel` ends: every row inserted, insertion skipped because of a
      duplicate, the duplicate check raised, or the store rejected the INSERT of row `row`
      (the rows before it stay inserted). */
  datatype InsertOutcome = Inserted | Skipped | Failed(error: ProbeError) | Rejected(row: nat)

  /** The outcome when the store accepts the first `accepted` INSERTs and rejects the next one. */
  function InsertOutcomeOf(table: seq<Row>, df: DataFrame, keys: seq<string>, accepted: nat): (o: InsertOutcome)
    requires Valid(df)
  {
    match DuplicateCheck(table, df, keys)
    case Failure(e) => Failed(e)
    case Success(found) =>
      if found then Skipped
      else if accepted < |df.rows| then Rejected(accepted)
      else Inserted
  }

  /** How many DataFrame rows an outcome has put into the table. */
  function InsertedCount(df: DataFrame, o: InsertOutcome): (n: nat)
    ensures n <= |df.rows|
  {
    match o
    case Inserted => |df.rows|
    case Rejected(k) => if k < |df.rows| then k else |df.rows|
    case _ => 0
  }

  /** The table rows that the DataFrame's rows become, in DataFrame order. */
  function NewRows(df: DataFrame): (rows: seq<Row>)
    requires Valid(df)
    ensures |rows| == |df.rows|
    ensures forall i, j :: 0 <= i < |df.rows| && 0 <= j < |df.columns| ==>
              df.columns[j].name in rows[i] && rows[i][df.columns[j].name] == df.rows[i][j]
  {
    assert forall j :: 0 <= j < |df.columns| ==> Names(df.columns)[j] == df.columns[j].name;
    seq(|df.rows|, i requires 0 <= i < |df.rows| => RowAt(df, i))
  }

  /** The COUNT(*) queries `check_duplicates` has the store answer. */
  function Probes(tableName: string, table: seq<Row>, df: DataFrame, keys: seq<string>): seq<Statement>
    requires Valid(df)
  {
    Sql(ProbeTexts(tableName, keys, ProbeValues(df, keys, ProbeCount(table, df, keys))))
  }

  /** One INSERT per DataFrame row, all with the same template, each with its row's values. */
  function Inserts(tableName: string, df: DataFrame): seq<Statement>
  {
    seq(|df.rows|, i requires 0 <= i < |df.rows| => Statement(InsertSql(tableName, df.columns), df.rows[i]))
  }

  class AccessDbHandler {
    /** The statements the store has accepted, in the order they were issued. */
    var executed: seq<Statement>
    /** The rows of the table the handler synchronises. */
    var table: seq<Row>

    /** A handler over a store whose table holds `rows`; opening the connection is not modelled. */
    constructor (rows: seq<Row>)
      ensures executed == [] && table == rows
    {
      executed := [];
      table := rows;
    }

    /** `create_table`: one statement whose column list comes from the DataFrame's columns. */
    method CreateTable(tableName: string, columns: seq<Column>, accepted: bool) returns (ok: bool)
      modifies this
      ensures ok == accepted && table == old(table)
      ensures executed == old(executed) + (if accepted then [Statement(CreateTableSql(tableName, columns), [])] else [])
    {
      var defs := ColumnDefinitions(columns);
      assert defs == ColumnDefs(columns);
      ok := Execute(CreateTableText(tableName, defs), accepted);
    }

    /** `add_column`: `position` is accepted and has no effect on what is sent. */
    method AddColumn(tableName: string, column: string, sqlType: string, position: Option<int>, accepted: bool)
      returns (ok: bool)
      modifies this
      ensures ok == accepted && table == old(table)
      ensures executed == old(executed) + (if accepted then [Statement(AddColumnSql(tableName, column, sqlType), [])] else [])
    {
      ok := Execute(AddColumnSql(tableName, column, sqlType), accepted);
    }

    /** `change_column_type`: the four statements in order, while the store accepts them; the
        store accepts the first `accepted` of them, so a rejection leaves the earlier steps done. */
    method ChangeColumnType(tableName: string, column: string, newType: string, accepted: nat)
      returns (ok: bool)
      modifies this
      ensures ok <==> accepted >= 4
      ensures table == old(table)
      ensures executed == old(executed) + Sql(ChangeColumnTypeSql(tableName, column, newType)[..if accepted < 4 then accepted else 4])
    {
      var steps := ChangeColumnTypeSql(tableName, column, newType);
      var k := 0;
      ok := true;
      while k < 4 && ok
        invariant 0 <= k <= 4
        invariant ok <==> k <= accepted
        invariant table == old(table)
        invariant executed == old(executed) + Sql(steps[..if ok then k else k - 1])
        invariant !ok ==> k == accepted + 1
      {
        ok := Execute(steps[k], k < accepted);
        k := k + 1;
      }
    }

    /** `delete_column`: one DROP COLUMN statement. */
    method DeleteColumn(tableName: string, column: string, accepted: bool) returns (ok: bool)
      modifies this
      ensures ok == accepted && table == old(table)
      ensures executed == old(executed) + (if accepted then [Statement(DropColumnSql(tableName, column), [])] else [])
    {
      ok := Execute(DropColumnSql(tableName, column), accepted);
    }

    /** Send one parameterless statement; a rejected statement leaves the state as it was. */
    method Execute(sql: string, accepted: bool) returns (ok: bool)
      modifies this
      ensures ok == accepted && table == old(table)
      ensures executed == old(executed) + (if accepted then [Statement(sql, [])] else [])
    {
      ok := accepted;
      if accepted {
        executed := executed + [Statement(sql, [])];
      }
    }

    /** `check_duplicates`: the store answers one COUNT(*) per row up to the first duplicate. */
    method CheckDuplicates(tableName: string, df: DataFrame, keys: seq<string>)
      returns (r: Result<bool, ProbeError>)
      requires Valid(df)
      modifies this
      ensures r == DuplicateCheck(old(table), df, keys)
      ensures table == old(table)
      ensures executed == old(executed) + Probes(tableName, old(table), df, keys)
    {
      var answered;
      r, answered := Duplicates.CheckDuplicates(table, df, keys);
      executed := executed + Sql(ProbeTexts(tableName, keys, ProbeValues(df, keys, answered)));
    }

    /** `insert_data_from_excel` with the DataFrame already read: the rows are inserted, in order
        and with their values in column order, only when no row is already in the table. */
    method InsertDataFromExcel(tableName: string, df: DataFrame, keys: seq<string>, accepted: nat)
      returns (outcome: InsertOutcome)
      requires Valid(df)
      modifies this
      ensures outcome == InsertOutcomeOf(old(table), df, keys, accepted)
      ensures table == old(table) + NewRows(df)[..InsertedCount(df, outcome)]
      ensures executed == old(executed) + Probes(tableName, old(table), df, keys)
                          + Inserts(tableName, df)[..InsertedCount(df, outcome)]
    {
      var check := CheckDuplicates(tableName, df, keys);
      if check.Failure? {
        return Failed(check.error);
      }
      if check.value {
        return Skipped;
      }
      var ok := InsertRows(tableName, df, accepted);
      if ok {
        return Inserted;
      }
      return Rejected(accepted);
    }

    /** The insert loop: one INSERT with the row's values per DataFrame row, in DataFrame order,
        until the store rejects one; the rows inserted before it stay in the table. */
    method InsertRows(tableName: string, df: DataFrame, accepted: nat) returns (ok: bool)
      requires Valid(df)
      modifies this
      ensures ok <==> accepted >= |df.rows|
      ensures table == old(table) + NewRows(df)[..if ok then |df.rows| else accepted]
      ensures executed == old(executed) + Inserts(tableName, df)[..if ok then |df.rows| else accepted]
    {
      var template := InsertSql(tableName, df.columns);
      var names := Names(df.columns);
      ghost var rows := NewRows(df);
      ghost var inserts := Inserts(tableName, df);
      ok := accepted >= |df.rows|;
      var n := if ok then |df.rows| else accepted;
      var i := 0;
      while i < n
        invariant 0 <= i <= n
        invariant table == old(table) + rows[..i]
        invariant executed == old(executed) + inserts[..i]
      {
        assert rows[i] == Bind(names, df.rows[i]);
        assert inserts[i] == Statement(template, df.rows[i]);
        ExtendPrefix(old(executed), inserts, i);
        ExtendPrefix(old(table), rows, i);
        executed := executed + [Statement(template, df.rows[i])];
        table := table + [Bind(names, df.rows[i])];
        i := i + 1;
      }
    }
  }

  /** Parameterless statements for a list of SQL texts, in the same order. */
  function Sql(texts: seq<string>): seq<Statement>
  {
    seq(|texts|, i requires 0 <= i < |texts| => Statement(texts[i], []))
  }

  /** Once any leading rows of a DataFrame are in the table (a full insert, or one the store cut
      short), inserting the DataFrame again is skipped: a retry never completes a partial insert. */
  lemma ReinsertIsSkipped(table: seq<Row>, df: DataFrame, keys: seq<string>, k: nat, accepted: nat)
    requires Valid(df) && Probeable(df, keys) && 0 < k <= |df.rows|
    ensures InsertOutcomeOf(table + NewRows(df)[..k], df, keys, accepted) == Skipped
  {
    var after := table + NewRows(df)[..k];
    var row := after[|table|];
    assert row == RowAt(df, 0);
    var values := KeyValues(df, 0, keys);
    forall j | 0 <= j < |keys|
      ensures keys[j] in row && row[keys[j]] == values[j]
    {
    }
    OneDuplicateSkipsAll(after, df, keys, 0, |table|, accepted);
  }

  /** One DataFrame row already in the table is enough to skip the whole insert. */
  lemma OneDuplicateSkipsAll(table: seq<Row>, df: DataFrame, keys: seq<string>, i: nat, t: nat, accepted: nat)
    requires Valid(df) && Probeable(df, keys) && i < |df.rows| && t < |table|
    requires Matches(table[t], keys, KeyValues(df, i, keys))
    ensures InsertOutcomeOf(table, df, keys, accepted) == Skipped
  {
    assert IsDuplicate(table, df, keys, i);
    DuplicateCheckMeaning(table, df, keys);
  }

  /** The "Sales" example: columns date, market, amount; the key is (date, market). */
  function SalesFrame(): DataFrame
  {
    DataFrame([Column("date", "object"), Column("market", "object"), Column("amount", "float64")],
              [["2024-01-01", "NY", "999.0"], ["2024-01-02", "LA", "50.0"]])
  }

  function SalesKeys(): seq<string>
  {
    ["date", "market"]
  }

  /** The row the "Sales" table already holds. */
  function SalesExisting(): Row
  {
    map["date" := "2024-01-01", "market" := "NY", "amount" := "100.0"]
  }

  lemma SalesFrameProbeable()
    ensures Valid(SalesFrame()) && Probeable(SalesFrame(), SalesKeys())
    ensures KeyValues(SalesFrame(), 0, SalesKeys()) == ["2024-01-01", "NY"]
  {
    var df := SalesFrame();
    var names := Names(df.columns);
    assert names == ["date", "market", "amount"];
    assert names[1][0] != names[2][0];
    assert Distinct(names);
    assert Valid(df);
    assert MissingKey(names, SalesKeys()) == None;
    var row := RowAt(df, 0);
    assert row == Bind(names, ["2024-01-01", "NY", "999.0"]);
    assert row[names[0]] == "2024-01-01" && row[names[1]] == "NY";
  }

  /** The first DataFrame row repeats the stored date and market: the first probe already finds
      it, and neither row is inserted, not even the second, new one. */
  lemma SalesScenario()
    ensures Valid(SalesFrame())
    ensures ProbeCount([SalesExisting()], SalesFrame(), SalesKeys()) == 1
    ensures forall accepted: nat :: InsertOutcomeOf([SalesExisting()], SalesFrame(), SalesKeys(), accepted) == Skipped
  {
    SalesFrameProbeable();
    assert Matches([SalesExisting()][0], SalesKeys(), ["2024-01-01", "NY"]);
    assert HasMatch([SalesExisting()], SalesKeys(), KeyValues(SalesFrame(), 0, SalesKeys()));
    assert FirstDuplicate([SalesExisting()], SalesFrame(), SalesKeys(), 0) == Some(0);
    forall accepted: nat
      ensures InsertOutcomeOf([SalesExisting()], SalesFrame(), SalesKeys(), accepted) == Skipped
    {
      OneDuplicateSkipsAll([SalesExisting()], SalesFrame(), SalesKeys(), 0, 0, accepted);
    }
  }
}
