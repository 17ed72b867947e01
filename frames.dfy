/**
 * The data the handler works on: a DataFrame read from a spreadsheet (column names, dtype names
 * and rows of values) and the rows of the database table, each a map from column name to value.
 */
module Frames {
  import opened Wrappers

  /** A table row as the store holds it: column name to value. */
  type Row = map<string, string>

  /** One DataFrame column: its name and the name of its pandas dtype. */
  datatype Column = Column(name: string, dtype: string)

  /** The columns in DataFrame order and the rows, each with its values in column order. */
  datatype DataFrame = DataFrame(columns: seq<Column>, rows: seq<seq<string>>)

  function Names(columns: seq<Column>): seq<string>
  {
    seq(|columns|, j requires 0 <= j < |columns| => columns[j].name)
  }

  predicate Distinct(names: seq<string>)
  {
    forall i, j :: 0 <= i < j < |names| ==> names[i] != names[j]
  }

  /** What a DataFrame read from a spreadsheet always satisfies: distinct column names, full rows. */
  predicate Valid(df: DataFrame)
  {
    && Distinct(Names(df.columns))
    && forall i :: 0 <= i < |df.rows| ==> |df.rows[i]| == |df.columns|
  }

  /** Positional binding: the j-th value goes into the column named by the j-th name. */
  function Bind(names: seq<string>, values: seq<string>): (row: Row)
    requires |names| == |values| && Distinct(names)
    ensures forall k :: k in row <==> k in names
    ensures forall j :: 0 <= j < |names| ==> row[names[j]] == values[j]
  {
    map j | 0 <= j < |names| :: names[j] := values[j]
  }

  /** Row `i` of the DataFrame, addressed by column name (pandas' `row[col]`). */
  function RowAt(df: DataFrame, i: nat): Row
    requires Valid(df) && i < |df.rows|
  {
    Bind(Names(df.columns), df.rows[i])
  }

  /** The first key, in key order, that is not a column of the DataFrame (pandas raises KeyError). */
  function MissingKey(names: seq<string>, keys: seq<string>): (r: Option<string>)
    ensures r == None <==> forall k :: k in keys ==> k in names
    ensures r.Some? ==> r.value in keys && r.value !in names
  {
    if |keys| == 0 then None
    else if keys[0] !in names then Some(keys[0])
    else MissingKey(names, keys[1..])
  }

  /** The key reported is the first one, in key order, that is not a column: the one pandas'
      KeyError names. */
  lemma {:induction false} MissingKeyIsFirst(names: seq<string>, keys: seq<string>)
    ensures MissingKey(names, keys).Some? ==>
              exists p :: 0 <= p < |keys| && keys[p] == MissingKey(names, keys).value &&
                forall q :: 0 <= q < p ==> keys[q] in names
  {
    if |keys| > 0 && keys[0] in names {
      MissingKeyIsFirst(names, keys[1..]);
      if MissingKey(names, keys).Some? {
        var p :| 0 <= p < |keys[1..]| && keys[1..][p] == MissingKey(names, keys).value &&
                   forall q :: 0 <= q < p ==> keys[1..][q] in names;
        assert forall q :: 0 <= q < p + 1 ==> keys[q] in names by {
          forall q | 0 <= q < p + 1 ensures keys[q] in names {
            if q > 0 { assert keys[q] == keys[1..][q - 1]; }
          }
        }
        assert keys[p + 1] == keys[1..][p];
      }
    } else if |keys| > 0 {
      assert keys[0] == MissingKey(names, keys).value;
    }
  }

  /** Row `i`'s values for the key columns, in key order. */
  function KeyValues(df: DataFrame, i: nat, keys: seq<string>): (values: seq<string>)
    requires Valid(df) && i < |df.rows|
    requires MissingKey(Names(df.columns), keys) == None
    ensures |values| == |keys|
  {
    seq(|keys|, j requires 0 <= j < |keys| => RowAt(df, i)[keys[j]])
  }

  /** The j-th key value of row `i` is the row's value in the column named by the j-th key. */
  lemma KeyValuesMeaning(df: DataFrame, i: nat, keys: seq<string>)
    requires Valid(df) && i < |df.rows|
    requires MissingKey(Names(df.columns), keys) == None
    ensures forall j, c :: 0 <= j < |keys| && 0 <= c < |df.columns| && df.columns[c].name == keys[j] ==>
              KeyValues(df, i, keys)[j] == df.rows[i][c]
  {
    var row := RowAt(df, i);
    assert forall c :: 0 <= c < |df.columns| ==> row[Names(df.columns)[c]] == df.rows[i][c];
  }

  /** A table row agrees with `values` on every key column. */
  predicate Matches(row: Row, keys: seq<string>, values: seq<string>)
    requires |keys| == |values|
  {
    forall j :: 0 <= j < |keys| ==> keys[j] in row && row[keys[j]] == values[j]
  }

  /** Reference meaning of "COUNT(*) > 0": some table row matches on every key column. */
  ghost predicate HasMatch(table: seq<Row>, keys: seq<string>, values: seq<string>)
    requires |keys| == |values|
  {
    exists t :: 0 <= t < |table| && Matches(table[t], keys, values)
  }

  /** The store's answer to `SELECT COUNT(*) ... WHERE` the key conjunction. */
  function MatchCount(table: seq<Row>, keys: seq<string>, values: seq<string>): (n: nat)
    requires |keys| == |values|
    ensures n <= |table|
    ensures n > 0 <==> HasMatch(table, keys, values)
  {
    if |table| == 0 then 0
    else
      var last := |table| - 1;
      assert forall t :: 0 <= t < last ==> table[..last][t] == table[t];
      MatchCount(table[..last], keys, values) + (if Matches(table[last], keys, values) then 1 else 0)
  }
}
