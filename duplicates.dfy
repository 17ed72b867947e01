/**
 * `check_duplicates`: probe the table once per DataFrame row, in row order, with a COUNT(*) over
 * the conjunction of the key columns, and stop at the first row the table already holds.
 */
module Duplicates {
  import opened Wrappers
  import opened Frames
  import opened Statements

  /** Why a probe could not be made: a key that is not a DataFrame column (pandas' KeyError),
      or no key at all, which leaves `WHERE ;` for the store to reject. */
  datatype ProbeError = MissingColumn(name: string) | EmptyCondition

  /** The probes can be built: every key is a DataFrame column and there is at least one key. */
  predicate Probeable(df: DataFrame, keys: seq<string>)
  {
    MissingKey(Names(df.columns), keys) == None && keys != []
  }

  /** Row `i` of the DataFrame is already in the table on all key columns. */
  ghost predicate IsDuplicate(table: seq<Row>, df: DataFrame, keys: seq<string>, i: nat)
    requires Valid(df) && i < |df.rows| && Probeable(df, keys)
  {
    HasMatch(table, keys, KeyValues(df, i, keys))
  }

  /** The first row at or after `from` that the table already holds. */
  function FirstDuplicate(table: seq<Row>, df: DataFrame, keys: seq<string>, from: nat): (r: Option<nat>)
    requires Valid(df) && Probeable(df, keys) && from <= |df.rows|
    ensures r.Some? ==> from <= r.value < |df.rows| && IsDuplicate(table, df, keys, r.value)
    ensures r.Some? ==> forall i :: from <= i < r.value ==> !IsDuplicate(table, df, keys, i)
    ensures r.None? ==> forall i :: from <= i < |df.rows| ==> !IsDuplicate(table, df, keys, i)
    decreases |df.rows| - from
  {
    if from == |df.rows| then None
    else if MatchCount(table, keys, KeyValues(df, from, keys)) > 0 then Some(from)
    else FirstDuplicate(table, df, keys, from + 1)
  }

  /** What `check_duplicates` returns, or the error it raises. */
  function DuplicateCheck(table: seq<Row>, df: DataFrame, keys: seq<string>): (r: Result<bool, ProbeError>)
    requires Valid(df)
    ensures |df.rows| == 0 ==> r == Success(false)
    ensures r == Failure(EmptyCondition) <==> |df.rows| > 0 && keys == []
    ensures r.Failure? && r.error.MissingColumn? ==>
              |df.rows| > 0 && r.error.name in keys && r.error.name !in Names(df.columns)
    ensures r.Failure? <==> |df.rows| > 0 && !Probeable(df, keys)
  {
    if |df.rows| == 0 then Success(false)
    else if keys == [] then Failure(EmptyCondition)
    else match MissingKey(Names(df.columns), keys)
      case Some(k) => Failure(MissingColumn(k))
      case None => Success(FirstDuplicate(table, df, keys, 0).Some?)
  }

  /** How many COUNT(*) queries the store answers: up to and including the first duplicate row,
      every row when there is none, none when the probe cannot be built. */
  function ProbeCount(table: seq<Row>, df: DataFrame, keys: seq<string>): (n: nat)
    requires Valid(df)
    ensures n <= |df.rows|
    ensures !Probeable(df, keys) ==> n == 0
  {
    if !Probeable(df, keys) then 0
    else match FirstDuplicate(table, df, keys, 0)
      case Some(k) => k + 1
      case None => |df.rows|
  }

  /** The key values of the first `n` DataFrame rows, in row order: the conditions of the first
      `n` COUNT(*) queries. */
  function ProbeValues(df: DataFrame, keys: seq<string>, n: nat): (probes: seq<seq<string>>)
    requires Valid(df) && n <= |df.rows| && (n == 0 || Probeable(df, keys))
    ensures |probes| == n
    ensures forall i :: 0 <= i < n ==> |probes[i]| == |keys|
  {
    seq(n, i requires 0 <= i < n => KeyValues(df, i, keys))
  }

  /** Probe `i` carries row `i`'s values of the key columns, in key order. */
  lemma ProbeValuesMeaning(df: DataFrame, keys: seq<string>, n: nat)
    requires Valid(df) && n <= |df.rows| && (n == 0 || Probeable(df, keys))
    ensures forall i, j, c :: 0 <= i < n && 0 <= j < |keys| && 0 <= c < |df.columns| && df.columns[c].name == keys[j] ==>
              ProbeValues(df, keys, n)[i][j] == df.rows[i][c]
  {
    forall i | 0 <= i < n
      ensures forall j, c :: 0 <= j < |keys| && 0 <= c < |df.columns| && df.columns[c].name == keys[j] ==>
                ProbeValues(df, keys, n)[i][j] == df.rows[i][c]
    {
      KeyValuesMeaning(df, i, keys);
    }
  }

  /** The COUNT(*) query texts for the probed key values, in order. */
  function ProbeTexts(tableName: string, keys: seq<string>, probes: seq<seq<string>>): seq<string>
    requires forall i :: 0 <= i < |probes| ==> |probes[i]| == |keys|
  {
    seq(|probes|, i requires 0 <= i < |probes| => CountSql(tableName, keys, probes[i]))
  }

  /** One iteration of `check_duplicates`: collect row `i`'s key values (pandas raises on a key
      that is not a column), then have the store count the table rows that match them. A probe
      that cannot be built raises the check's own error; one that is answered tells whether
      row `i` is already in the table. */
  method ProbeRow(table: seq<Row>, df: DataFrame, keys: seq<string>, i: nat) returns (r: Result<bool, ProbeError>)
    requires Valid(df) && i < |df.rows|
    ensures r.Failure? <==> !Probeable(df, keys)
    ensures r.Failure? ==> r == DuplicateCheck(table, df, keys)
    ensures r.Success? ==> (r.value <==> IsDuplicate(table, df, keys, i))
  {
    var missing := MissingKey(Names(df.columns), keys);
    if missing.Some? {
      return Failure(MissingColumn(missing.value));
    }
    if keys == [] {
      return Failure(EmptyCondition);
    }
    var values := KeyValues(df, i, keys);
    var count := MatchCount(table, keys, values);
    return Success(count > 0);
  }

  /** `check_duplicates` against the abstract table; `answered` is how many COUNT(*) queries the
      store answered, one per row in row order. */
  method CheckDuplicates(table: seq<Row>, df: DataFrame, keys: seq<string>)
    returns (r: Result<bool, ProbeError>, answered: nat)
    requires Valid(df)
    ensures r == DuplicateCheck(table, df, keys)
    ensures answered == ProbeCount(table, df, keys)
  {
    var i := 0;
    while i < |df.rows|
      invariant 0 <= i <= |df.rows|
      invariant i > 0 ==> Probeable(df, keys)
      invariant i > 0 ==> FirstDuplicate(table, df, keys, 0) == FirstDuplicate(table, df, keys, i)
    {
      var probe := ProbeRow(table, df, keys, i);
      if probe.Failure? {
        CheckFailsAtStart(table, df, keys, i);
        return probe, 0;
      }
      if probe.value {
        CheckEndsAt(table, df, keys, i);
        return Success(true), i + 1;
      }
      i := i + 1;
    }
    CheckFindsNone(table, df, keys);
    return Success(false), i;
  }

  /** A probe that cannot be built fails on the first row, before any query is answered. */
  lemma CheckFailsAtStart(table: seq<Row>, df: DataFrame, keys: seq<string>, i: nat)
    requires Valid(df) && i < |df.rows| && (i > 0 ==> Probeable(df, keys))
    requires !Probeable(df, keys)
    ensures i == 0
    ensures DuplicateCheck(table, df, keys).Failure?
    ensures ProbeCount(table, df, keys) == 0
  {
  }

  /** When row `i` is already in the table and no earlier row is, the check is
      true after `i + 1` probes. */
  lemma CheckEndsAt(table: seq<Row>, df: DataFrame, keys: seq<string>, i: nat)
    requires Valid(df) && Probeable(df, keys) && i < |df.rows|
    requires FirstDuplicate(table, df, keys, 0) == FirstDuplicate(table, df, keys, i)
    requires IsDuplicate(table, df, keys, i)
    ensures DuplicateCheck(table, df, keys) == Success(true)
    ensures ProbeCount(table, df, keys) == i + 1
  {
  }

  /** When every probe answered zero, the check is false after one probe per row. */
  lemma CheckFindsNone(table: seq<Row>, df: DataFrame, keys: seq<string>)
    requires Valid(df)
    requires |df.rows| > 0 ==> Probeable(df, keys) && FirstDuplicate(table, df, keys, 0) == None
    ensures DuplicateCheck(table, df, keys) == Success(false)
    ensures ProbeCount(table, df, keys) == if Probeable(df, keys) then |df.rows| else 0
  {
  }

  /** The check is true exactly when the probes can be built and some DataFrame row is already
      in the table; so it is false on an empty table. */
  lemma DuplicateCheckMeaning(table: seq<Row>, df: DataFrame, keys: seq<string>)
    requires Valid(df)
    ensures DuplicateCheck(table, df, keys) == Success(true) <==>
              Probeable(df, keys) && exists i :: 0 <= i < |df.rows| && IsDuplicate(table, df, keys, i)
    ensures |table| == 0 ==> DuplicateCheck(table, df, keys) != Success(true)
  {
    if Probeable(df, keys) && |df.rows| > 0 {
      var first := FirstDuplicate(table, df, keys, 0);
      if first.None? {
        assert forall i :: 0 <= i < |df.rows| ==> !IsDuplicate(table, df, keys, i);
      }
    }
  }

  /** The probes stop at the first duplicate row: the last probe is for that row and no earlier
      row is a duplicate; with no duplicate, every row is probed. */
  lemma ProbeCountMeaning(table: seq<Row>, df: DataFrame, keys: seq<string>)
    requires Valid(df) && Probeable(df, keys)
    ensures DuplicateCheck(table, df, keys) == Success(false) ==> ProbeCount(table, df, keys) == |df.rows|
    ensures DuplicateCheck(table, df, keys) == Success(true) ==>
              var n := ProbeCount(table, df, keys);
              n > 0 && IsDuplicate(table, df, keys, n - 1) &&
              forall i :: 0 <= i < n - 1 ==> !IsDuplicate(table, df, keys, i)
  {
    var first := FirstDuplicate(table, df, keys, 0);
  }

  /** Adding rows to the table never hides a duplicate that was already there. */
  lemma DuplicatesPersist(table: seq<Row>, more: seq<Row>, df: DataFrame, keys: seq<string>)
    requires Valid(df)
    requires DuplicateCheck(table, df, keys) == Success(true)
    ensures DuplicateCheck(table + more, df, keys) == Success(true)
  {
    DuplicateCheckMeaning(table, df, keys);
    var i :| 0 <= i < |df.rows| && IsDuplicate(table, df, keys, i);
    var t :| 0 <= t < |table| && Matches(table[t], keys, KeyValues(df, i, keys));
    assert (table + more)[t] == table[t];
    assert IsDuplicate(table + more, df, keys, i);
    DuplicateCheckMeaning(table + more, df, keys);
  }
}
