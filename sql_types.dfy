/** The mapping from a pandas dtype name to the Access SQL type of its column (`get_sql_type`). */
module SqlTypes {
  import opened Text

  /** First match wins: "int", then "float", then "datetime"; anything else is TEXT. */
  function SqlType(dtype: string): (r: string)
    ensures r == "INTEGER" || r == "DOUBLE" || r == "DATETIME" || r == "TEXT"
  {
    if Contains(dtype, "int") then "INTEGER"
    else if Contains(dtype, "float") then "DOUBLE"
    else if Contains(dtype, "datetime") then "DATETIME"
    else "TEXT"
  }

  /** The precedence of the chain, stated with the reference meaning of "the dtype name contains". */
  lemma SqlTypePrecedence(dtype: string)
    ensures (exists i :: OccursAt(dtype, "int", i)) <==> SqlType(dtype) == "INTEGER"
    ensures (!(exists i :: OccursAt(dtype, "int", i)) && exists i :: OccursAt(dtype, "float", i))
            <==> SqlType(dtype) == "DOUBLE"
    ensures (!(exists i :: OccursAt(dtype, "int", i)) && !(exists i :: OccursAt(dtype, "float", i))
             && exists i :: OccursAt(dtype, "datetime", i))
            <==> SqlType(dtype) == "DATETIME"
    ensures (!(exists i :: OccursAt(dtype, "int", i)) && !(exists i :: OccursAt(dtype, "float", i))
             && !(exists i :: OccursAt(dtype, "datetime", i)))
            <==> SqlType(dtype) == "TEXT"
  {
    ContainsIff(dtype, "int");
    ContainsIff(dtype, "float");
    ContainsIff(dtype, "datetime");
  }

  /** "int" wins over "float" and "datetime": any name in which "int" occurs is INTEGER, wherever
      the other two occur in it. */
  lemma IntWinsOverFloatAndDatetime(dtype: string, i: int)
    requires OccursAt(dtype, "int", i)
    ensures SqlType(dtype) == "INTEGER"
  {
    ContainsIff(dtype, "int");
  }

  /** For instance "int_float64" and "float_x_int" are INTEGER. */
  lemma MixedNamesAreInteger()
    ensures SqlType("int_float64") == "INTEGER"
    ensures SqlType("float_x_int") == "INTEGER"
  {
    assert "int_float64"[0..3] == "int";
    IntWinsOverFloatAndDatetime("int_float64", 0);
    assert "float_x_int"[8..11] == "int";
    IntWinsOverFloatAndDatetime("float_x_int", 8);
  }

  /** The only "i" of "datetime" is followed by "m", so a suffix without "i" keeps "int" out. */
  lemma {:induction false} DatetimeHasNoInt(suffix: string)
    requires 'i' !in suffix
    ensures !Contains("datetime" + suffix, "int")
  {
    var s := "datetime" + suffix;
    forall i | 0 <= i && i + 3 <= |s|
      ensures !OccursAt(s, "int", i)
    {
      assert s[i..i + 3][0] == s[i];
      assert s[i..i + 3][1] == s[i + 1];
      if i >= 8 {
        assert s[i] == suffix[i - 8];
      }
    }
    ContainsIff(s, "int");
  }

  /** The dtype pandas gives a spreadsheet column of whole numbers. */
  lemma IntegerDtype()
    ensures SqlType("int64") == "INTEGER"
  {
    assert "int64"[..3] == "int";
  }

  /** The dtype pandas gives a spreadsheet column of reals. */
  lemma FloatDtype()
    ensures SqlType("float64") == "DOUBLE"
  {
    FirstCharAbsent("float64", "int");
    assert "float64"[..5] == "float";
  }

  /** Timestamp dtypes ("datetime64[ns]", "datetime64[ns, UTC]") are DATETIME. */
  lemma {:induction false} DatetimeDtype(suffix: string)
    requires 'i' !in suffix && 'f' !in suffix
    ensures SqlType("datetime" + suffix) == "DATETIME"
  {
    var d := "datetime" + suffix;
    DatetimeHasNoInt(suffix);
    assert forall c :: c in d ==> c in "datetime" || c in suffix;
    FirstCharAbsent(d, "float");
    assert d[..8] == "datetime";
  }

  /** The dtype pandas gives a spreadsheet column of timestamps. */
  lemma TimestampColumn()
    ensures SqlType("datetime64[ns]") == "DATETIME"
  {
    assert "datetime64[ns]" == "datetime" + "64[ns]";
    DatetimeDtype("64[ns]");
  }

  /** A dtype name with no "i", "f" or "d" falls through every branch of the chain. */
  lemma {:induction false} NoMarkerIsText(dtype: string)
    requires 'i' !in dtype && 'f' !in dtype && 'd' !in dtype
    ensures SqlType(dtype) == "TEXT"
  {
    FirstCharAbsent(dtype, "int");
    FirstCharAbsent(dtype, "float");
    FirstCharAbsent(dtype, "datetime");
  }

  /** Text ("object") and boolean columns are TEXT, and so is pandas' nullable integer dtype
      "Int64", because the match is case-sensitive. */
  lemma TextDtypes(dtype: string)
    requires dtype in ["object", "bool", "Int64"]
    ensures SqlType(dtype) == "TEXT"
  {
    NoMarkerIsText(dtype);
  }
}
