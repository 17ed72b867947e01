/** The string operations the handler relies on: substring test, `str.join`, character counts. */
module Text {

  /** Python's `sub in s` on strings, computed by scanning the start positions left to right. */
  predicate Contains(s: string, sub: string)
    decreases |s|
  {
    (|sub| <= |s| && s[..|sub|] == sub) || (|s| > 0 && Contains(s[1..], sub))
  }

  /** Reference meaning of a substring occurrence: `sub` starts at index `i` of `s`. */
  ghost predicate OccursAt(s: string, sub: string, i: int)
  {
    0 <= i && i + |sub| <= |s| && s[i..i + |sub|] == sub
  }

  /** The scanning test agrees with the reference definition. */
  lemma {:induction false} ContainsIff(s: string, sub: string)
    ensures Contains(s, sub) <==> exists i :: OccursAt(s, sub, i)
    decreases |s|
  {
    if |sub| <= |s| && s[..|sub|] == sub {
      assert OccursAt(s, sub, 0);
    } else if |s| > 0 {
      ContainsIff(s[1..], sub);
      if Contains(s[1..], sub) {
        var i :| OccursAt(s[1..], sub, i);
        assert s[1..][i..i + |sub|] == s[i + 1..i + 1 + |sub|];
        assert OccursAt(s, sub, i + 1);
      }
      if exists i :: OccursAt(s, sub, i) {
        var i :| OccursAt(s, sub, i);
        assert s[0..|sub|] == s[..|sub|];
        assert i != 0;
        assert s[1..][i - 1..i - 1 + |sub|] == s[i..i + |sub|];
        assert OccursAt(s[1..], sub, i - 1);
      }
    }
  }

  /** A text in which the first character of `sub` never appears does not contain `sub`. */
  lemma {:induction false} FirstCharAbsent(s: string, sub: string)
    requires |sub| > 0 && sub[0] !in s
    ensures !Contains(s, sub)
    decreases |s|
  {
    if |s| > 0 {
      FirstCharAbsent(s[1..], sub);
    }
  }

  /** Python's `sep.join(parts)`. */
  function Join(parts: seq<string>, sep: string): string
  {
    if |parts| == 0 then ""
    else if |parts| == 1 then parts[0]
    else parts[0] + sep + Join(parts[1..], sep)
  }

  /** Joining one more part appends the separator and that part: the list is built in order. */
  lemma {:induction false} JoinSnoc(parts: seq<string>, x: string, sep: string)
    requires |parts| > 0
    ensures Join(parts + [x], sep) == Join(parts, sep) + sep + x
  {
    if |parts| == 1 {
      assert (parts + [x])[1..] == [x];
    } else {
      assert (parts + [x])[1..] == parts[1..] + [x];
      JoinSnoc(parts[1..], x, sep);
    }
  }

  /** Number of occurrences of `c` in `s`. */
  function CharCount(s: string, c: char): nat
  {
    if |s| == 0 then 0 else (if s[0] == c then 1 else 0) + CharCount(s[1..], c)
  }

  /** Number of occurrences of `c` over all of `parts`. */
  function TotalCharCount(parts: seq<string>, c: char): nat
  {
    if |parts| == 0 then 0 else CharCount(parts[0], c) + TotalCharCount(parts[1..], c)
  }

  lemma {:induction false} CharCountConcat(a: string, b: string, c: char)
    ensures CharCount(a + b, c) == CharCount(a, c) + CharCount(b, c)
    decreases |a|
  {
    if |a| > 0 {
      assert (a + b)[0] == a[0] && (a + b)[1..] == a[1..] + b;
      CharCountConcat(a[1..], b, c);
    } else {
      assert a + b == b;
    }
  }

  /** A separator free of `c` adds no occurrence of `c`: the joined text has exactly the parts' ones. */
  lemma {:induction false} JoinCharCount(parts: seq<string>, sep: string, c: char)
    requires CharCount(sep, c) == 0
    ensures CharCount(Join(parts, sep), c) == TotalCharCount(parts, c)
  {
    if |parts| == 1 {
      assert parts[1..] == [];
    } else if |parts| > 1 {
      JoinCharCount(parts[1..], sep, c);
      CharCountConcat(parts[0] + sep, Join(parts[1..], sep), c);
      CharCountConcat(parts[0], sep, c);
    }
  }
}
