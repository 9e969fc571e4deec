/** String helpers for the FDS namelist text: Python's `str.join`, `str.split`,
    the `in` substring test, `str.count`, slicing prefixes, `str(int)` and
    Python's code-point ordering of strings. */
module Text {
  import opened Options

  /** `sep.join(xs)` */
  function Join(sep: string, xs: seq<string>): (r: string)
  {
    if |xs| == 0 then "" else if |xs| == 1 then xs[0] else xs[0] + sep + Join(sep, xs[1..])
  }

  /** `"".join(xs)` */
  function Concat(xs: seq<string>): (r: string)
  {
    if |xs| == 0 then "" else Concat(xs[..|xs| - 1]) + xs[|xs| - 1]
  }

  lemma {:induction false} JoinSnoc(sep: string, xs: seq<string>, x: string)
    requires |xs| > 0
    ensures Join(sep, xs + [x]) == Join(sep, xs) + sep + x
  {
    if |xs| == 1 {
      assert xs + [x] == [xs[0], x];
    } else {
      assert (xs + [x])[1..] == xs[1..] + [x];
      JoinSnoc(sep, xs[1..], x);
    }
  }

  lemma ConcatSnoc(xs: seq<string>, x: string)
    ensures Concat(xs + [x]) == Concat(xs) + x
  {
    assert (xs + [x])[..|xs|] == xs;
  }

  /** `s.split(c)` for a one-character separator. */
  function Split(s: string, c: char): (r: seq<string>)
    ensures |r| > 0
  {
    if |s| == 0 then [""]
    else
      var rest := Split(s[1..], c);
      if s[0] == c then [""] + rest else [[s[0]] + rest[0]] + rest[1..]
  }

  lemma {:induction false} SplitFree(a: string, c: char)
    requires c !in a
    ensures Split(a, c) == [a]
  {
    if |a| > 0 {
      SplitFree(a[1..], c);
      assert [a[0]] + a[1..] == a;
    }
  }

  lemma {:induction false} SplitAt(a: string, c: char, b: string)
    requires c !in a
    ensures Split(a + [c] + b, c) == [a] + Split(b, c)
  {
    if |a| == 0 {
      assert a + [c] + b == [c] + b;
      assert ([c] + b)[1..] == b;
    } else {
      var s := a + [c] + b;
      assert s[1..] == a[1..] + [c] + b;
      SplitAt(a[1..], c, b);
      assert [a[0]] + a[1..] == a;
    }
  }

  /** Joining pieces free of the separator and splitting again gives the pieces back. */
  lemma {:induction false} SplitJoin(c: char, xs: seq<string>)
    requires |xs| > 0
    requires forall i :: 0 <= i < |xs| ==> c !in xs[i]
    ensures Split(Join([c], xs), c) == xs
  {
    if |xs| == 1 {
      SplitFree(xs[0], c);
    } else {
      SplitJoin(c, xs[1..]);
      SplitAt(xs[0], c, Join([c], xs[1..]));
      assert [xs[0]] + xs[1..] == xs;
    }
  }

  /** Python's `sub in s` for strings. */
  predicate Contains(s: string, sub: string)
  {
    StartsWith(s, sub) || (|s| > 0 && Contains(s[1..], sub))
  }

  /** `s[:|p|] == p` */
  predicate StartsWith(s: string, p: string)
  {
    |p| <= |s| && s[..|p|] == p
  }

  lemma {:induction false} ContainsAfter(x: string, s: string, sub: string)
    requires Contains(s, sub)
    ensures Contains(x + s, sub)
    decreases |x|
  {
    if |x| > 0 {
      assert (x + s)[1..] == x[1..] + s;
      ContainsAfter(x[1..], s, sub);
    } else {
      assert x + s == s;
    }
  }

  lemma {:induction false} ContainsBefore(s: string, y: string, sub: string)
    requires Contains(s, sub)
    ensures Contains(s + y, sub)
    decreases |s|
  {
    if StartsWith(s, sub) {
      assert (s + y)[..|sub|] == s[..|sub|];
    } else {
      assert (s + y)[1..] == s[1..] + y;
      ContainsBefore(s[1..], y, sub);
    }
  }

  /** Every piece of a join occurs in it. */
  lemma {:induction false} JoinContains(sep: string, xs: seq<string>, i: nat)
    requires i < |xs|
    ensures Contains(Join(sep, xs), xs[i])
  {
    assert StartsWith(xs[i], xs[i]);
    if |xs| > 1 {
      if i == 0 {
        ContainsBefore(xs[0], sep + Join(sep, xs[1..]), xs[0]);
        assert xs[0] + sep + Join(sep, xs[1..]) == xs[0] + (sep + Join(sep, xs[1..]));
      } else {
        JoinContains(sep, xs[1..], i - 1);
        ContainsAfter(xs[0] + sep, Join(sep, xs[1..]), xs[i]);
      }
    }
  }

  /** `s.count(c)` for one character. */
  function Count(s: string, c: char): (r: nat)
  {
    if |s| == 0 then 0 else (if s[0] == c then 1 else 0) + Count(s[1..], c)
  }

  // ---- Decimal rendering of integers, Python's str(int) ----

  function DigitChar(d: nat): (c: char)
    requires d < 10
  {
    "0123456789"[d]
  }

  function DigitValue(c: char): (r: nat)
  {
    if '0' <= c <= '9' then (c as int - '0' as int) as nat else 0
  }

  predicate IsDigit(c: char)
  {
    '0' <= c <= '9'
  }

  function Digits(n: nat): (r: string)
    decreases n
  {
    if n < 10 then [DigitChar(n)] else Digits(n / 10) + [DigitChar(n % 10)]
  }

  /** str(n) */
  function Decimal(n: int): (r: string)
  {
    if n < 0 then "-" + Digits(-n) else Digits(n)
  }

  function DigitsValue(s: string): (r: nat)
  {
    if |s| == 0 then 0 else DigitsValue(s[..|s| - 1]) * 10 + DigitValue(s[|s| - 1])
  }

  /** Reads back an optionally negative decimal numeral, as an FDS reader of integers does. */
  function ParseDecimal(s: string): (r: Option<int>)
  {
    if |s| > 0 && s[0] == '-' then
      if |s| > 1 && forall i :: 1 <= i < |s| ==> IsDigit(s[i]) then Some(-(DigitsValue(s[1..]) as int)) else None
    else if |s| > 0 && forall i :: 0 <= i < |s| ==> IsDigit(s[i]) then Some(DigitsValue(s))
    else None
  }

  lemma {:induction false} DigitsFacts(n: nat)
    ensures |Digits(n)| > 0
    ensures forall i :: 0 <= i < |Digits(n)| ==> IsDigit(Digits(n)[i])
    ensures DigitsValue(Digits(n)) == n
    decreases n
  {
    if n >= 10 {
      DigitsFacts(n / 10);
      var s := Digits(n);
      assert s[..|s| - 1] == Digits(n / 10);
    }
  }

  /** A non-empty run of digits reads back as its value, with or without a leading '-'. */
  lemma ParseDigitRun(s: string)
    requires |s| > 0 && forall i :: 0 <= i < |s| ==> IsDigit(s[i])
    ensures ParseDecimal(s) == Some(DigitsValue(s) as int)
    ensures ParseDecimal("-" + s) == Some(-(DigitsValue(s) as int))
  {
    assert s[0] != '-' by { assert IsDigit(s[0]); }
    var t := "-" + s;
    assert t[1..] == s;
    assert forall i :: 1 <= i < |t| ==> IsDigit(t[i]) by {
      forall i | 1 <= i < |t| ensures IsDigit(t[i]) {
        assert t[i] == s[i - 1];
      }
    }
  }

  /** Every integer reads back from its decimal text. */
  lemma DecimalRoundTrip(n: int)
    ensures ParseDecimal(Decimal(n)) == Some(n)
  {
    var m: nat := if n < 0 then -n else n;
    DigitsFacts(m);
    ParseDigitRun(Digits(m));
  }

  /** Decimal text never contains the list separator ',' of FDS values. */
  lemma DecimalHasNoComma(n: int)
    ensures ',' !in Decimal(n)
  {
    if n < 0 { DigitsFacts(-n); } else { DigitsFacts(n); }
    var s := Decimal(n);
    if n < 0 {
      forall i | 0 <= i < |s| ensures s[i] != ',' {
        if i > 0 { assert s[i] == Digits(-n)[i - 1]; }
      }
    }
  }

  // ---- Python's ordering of strings (by code point, lexicographic) ----

  predicate Less(a: string, b: string)
  {
    if |a| == 0 then |b| > 0
    else if |b| == 0 then false
    else if a[0] != b[0] then a[0] < b[0]
    else Less(a[1..], b[1..])
  }

  lemma {:induction false} LessIrreflexive(a: string)
    ensures !Less(a, a)
  {
    if |a| > 0 { LessIrreflexive(a[1..]); }
  }

  lemma {:induction false} LessTransitive(a: string, b: string, c: string)
    requires Less(a, b) && Less(b, c)
    ensures Less(a, c)
  {
    if |a| > 0 && |b| > 0 && |c| > 0 && a[0] == b[0] && b[0] == c[0] {
      LessTransitive(a[1..], b[1..], c[1..]);
    }
  }

  lemma {:induction false} LessTotal(a: string, b: string)
    ensures a == b || Less(a, b) || Less(b, a)
  {
    if |a| > 0 && |b| > 0 && a[0] == b[0] {
      LessTotal(a[1..], b[1..]);
      if a[1..] == b[1..] {
        assert a == [a[0]] + a[1..] && b == [b[0]] + b[1..];
      }
    }
  }
}
