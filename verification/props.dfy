/** BFProp and its string specialisations: `format`, `check`, `to_fds`
    (with the BFNoAutoExportMod variant) and `from_fds`, on one element's
    property values. */
module Props {
  import opened Options
  import opened Text
  import opened Values
  import opened Errors
  import opened Descriptors

  /** `"{:.{}f}".format(x, precision)`: fixed-point rendering of a float, a parameter of the model. */
  type FloatText = (real, nat) -> string

  const TrueText := ".TRUE."
  const FalseText := ".FALSE."

  function BoolText(b: bool): (r: string)
  {
    if b then TrueText else FalseText
  }

  /** `"'{}'".format(s)` */
  function Quoted(s: string): (r: string)
  {
    "'" + s + "'"
  }

  /** Each element of a vector value rendered as `format` renders it. */
  function Rendered(v: Value, precision: nat, ff: FloatText): (r: seq<string>)
    requires IsVector(v)
    ensures |r| == Length(v)
  {
    match v
    case Bools(bs) => seq(|bs|, i requires 0 <= i < |bs| => BoolText(bs[i]))
    case Ints(ns) => seq(|ns|, i requires 0 <= i < |ns| => Decimal(ns[i]))
    case Floats(fs) => seq(|fs|, i requires 0 <= i < |fs| => ff(fs[i], precision))
    case Strs(ss) => seq(|ss|, i requires 0 <= i < |ss| => Quoted(ss[i]))
  }

  /** The values part of `BFProp.format`. A scalar is a one-element sequence;
      an empty string scalar renders as nothing; an empty vector fails on
      `values[0]` with an IndexError. */
  function ValuesText(v: Value, precision: nat, ff: FloatText): (r: Outcome<Option<string>>)
  {
    match v
    case Scalar(Bool(b)) => Ok(Some(BoolText(b)))
    case Scalar(Int(i)) => Ok(Some(Decimal(i)))
    case Scalar(Float(f)) => Ok(Some(ff(f, precision)))
    case Scalar(Str(s)) => Ok(if s == "" then None else Some(Quoted(s)))
    case _ => if Length(v) == 0 then Raised(Crash("IndexError")) else Ok(Some(Join(",", Rendered(v, precision, ff))))
  }

  /** `BFProp.format(context, value)` */
  function Format(fdsLabel: string, precision: nat, value: Option<Value>, ff: FloatText): (r: Outcome<Option<string>>)
    ensures value.None? ==> r == Ok(None)
    ensures r.Ok? && r.value.Some? && fdsLabel != "" ==> StartsWith(r.value.value, fdsLabel + "=")
  {
    match value
    case None => Ok(None)
    case Some(v) =>
      match ValuesText(v, precision, ff)
      case Raised(e) => Raised(e)
      case Ok(None) => Ok(None)
      case Ok(Some(t)) =>
        var out := if fdsLabel != "" then fdsLabel + "=" + t else t;
        assert fdsLabel != "" ==> out[..|fdsLabel + "="|] == fdsLabel + "=";
        Ok(Some(out))
  }

  /** `format` renders nothing exactly for a missing value and the empty string,
      and fails exactly on an empty vector. */
  lemma FormatNothing(fdsLabel: string, precision: nat, value: Option<Value>, ff: FloatText)
    ensures Format(fdsLabel, precision, value, ff) == Ok(None) <==>
      (value.None? || value == Some(Scalar(Str(""))))
    ensures Format(fdsLabel, precision, value, ff).Raised? <==>
      (value.Some? && IsVector(value.value) && Length(value.value) == 0)
  {
  }

  // ---- Reading a formatted parameter back ----

  /** The values part of `LABEL=values`, or of the bare values when unlabelled. */
  function Body(fdsLabel: string, t: string): (r: Option<string>)
  {
    if fdsLabel == "" then Some(t)
    else if StartsWith(t, fdsLabel + "=") then Some(t[|fdsLabel| + 1..])
    else None
  }

  function ParseInts(pieces: seq<string>): (r: Option<seq<int>>)
  {
    if |pieces| == 0 then Some([])
    else match (ParseDecimal(pieces[0]), ParseInts(pieces[1..]))
      case (Some(n), Some(ns)) => Some([n] + ns)
      case _ => None
  }

  function ParseBool(t: string): (r: Option<bool>)
  {
    if t == TrueText then Some(true) else if t == FalseText then Some(false) else None
  }

  function ParseBools(pieces: seq<string>): (r: Option<seq<bool>>)
  {
    if |pieces| == 0 then Some([])
    else match (ParseBool(pieces[0]), ParseBools(pieces[1..]))
      case (Some(b), Some(bs)) => Some([b] + bs)
      case _ => None
  }

  /** Reads `LABEL=1,2,3` back as integers. */
  function DecodeInts(fdsLabel: string, t: string): (r: Option<seq<int>>)
  {
    match Body(fdsLabel, t)
    case None => None
    case Some(b) => ParseInts(Split(b, ','))
  }

  /** Reads `LABEL=.TRUE.,.FALSE.` back as booleans. */
  function DecodeBools(fdsLabel: string, t: string): (r: Option<seq<bool>>)
  {
    match Body(fdsLabel, t)
    case None => None
    case Some(b) => ParseBools(Split(b, ','))
  }

  lemma BodyOfLabelled(fdsLabel: string, t: string)
    ensures Body(fdsLabel, if fdsLabel != "" then fdsLabel + "=" + t else t) == Some(t)
  {
    var out := fdsLabel + "=" + t;
    if fdsLabel != "" {
      assert out[..|fdsLabel + "="|] == fdsLabel + "=";
      assert out[|fdsLabel| + 1..] == t;
    }
  }

  lemma {:induction false} ParseIntsOfDecimals(ns: seq<int>)
    ensures ParseInts(seq(|ns|, i requires 0 <= i < |ns| => Decimal(ns[i]))) == Some(ns)
  {
    var ps := seq(|ns|, i requires 0 <= i < |ns| => Decimal(ns[i]));
    if |ns| > 0 {
      DecimalRoundTrip(ns[0]);
      ParseIntsOfDecimals(ns[1..]);
      assert ps[1..] == seq(|ns[1..]|, i requires 0 <= i < |ns[1..]| => Decimal(ns[1..][i]));
      assert [ns[0]] + ns[1..] == ns;
    }
  }

  lemma {:induction false} ParseBoolsOfTexts(bs: seq<bool>)
    ensures ParseBools(seq(|bs|, i requires 0 <= i < |bs| => BoolText(bs[i]))) == Some(bs)
  {
    var ps := seq(|bs|, i requires 0 <= i < |bs| => BoolText(bs[i]));
    if |bs| > 0 {
      ParseBoolsOfTexts(bs[1..]);
      assert ps[1..] == seq(|bs[1..]|, i requires 0 <= i < |bs[1..]| => BoolText(bs[1..][i]));
      assert [bs[0]] + bs[1..] == bs;
    }
  }

  /** Integer parameters round-trip: an FDS reader that strips the label and
      splits on ',' gets back every element, in order. */
  lemma IntsRoundTrip(fdsLabel: string, precision: nat, ns: seq<int>, ff: FloatText)
    requires |ns| > 0
    ensures Format(fdsLabel, precision, Some(Ints(ns)), ff).Ok?
    ensures Format(fdsLabel, precision, Some(Ints(ns)), ff).value.Some?
    ensures DecodeInts(fdsLabel, Format(fdsLabel, precision, Some(Ints(ns)), ff).value.value) == Some(ns)
  {
    var ps := Rendered(Ints(ns), precision, ff);
    forall i | 0 <= i < |ps| ensures ',' !in ps[i] {
      DecimalHasNoComma(ns[i]);
    }
    SplitJoin(',', ps);
    ParseIntsOfDecimals(ns);
    BodyOfLabelled(fdsLabel, Join(",", ps));
  }

  /** Boolean parameters round-trip the same way. */
  lemma BoolsRoundTrip(fdsLabel: string, precision: nat, bs: seq<bool>, ff: FloatText)
    requires |bs| > 0
    ensures Format(fdsLabel, precision, Some(Bools(bs)), ff).Ok?
    ensures Format(fdsLabel, precision, Some(Bools(bs)), ff).value.Some?
    ensures DecodeBools(fdsLabel, Format(fdsLabel, precision, Some(Bools(bs)), ff).value.value) == Some(bs)
  {
    var ps := Rendered(Bools(bs), precision, ff);
    forall i | 0 <= i < |ps| ensures ',' !in ps[i] {
      assert ps[i] == TrueText || ps[i] == FalseText;
    }
    SplitJoin(',', ps);
    ParseBoolsOfTexts(bs);
    BodyOfLabelled(fdsLabel, Join(",", ps));
  }

  /** An integer scalar is written as a one-element sequence. */
  lemma IntScalarRoundTrip(fdsLabel: string, precision: nat, n: int, ff: FloatText)
    ensures Format(fdsLabel, precision, Some(Scalar(Int(n))), ff) == Format(fdsLabel, precision, Some(Ints([n])), ff)
    ensures DecodeInts(fdsLabel, Format(fdsLabel, precision, Some(Scalar(Int(n))), ff).value.value) == Some([n])
  {
    assert Rendered(Ints([n]), precision, ff) == [Decimal(n)];
    IntsRoundTrip(fdsLabel, precision, [n], ff);
  }

  lemma ColorScenario(ff: FloatText)
    ensures Format("COLOR", 3, Some(Ints([3, 4, 5])), ff) == Ok(Some("COLOR=3,4,5"))
  {
    assert Decimal(3) == "3" && Decimal(4) == "4" && Decimal(5) == "5";
    assert Rendered(Ints([3, 4, 5]), 3, ff) == ["3", "4", "5"];
    assert Join(",", ["3", "4", "5"]) == "3" + "," + ("4" + "," + "5") == "3,4,5";
    assert ValuesText(Ints([3, 4, 5]), 3, ff) == Ok(Some("3,4,5"));
    assert "COLOR" + "=" + "3,4,5" == "COLOR=3,4,5";
  }

  // ---- BFStringProp.format ----

  /** `BFStringProp.format`: `LABEL='value'`, the bare value when unlabelled,
      nothing for the empty string. */
  function StringFormat(fdsLabel: string, s: string): (r: Option<string>)
    ensures r.None? <==> s == ""
    ensures r.Some? && fdsLabel != "" ==> r.value == fdsLabel + "=" + Quoted(s)
    ensures r.Some? && fdsLabel == "" ==> r.value == s
  {
    if s != "" then
      if fdsLabel != "" then Some(fdsLabel + "='" + s + "'") else Some(s)
    else None
  }

  /** The text between a leading and a trailing single quote, when no other
      quote comes between them. */
  function Unquote(b: string): (r: Option<string>)
  {
    if |b| >= 2 && b[0] == '\'' && '\'' !in b[1..|b| - 1] && b[|b| - 1] == '\'' then Some(b[1..|b| - 1])
    else None
  }

  /** Reads `LABEL='value'` back: the text between the first quote after the
      label and the next one. */
  function DecodeQuoted(fdsLabel: string, t: string): (r: Option<string>)
  {
    match Body(fdsLabel, t)
    case None => None
    case Some(b) => Unquote(b)
  }

  function ParseStrs(pieces: seq<string>): (r: Option<seq<string>>)
  {
    if |pieces| == 0 then Some([])
    else match (Unquote(pieces[0]), ParseStrs(pieces[1..]))
      case (Some(x), Some(xs)) => Some([x] + xs)
      case _ => None
  }

  /** Reads `LABEL='a','b'` back as strings. */
  function DecodeStrs(fdsLabel: string, t: string): (r: Option<seq<string>>)
  {
    match Body(fdsLabel, t)
    case None => None
    case Some(b) => ParseStrs(Split(b, ','))
  }

  lemma IdScenario()
    ensures StringFormat("ID", "example") == Some("ID='example'")
  {
    assert "ID" + "='" + "example" + "'" == "ID='example'";
  }

  /** With a label, the generic `format` of a string scalar is the string
      kinds' `format`: `LABEL='value'`, or nothing for "". */
  lemma FormatStringScalar(fdsLabel: string, precision: nat, s: string, ff: FloatText)
    requires fdsLabel != ""
    ensures Format(fdsLabel, precision, Some(Scalar(Str(s))), ff) == Ok(StringFormat(fdsLabel, s))
  {
  }

  lemma QuotedFacts(x: string)
    requires '\'' !in x
    ensures Unquote(Quoted(x)) == Some(x)
    ensures ',' !in x ==> ',' !in Quoted(x)
  {
    var q := Quoted(x);
    assert q[1..|q| - 1] == x;
    assert forall j :: 1 <= j < |q| - 1 ==> q[j] == x[j - 1];
  }

  lemma {:induction false} ParseStrsOfQuoted(ss: seq<string>)
    requires forall i :: 0 <= i < |ss| ==> '\'' !in ss[i]
    ensures ParseStrs(seq(|ss|, i requires 0 <= i < |ss| => Quoted(ss[i]))) == Some(ss)
  {
    var ps := seq(|ss|, i requires 0 <= i < |ss| => Quoted(ss[i]));
    if |ss| > 0 {
      QuotedFacts(ss[0]);
      ParseStrsOfQuoted(ss[1..]);
      assert ps[1..] == seq(|ss[1..]|, i requires 0 <= i < |ss[1..]| => Quoted(ss[1..][i]));
      assert [ss[0]] + ss[1..] == ss;
    }
  }

  /** A string scalar without single quotes round-trips through `format`,
      labelled or not. */
  lemma StringScalarRoundTrip(fdsLabel: string, precision: nat, s: string, ff: FloatText)
    requires s != "" && '\'' !in s
    ensures Format(fdsLabel, precision, Some(Scalar(Str(s))), ff).Ok?
    ensures Format(fdsLabel, precision, Some(Scalar(Str(s))), ff).value.Some?
    ensures DecodeQuoted(fdsLabel, Format(fdsLabel, precision, Some(Scalar(Str(s))), ff).value.value) == Some(s)
  {
    QuotedFacts(s);
    BodyOfLabelled(fdsLabel, Quoted(s));
  }

  /** String vectors are written as `'a','b'`: a reader that strips the label,
      splits on ',' and strips the quotes gets back every element, in order,
      when no element holds a comma or a single quote. */
  lemma StrsRoundTrip(fdsLabel: string, precision: nat, ss: seq<string>, ff: FloatText)
    requires |ss| > 0
    requires forall i :: 0 <= i < |ss| ==> ',' !in ss[i] && '\'' !in ss[i]
    ensures Format(fdsLabel, precision, Some(Strs(ss)), ff).Ok?
    ensures Format(fdsLabel, precision, Some(Strs(ss)), ff).value.Some?
    ensures DecodeStrs(fdsLabel, Format(fdsLabel, precision, Some(Strs(ss)), ff).value.value) == Some(ss)
  {
    var ps := Rendered(Strs(ss), precision, ff);
    forall i | 0 <= i < |ps| ensures ',' !in ps[i] {
      QuotedFacts(ss[i]);
    }
    SplitJoin(',', ps);
    ParseStrsOfQuoted(ss);
    BodyOfLabelled(fdsLabel, Join(",", ps));
  }

  // ---- Validators ----

  const AmpSlashMsg := "& and / characters not allowed"
  const SpecialMsg := "Some special characters are not allowed (eg. #)"
  const QuotesMsg := "Quote characters not allowed"
  const MatchedQuotesMsg := "Only use matched single quotes as 'string' delimiters"

  /** The last quote literal of both validators: a right single quotation mark
      followed by an invisible zero-width non-joiner. A lone right quotation
      mark is not rejected. */
  const RightQuoteZwnj: string := "\U{2019}\U{200C}"

  const StringForbidden: set<char> :=
    {'&', '/', '#', '\'', '"', '`', '\U{201C}', '\U{201D}', '\U{2018}'}

  const FreeForbidden: set<char> :=
    {'&', '/', '#', '"', '`', '\U{201D}', '\U{2018}'}

  predicate NoneOf(s: string, cs: set<char>)
  {
    forall i :: 0 <= i < |s| ==> s[i] !in cs
  }

  /** `BFStringProp.check`: None when the value passes. */
  function StringCheck(sender: string, s: string): (r: Option<BFError>)
    ensures r.None? <==> NoneOf(s, StringForbidden) && !Contains(s, RightQuoteZwnj)
    ensures ('&' in s || '/' in s) ==> r == Some(Simple(sender, AmpSlashMsg))
    ensures '&' !in s && '/' !in s && '#' in s ==> r == Some(Simple(sender, SpecialMsg))
    ensures r.Some? && '&' !in s && '/' !in s && '#' !in s ==> r == Some(Simple(sender, QuotesMsg))
  {
    if '&' in s || '/' in s then Some(Simple(sender, AmpSlashMsg))
    else if '#' in s then Some(Simple(sender, SpecialMsg))
    else if '\'' in s || '"' in s || '`' in s || '\U{201C}' in s || '\U{201D}' in s || '\U{2018}' in s
      || Contains(s, RightQuoteZwnj) then Some(Simple(sender, QuotesMsg))
    else None
  }

  /** `BFFreeProp.check`: single quotes are allowed in matched pairs. */
  function FreeCheck(sender: string, s: string): (r: Option<BFError>)
    ensures r.None? <==> NoneOf(s, FreeForbidden) && !Contains(s, RightQuoteZwnj) && Count(s, '\'') % 2 == 0
    ensures ('&' in s || '/' in s) ==> r == Some(Simple(sender, AmpSlashMsg))
    ensures '&' !in s && '/' !in s && '#' in s ==> r == Some(Simple(sender, SpecialMsg))
    ensures r.Some? && '&' !in s && '/' !in s && '#' !in s ==> r == Some(Simple(sender, MatchedQuotesMsg))
  {
    if '&' in s || '/' in s then Some(Simple(sender, AmpSlashMsg))
    else if '#' in s then Some(Simple(sender, SpecialMsg))
    else if '`' in s || '\U{2018}' in s || Contains(s, RightQuoteZwnj) || '"' in s || '\U{201D}' in s
      || Count(s, '\'') % 2 != 0 then Some(Simple(sender, MatchedQuotesMsg))
    else None
  }

  /** An odd number of single quotes always fails the free-parameter check. */
  lemma FreeOddQuotesFail(sender: string, s: string)
    requires Count(s, '\'') % 2 == 1
    ensures FreeCheck(sender, s).Some?
  {
  }

  /** Quote pairs alone never fail it: a value free of the other rejected
      characters passes whatever even number of single quotes it holds. */
  lemma FreeEvenQuotesPass(sender: string, s: string)
    requires NoneOf(s, FreeForbidden) && !Contains(s, RightQuoteZwnj)
    requires Count(s, '\'') % 2 == 0
    ensures FreeCheck(sender, s).None?
  {
  }

  /** As written, a lone right single quotation mark passes both validators. */
  lemma LoneRightQuoteAccepted(sender: string)
    ensures StringCheck(sender, "it\U{2019}s").None?
    ensures FreeCheck(sender, "it\U{2019}s").None?
  {
    var s := "it\U{2019}s";
    assert !Contains(s, RightQuoteZwnj) by {
      assert !StartsWith(s, RightQuoteZwnj) by { assert s[0] == 'i'; }
      assert !StartsWith(s[1..], RightQuoteZwnj);
      assert !StartsWith(s[2..], RightQuoteZwnj) by { assert s[2..][1] == 's'; }
      assert !StartsWith(s[3..], RightQuoteZwnj);
    }
  }

  lemma {:induction false} CountConcat(a: string, b: string, c: char)
    ensures Count(a + b, c) == Count(a, c) + Count(b, c)
  {
    if |a| > 0 {
      assert (a + b)[0] == a[0];
      assert (a + b)[1..] == a[1..] + b;
      CountConcat(a[1..], b, c);
    } else {
      assert a + b == b;
    }
  }

  lemma {:induction false} CountAbsent(s: string, c: char)
    requires c !in s
    ensures Count(s, c) == 0
  {
    if |s| > 0 {
      assert forall i :: 0 <= i < |s[1..]| ==> s[1..][i] == s[i + 1];
      CountAbsent(s[1..], c);
    }
  }

  /** A value that passes the string check cannot break the record: the
      labelled parameter holds exactly the two delimiting single quotes, no
      record terminator '/', no namelist start '&' and no '#' beyond the label. */
  lemma CheckedStringStaysQuoted(sender: string, fdsLabel: string, s: string)
    requires StringCheck(sender, s).None?
    requires s != "" && fdsLabel != ""
    requires '\'' !in fdsLabel
    ensures StringFormat(fdsLabel, s).Some?
    ensures Count(StringFormat(fdsLabel, s).value, '\'') == 2
    ensures DecodeQuoted(fdsLabel, StringFormat(fdsLabel, s).value) == Some(s)
    ensures forall i :: |fdsLabel| <= i < |StringFormat(fdsLabel, s).value| ==>
      StringFormat(fdsLabel, s).value[i] !in {'&', '/', '#'}
  {
    var t := fdsLabel + "=" + Quoted(s);
    assert '\'' !in s by {
      forall i | 0 <= i < |s| ensures s[i] != '\'' { assert s[i] !in StringForbidden; }
    }
    CountAbsent(s, '\'');
    CountAbsent(fdsLabel + "=", '\'');
    assert '\'' !in fdsLabel + "=";
    assert t == (fdsLabel + "=") + ("'" + (s + "'"));
    CountConcat(fdsLabel + "=", "'" + (s + "'"), '\'');
    CountConcat("'", s + "'", '\'');
    CountConcat(s, "'", '\'');
    assert Count("'", '\'') == 1;
    assert Count(t, '\'') == 2;
    BodyOfLabelled(fdsLabel, Quoted(s));
    var b := Quoted(s);
    assert b[1..|b| - 1] == s;
    forall i | |fdsLabel| <= i < |t| ensures t[i] !in {'&', '/', '#'} {
      if |fdsLabel| + 1 < i < |t| - 1 {
        assert t[i] == s[i - |fdsLabel| - 2];
        assert s[i - |fdsLabel| - 2] !in StringForbidden;
      }
    }
  }

  // ---- BFProp.to_fds ----

  /** What a child's `to_fds` produced: its parameter, and the infos its check appended. */
  datatype PropExport = PropExport(param: Option<Param>, infos: seq<Info>)

  /** `check` of the descriptor, on a string value for the string kinds. */
  function Check(d: Desc, vals: Values): (r: Outcome<seq<Info>>)
  {
    match d.kind
    case Plain(infos, failure) =>
      if failure.Some? then Raised(BF(Simple(d.name, failure.value))) else Ok(infos)
    case Geometry(_) => Ok([])
    case _ =>
      match GetValue(vals, d.idname)
      case Some(Scalar(Str(s))) =>
        var e := if d.kind.StringKind? then StringCheck(d.name, s) else FreeCheck(d.name, s);
        if e.Some? then Raised(BF(e.value)) else Ok([])
      case _ => Raised(Crash("TypeError"))
  }

  /** `BFProp.to_fds`, `BFNoAutoExportMod.to_fds` when `autoExport` is false,
      and the string kinds' `format`. */
  function PropToFds(d: Desc, vals: Values, ff: FloatText): (r: Outcome<PropExport>)
  {
    if d.kind.Geometry? then Ok(PropExport(d.kind.exported, []))
    else if !Exported(d, vals) then Ok(PropExport(None, []))
    else
      match Check(d, vals)
      case Raised(e) => Raised(e)
      case Ok(infos) =>
        if !d.autoExport then Ok(PropExport(None, infos))
        else
          var value := GetValue(vals, d.idname);
          var text :=
            if d.kind.Plain? then Format(d.fdsLabel, d.precision, value, ff)
            else Ok(StringFormat(d.fdsLabel, value.value.atom.s));
          match text
          case Raised(e) => Raised(e)
          case Ok(t) => Ok(PropExport(if t.Some? then Some(Single(t.value)) else None, infos))
  }

  /** A descriptor that is not exported gives nothing and runs no check. */
  lemma NotExportedGivesNothing(d: Desc, vals: Values, ff: FloatText)
    requires !d.kind.Geometry? && !Exported(d, vals)
    ensures PropToFds(d, vals, ff) == Ok(PropExport(None, []))
  {
  }

  /** When `to_fds` returns normally, it returns no parameter exactly when the
      descriptor is not exported, does not export itself (BFNoAutoExportMod),
      or holds nothing to render (no value, or the empty string). */
  lemma PropToFdsNothingIff(d: Desc, vals: Values, ff: FloatText)
    requires !d.kind.Geometry?
    requires PropToFds(d, vals, ff).Ok?
    ensures PropToFds(d, vals, ff).value.param.None? <==>
      (!Exported(d, vals) || !d.autoExport ||
       GetValue(vals, d.idname).None? || GetValue(vals, d.idname) == Some(Scalar(Str(""))))
  {
    if Exported(d, vals) && d.autoExport && !d.kind.Plain? {
      assert GetValue(vals, d.idname).Some? && GetValue(vals, d.idname).value.Scalar?;
    }
    if Exported(d, vals) && d.autoExport && d.kind.Plain? {
      FormatNothing(d.fdsLabel, d.precision, GetValue(vals, d.idname), ff);
    }
  }

  /** An exported parameter is a single `LABEL=...` parameter when the class has a label. */
  lemma ExportedParamIsLabelled(d: Desc, vals: Values, ff: FloatText)
    requires !d.kind.Geometry? && d.fdsLabel != ""
    requires PropToFds(d, vals, ff).Ok? && PropToFds(d, vals, ff).value.param.Some?
    ensures PropToFds(d, vals, ff).value.param.value.Single?
    ensures StartsWith(PropToFds(d, vals, ff).value.param.value.text, d.fdsLabel + "=")
  {
    var t := PropToFds(d, vals, ff).value.param.value.text;
    if !d.kind.Plain? {
      assert t[..|d.fdsLabel + "="|] == d.fdsLabel + "=";
    }
  }

  /** BFNoAutoExportMod still checks: a failing check raises even though nothing is written. */
  lemma NoAutoExportStillChecks(d: Desc, vals: Values, ff: FloatText, m: string)
    requires d.kind == Plain([], Some(m)) && !d.autoExport && Exported(d, vals)
    ensures PropToFds(d, vals, ff) == Raised(BF(Simple(d.name, m)))
  {
  }

  // ---- BFProp.from_fds ----

  const ImportErrorMsg := "Error importing value"

  /** `BFProp.from_fds`: set the value (a refusal becomes a BFException naming
      the descriptor), then set the export flag (a refusal there propagates). */
  function PropFromFds(d: Desc, v: Value, vals: Values, accepts: Accepts): (r: Step)
  {
    match Assign(vals, accepts, d.idname, v)
    case None => Step(Some(BF(Simple(d.name, ImportErrorMsg))), vals)
    case Some(v1) =>
      match SetExported(d, v1, accepts, true)
      case None => Step(Some(Crash(HostRejected)), v1)
      case Some(v2) => Step(None, v2)
  }

  /** Importing a parameter the host accepts stores it and sets the export
      flag; when the host refuses it, nothing changes and the error names the
      descriptor. */
  lemma PropFromFdsEffect(d: Desc, v: Value, vals: Values, accepts: Accepts)
    requires d.idname != ""
    requires d.exportProp.Some? ==> d.exportProp.value.idname != d.idname
    ensures var st := PropFromFds(d, v, vals, accepts);
      (accepts(d.idname, v) ==> GetValue(st.values, d.idname) == Some(v)) &&
      (!accepts(d.idname, v) ==> st == Step(Some(BF(Simple(d.name, ImportErrorMsg))), vals)) &&
      (st.raised.None? && d.exportProp.Some? && d.exportProp.value.idname != "" ==>
        GetValue(st.values, d.exportProp.value.idname) == Some(Scalar(Bool(true))))
  {
  }

  // ---- BFNoAutoImportMod.from_fds ----

  /** The engine's call `from_fds(context, value)` on a class mixing in
      BFNoAutoImportMod, as written: that `from_fds(self, context)` takes no
      value, so the call raises a TypeError before anything is set. */
  function PropImportAsWritten(d: Desc, v: Value, vals: Values, accepts: Accepts): (r: Step)
  {
    if !d.autoImport then Step(Some(Crash("TypeError")), vals) else PropFromFds(d, v, vals, accepts)
  }

  /** The import the engine performs per managed token: a BFNoAutoImportMod
      class imports nothing (its import is managed elsewhere); any other
      class runs `BFProp.from_fds`. */
  function PropImport(d: Desc, v: Value, vals: Values, accepts: Accepts): (r: Step)
  {
    if !d.autoImport then Step(None, vals) else PropFromFds(d, v, vals, accepts)
  }

  /** As written, a managed token for a BFNoAutoImportMod class always fails
      with a TypeError; as intended it leaves the element untouched and
      reports nothing. Both agree on every other class. */
  lemma NoAutoImportAsWritten(d: Desc, v: Value, vals: Values, accepts: Accepts)
    ensures !d.autoImport ==> PropImportAsWritten(d, v, vals, accepts) == Step(Some(Crash("TypeError")), vals)
    ensures !d.autoImport ==> PropImport(d, v, vals, accepts) == Step(None, vals)
    ensures d.autoImport ==> PropImportAsWritten(d, v, vals, accepts) == PropImport(d, v, vals, accepts)
  {
  }
}
