/** What `BFNamelist.format` writes for a list of parameters: the info
    comment lines, then `&LABEL `, the parameters and the `/` terminator, once
    per alternative of a multiparam. */
module Records {
  import opened Options
  import opened Text
  import opened Values
  import opened Errors
  import opened Descriptors

  /** `"! {}\n".format(info)` */
  function InfoLine(info: Info): (r: string)
  {
    "! " + InfoText(info) + "\n"
  }

  function InfoLines(infos: seq<Info>): (r: string)
  {
    if |infos| == 0 then "" else InfoLines(infos[..|infos| - 1]) + InfoLine(infos[|infos| - 1])
  }

  predicate AllSingle(ps: seq<Param>)
  {
    forall i :: 0 <= i < |ps| ==> ps[i].Single?
  }

  function Texts(ps: seq<Param>): (r: seq<string>)
    requires AllSingle(ps)
    ensures |r| == |ps|
  {
    seq(|ps|, i requires 0 <= i < |ps| => ps[i].text)
  }

  /** `param[:3] == "ID="`: a list never equals a string. */
  predicate IsIdParam(p: Param)
  {
    p.Single? && StartsWith(p.text, "ID=")
  }

  /** Index of the first multiparam. */
  function FirstMulti(ps: seq<Param>): (r: Option<nat>)
    ensures r.Some? ==> r.value < |ps| && ps[r.value].Multi? && AllSingle(ps[..r.value])
    ensures r.None? ==> AllSingle(ps)
  {
    if |ps| == 0 then None
    else if ps[0].Multi? then Some(0)
    else
      var r := FirstMulti(ps[1..]);
      if r.Some? then
        assert ps[..r.value + 1] == [ps[0]] + ps[1..][..r.value];
        Some(r.value + 1)
      else None
  }

  /** Index of the first `ID=` parameter. */
  function FirstId(ps: seq<Param>): (r: Option<nat>)
    ensures r.Some? ==> (r.value < |ps| && IsIdParam(ps[r.value]) &&
      forall j :: 0 <= j < r.value ==> !IsIdParam(ps[j]))
    ensures r.None? ==> forall j :: 0 <= j < |ps| ==> !IsIdParam(ps[j])
  {
    if |ps| == 0 then None
    else if IsIdParam(ps[0]) then Some(0)
    else
      var r := FirstId(ps[1..]);
      if r.Some? then Some(r.value + 1) else None
  }

  function RemoveAt<T>(xs: seq<T>, i: nat): (r: seq<T>)
    requires i < |xs|
    ensures |r| == |xs| - 1
  {
    xs[..i] + xs[i + 1..]
  }

  /** `"".join(("&", label, " "))` */
  function Head(lbl: string): (r: string)
  {
    "&" + lbl + " "
  }

  /** One record per alternative: `&LABEL alt<sep><tail>`. */
  function Repeated(head: string, sep: string, tail: string, alts: seq<string>): (r: string)
  {
    Concat(seq(|alts|, i requires 0 <= i < |alts| => head + alts[i] + sep + tail))
  }

  /** `BFNamelist.format(context, params)` with `self.infos == infos`.
      Without a label of its own the namelist takes the first parameter as its
      label (`params.pop(0)`: an IndexError on no parameters, a TypeError when
      that parameter is a multiparam). The first multiparam and then the first
      `ID=` parameter are removed; a second multiparam reaches `str.join` and
      raises a TypeError. An empty multiparam is falsy and gives one record. */
  function Record(fdsLabel: string, sep: string, infos: seq<Info>, params: seq<Param>): (r: Outcome<string>)
  {
    if fdsLabel == "" && |params| == 0 then Raised(Crash("IndexError"))
    else if fdsLabel == "" && params[0].Multi? then Raised(Crash("TypeError"))
    else if fdsLabel != "" then Assemble(InfoLines(infos), Head(fdsLabel), sep, params)
    else Assemble(InfoLines(infos), Head(params[0].text), sep, params[1..])
  }

  /** The record once the label is known. */
  function Assemble(info: string, head: string, sep: string, params: seq<Param>): (r: Outcome<string>)
  {
    match FirstMulti(params)
    case None => Ok(info + head + Join(sep, Texts(params) + ["/\n"]))
    case Some(m) => Expand(info, head, sep, params[m].alts, RemoveAt(params, m))
  }

  /** The records of a multiparam `alts`, `others` being the other parameters. */
  function Expand(info: string, head: string, sep: string, alts: seq<string>, others: seq<Param>): (r: Outcome<string>)
  {
    var kept := match FirstId(others) case None => others case Some(k) => RemoveAt(others, k);
    if !AllSingle(kept) then Raised(Crash("TypeError"))
    else
      var tail := Join(sep, Texts(kept) + ["/\n"]);
      if |alts| == 0 then Ok(info + head + tail)
      else Ok(info + Repeated(head, sep, tail, alts))
  }

  lemma ObstScenario()
    ensures Record("OBST", " ", [], [Single("ID='x'"), Single("XB=0")])
      == Ok("&OBST ID='x' XB=0 /\n")
  {
    var ps := [Single("ID='x'"), Single("XB=0")];
    PlainRecordShape("OBST", " ", [], ps);
    assert Texts(ps) + ["/\n"] == ["ID='x'", "XB=0", "/\n"];
    ObstJoin();
  }

  lemma ObstJoin()
    ensures InfoLines([]) + Head("OBST") + Join(" ", ["ID='x'", "XB=0", "/\n"])
      == "&OBST ID='x' XB=0 /\n"
  {
    var ts := ["ID='x'", "XB=0", "/\n"];
    assert ts[1..][1..] == ["/\n"];
    var j1 := Join(" ", ts[1..][1..]);
    assert j1 == "/\n";
    var j2 := Join(" ", ts[1..]);
    assert j2 == "XB=0" + " " + j1;
    assert j2 == "XB=0 /\n";
    var j3 := Join(" ", ts);
    assert j3 == "ID='x'" + " " + j2;
    assert j3 == "ID='x' XB=0 /\n";
    assert InfoLines([]) + Head("OBST") == "&OBST ";
  }

  /** A record without multiparams: its info lines, `&LABEL `, every parameter
      in order separated by `fds_separator`, and the terminator. */
  lemma PlainRecordShape(fdsLabel: string, sep: string, infos: seq<Info>, params: seq<Param>)
    requires fdsLabel != "" && AllSingle(params)
    ensures Record(fdsLabel, sep, infos, params) ==
      Ok(InfoLines(infos) + Head(fdsLabel) + Join(sep, Texts(params) + ["/\n"]))
    ensures |params| > 0 ==> (Record(fdsLabel, sep, infos, params) ==
      Ok(InfoLines(infos) + Head(fdsLabel) + Join(sep, Texts(params)) + sep + "/\n"))
  {
    assert FirstMulti(params) == None;
    if |params| > 0 {
      var j := Join(sep, Texts(params));
      JoinSnoc(sep, Texts(params), "/\n");
      assert InfoLines(infos) + Head(fdsLabel) + (j + sep + "/\n") == InfoLines(infos) + Head(fdsLabel) + j + sep + "/\n";
    }
  }

  /** A free namelist (no `fds_label`) takes its first parameter as the label. */
  lemma FreeNamelistRecord(sep: string, infos: seq<Info>, first: string, params: seq<Param>)
    requires AllSingle(params)
    ensures Record("", sep, infos, [Single(first)] + params) ==
      Ok(InfoLines(infos) + Head(first) + Join(sep, Texts(params) + ["/\n"]))
  {
    assert ([Single(first)] + params)[1..] == params;
  }

  /** `format` needs a label: a free namelist with no parameters fails. */
  lemma FreeNamelistNeedsLabel(sep: string, infos: seq<Info>)
    ensures Record("", sep, infos, []) == Raised(Crash("IndexError"))
  {
  }

  /** The texts of the single parameters that are not `ID=` parameters, in order. */
  function NonIdTexts(ps: seq<Param>): (r: seq<string>)
  {
    if |ps| == 0 then []
    else (if ps[0].Single? && !IsIdParam(ps[0]) then [ps[0].text] else []) + NonIdTexts(ps[1..])
  }

  lemma {:induction false} NonIdTextsConcat(a: seq<Param>, b: seq<Param>)
    ensures NonIdTexts(a + b) == NonIdTexts(a) + NonIdTexts(b)
  {
    if |a| > 0 {
      assert (a + b)[1..] == a[1..] + b;
      NonIdTextsConcat(a[1..], b);
    } else {
      assert a + b == b;
    }
  }

  lemma {:induction false} NonIdTextsOfSingles(ps: seq<Param>)
    requires AllSingle(ps) && forall j :: 0 <= j < |ps| ==> !IsIdParam(ps[j])
    ensures NonIdTexts(ps) == Texts(ps)
  {
    if |ps| > 0 {
      NonIdTextsOfSingles(ps[1..]);
      assert Texts(ps) == [ps[0].text] + Texts(ps[1..]);
    }
  }

  lemma NonIdTextsSkip(p: Param, b: seq<Param>)
    requires p.Multi? || IsIdParam(p)
    ensures NonIdTexts([p] + b) == NonIdTexts(b)
  {
    assert ([p] + b)[1..] == b;
  }

  lemma NonIdTextsAround(ps: seq<Param>, i: nat)
    requires i < |ps| && (ps[i].Multi? || IsIdParam(ps[i]))
    ensures NonIdTexts(ps) == NonIdTexts(RemoveAt(ps, i))
  {
    var a, b := ps[..i], ps[i + 1..];
    assert ps == a + ([ps[i]] + b);
    NonIdTextsConcat(a, [ps[i]] + b);
    NonIdTextsSkip(ps[i], b);
    NonIdTextsConcat(a, b);
  }

  /** At most one `ID=` parameter. */
  predicate AtMostOneId(ps: seq<Param>)
  {
    forall j, k :: 0 <= j < k < |ps| && IsIdParam(ps[j]) ==> !IsIdParam(ps[k])
  }

  /** Removing the multiparam leaves single parameters with at most one `ID=`. */
  lemma OthersOfMulti(params: seq<Param>, m: nat)
    requires m < |params| && forall j :: 0 <= j < |params| && j != m ==> params[j].Single?
    requires AtMostOneId(params)
    ensures AllSingle(RemoveAt(params, m)) && AtMostOneId(RemoveAt(params, m))
  {
    var others := RemoveAt(params, m);
    forall j | 0 <= j < |others| ensures others[j] == params[if j < m then j else j + 1] {
      if j < m { assert others[j] == params[..m][j]; } else { assert others[j] == params[m + 1..][j - m]; }
    }
  }

  /** Removing the only `ID=` parameter leaves none. */
  lemma KeptOfId(others: seq<Param>, k: nat)
    requires AllSingle(others) && AtMostOneId(others)
    requires k < |others| && IsIdParam(others[k])
    ensures AllSingle(RemoveAt(others, k))
    ensures forall j :: 0 <= j < |others| - 1 ==> !IsIdParam(RemoveAt(others, k)[j])
  {
    var kept := RemoveAt(others, k);
    forall j | 0 <= j < |kept| ensures kept[j] == others[if j < k then j else j + 1] {
      if j < k { assert kept[j] == others[..k][j]; } else { assert kept[j] == others[k + 1..][j - k]; }
    }
  }

  /** Multiparam expansion: with one multiparam of n > 0 alternatives and at
      most one `ID=` parameter, `format` writes exactly n records, in the
      order of the alternatives; each is `&LABEL alt`, then the same other
      parameters, without the `ID=` one, then the terminator. */
  lemma MultiparamExpansion(fdsLabel: string, sep: string, infos: seq<Info>, params: seq<Param>, m: nat)
    requires fdsLabel != ""
    requires m < |params| && params[m].Multi? && |params[m].alts| > 0
    requires forall j :: 0 <= j < |params| && j != m ==> params[j].Single?
    requires AtMostOneId(params)
    ensures Record(fdsLabel, sep, infos, params) ==
      Ok(InfoLines(infos) + Repeated(Head(fdsLabel), sep, Join(sep, NonIdTexts(params) + ["/\n"]), params[m].alts))
  {
    assert FirstMulti(params) == Some(m);
    var others := RemoveAt(params, m);
    OthersOfMulti(params, m);
    NonIdTextsAround(params, m);
    match FirstId(others) {
      case None =>
        NonIdTextsOfSingles(others);
      case Some(k) =>
        KeptOfId(others, k);
        NonIdTextsAround(others, k);
        NonIdTextsOfSingles(RemoveAt(others, k));
    }
  }

  /** Two multiparams cannot be written: the second one reaches `str.join`. */
  lemma SecondMultiparamFails(fdsLabel: string, sep: string, infos: seq<Info>, a: seq<string>, b: seq<string>)
    requires fdsLabel != ""
    ensures Record(fdsLabel, sep, infos, [Multi(a), Multi(b)]) == Raised(Crash("TypeError"))
  {
    var ps := [Multi(a), Multi(b)];
    assert RemoveAt(ps, 0) == [Multi(b)];
  }
}
