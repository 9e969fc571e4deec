/** `BFNamelist.to_fds` as a function of the element: the namelist's own
    export test and check, the loop over its children that keeps going past
    their errors, and the record `format` builds from what they returned. */
module Exporting {
  import opened Options
  import opened Text
  import opened Values
  import opened Errors
  import opened Descriptors
  import opened Props
  import opened Records

  /** What the loop over the children has gathered so far. A `crash` (an
      error that is not a BFException) ends the loop and leaves `to_fds`. */
  datatype Collected = Collected(params: seq<Param>, errors: seq<Exc>, infos: seq<Info>, crash: Option<Exc>)

  const Nothing := Collected([], [], [], None)

  /** `if param:` */
  predicate NonEmpty(p: Param)
  {
    if p.Single? then p.text != "" else |p.alts| > 0
  }

  /** One child's part: its error, or its non-empty parameter and its infos. */
  function PieceOf(out: Outcome<PropExport>): (r: Collected)
  {
    match out
    case Raised(BF(e)) => Collected([], [BF(e)], [], None)
    case Raised(Crash(c)) => Collected([], [], [], Some(Crash(c)))
    case Ok(pe) =>
      Collected(if pe.param.Some? && NonEmpty(pe.param.value) then [pe.param.value] else [], [], pe.infos, None)
  }

  /** `x` followed by `y`, unless `x` already stopped the loop. */
  function Then(x: Collected, y: Collected): (r: Collected)
  {
    if x.crash.Some? then x
    else Collected(x.params + y.params, x.errors + y.errors, x.infos + y.infos, y.crash)
  }

  /** What each child's `to_fds` returns, in declared order. */
  function Outs(ps: seq<Desc>, vals: Values, ff: FloatText): (r: seq<Outcome<PropExport>>)
    ensures |r| == |ps|
    ensures forall i :: 0 <= i < |ps| ==> r[i] == PropToFds(ps[i], vals, ff)
  {
    seq(|ps|, i requires 0 <= i < |ps| => PropToFds(ps[i], vals, ff))
  }

  /** The loop over what the children returned. */
  function Gather(outs: seq<Outcome<PropExport>>): (r: Collected)
  {
    if |outs| == 0 then Nothing
    else Then(Gather(outs[..|outs| - 1]), PieceOf(outs[|outs| - 1]))
  }

  /** The loop `for bf_prop in self.bf_props` of `BFNamelist.to_fds`. */
  function Collect(ps: seq<Desc>, vals: Values, ff: FloatText): (r: Collected)
  {
    Gather(Outs(ps, vals, ff))
  }

  lemma ThenAssociates(x: Collected, y: Collected, z: Collected)
    ensures Then(Then(x, y), z) == Then(x, Then(y, z))
  {
  }

  /** The loop visits the children in declared order: what a list of children
      gathers is what its first part gathers, followed by what the rest does. */
  lemma {:induction false} GatherConcat(a: seq<Outcome<PropExport>>, b: seq<Outcome<PropExport>>)
    ensures Gather(a + b) == Then(Gather(a), Gather(b))
    decreases |b|
  {
    if |b| == 0 {
      assert a + b == a;
    } else {
      var n := |b| - 1;
      assert (a + b)[..|a + b| - 1] == a + b[..n];
      assert (a + b)[|a + b| - 1] == b[n];
      GatherConcat(a, b[..n]);
      ThenAssociates(Gather(a), Gather(b[..n]), PieceOf(b[n]));
    }
  }

  lemma GatherOne(out: Outcome<PropExport>)
    ensures Gather([out]) == PieceOf(out)
  {
    assert [out][..0] == [];
  }

  lemma ThenError(x: Collected, pc: Collected, y: Collected, err: Exc)
    requires x.crash.None? && pc == Collected([], [err], [], None)
    ensures Then(Then(x, pc), y).params == x.params + y.params
    ensures Then(Then(x, pc), y).infos == x.infos + y.infos
    ensures Then(Then(x, pc), y).errors == x.errors + [err] + y.errors
  {
    assert x.params + [] == x.params;
    assert x.infos + [] == x.infos;
  }

  /** An outcome that is a BFException adds that error and nothing else. */
  lemma GatherAroundError(a: seq<Outcome<PropExport>>, e: BFError, b: seq<Outcome<PropExport>>)
    requires Gather(a).crash.None?
    ensures Gather(a + [Raised(BF(e))] + b).params == Gather(a).params + Gather(b).params
    ensures Gather(a + [Raised(BF(e))] + b).infos == Gather(a).infos + Gather(b).infos
    ensures Gather(a + [Raised(BF(e))] + b).errors == Gather(a).errors + [BF(e)] + Gather(b).errors
  {
    var out: Outcome<PropExport> := Raised(BF(e));
    GatherOne(out);
    GatherConcat(a, [out]);
    GatherConcat(a + [out], b);
    ThenError(Gather(a), PieceOf(out), Gather(b), BF(e));
  }

  /** A child that raises a BFException adds its error and nothing else: no
      parameter and none of its infos, and the children after it still run. */
  lemma RaisingChildAddsOnlyItsError(a: seq<Desc>, p: Desc, b: seq<Desc>, vals: Values, ff: FloatText, e: BFError)
    requires PropToFds(p, vals, ff) == Raised(BF(e))
    requires Collect(a, vals, ff).crash.None?
    ensures Collect(a + [p] + b, vals, ff).params == Collect(a, vals, ff).params + Collect(b, vals, ff).params
    ensures Collect(a + [p] + b, vals, ff).infos == Collect(a, vals, ff).infos + Collect(b, vals, ff).infos
    ensures Collect(a + [p] + b, vals, ff).errors ==
      Collect(a, vals, ff).errors + [BF(e)] + Collect(b, vals, ff).errors
  {
    var oa, ob := Outs(a, vals, ff), Outs(b, vals, ff);
    assert Outs(a + [p] + b, vals, ff) == oa + [Raised(BF(e))] + ob;
    GatherAroundError(oa, e, ob);
  }

  lemma GatherCrashStops(outs: seq<Outcome<PropExport>>, i: nat)
    requires i <= |outs| && Gather(outs[..i]).crash.Some?
    ensures Gather(outs) == Gather(outs[..i])
  {
    assert outs == outs[..i] + outs[i..];
    GatherConcat(outs[..i], outs[i..]);
  }

  /** Once an error that is not a BFException has occurred, nothing after it counts. */
  lemma CrashStops(ps: seq<Desc>, i: nat, vals: Values, ff: FloatText)
    requires i <= |ps| && Collect(ps[..i], vals, ff).crash.Some?
    ensures Collect(ps, vals, ff) == Collect(ps[..i], vals, ff)
  {
    assert Outs(ps[..i], vals, ff) == Outs(ps, vals, ff)[..i];
    GatherCrashStops(Outs(ps, vals, ff), i);
  }

  /** One child's part holds its BFException, and no crash unless it raised one. */
  lemma PieceOfFacts(out: Outcome<PropExport>)
    ensures PieceOf(out).crash.None? <==> !(out.Raised? && out.exc.Crash?)
    ensures PieceOf(out).crash.None? ==> forall e :: e in PieceOf(out).errors <==> out == Raised(e)
  {
  }

  /** Without a crash, the errors gathered are exactly the BFExceptions returned. */
  lemma {:induction false} GatheredErrors(outs: seq<Outcome<PropExport>>)
    requires Gather(outs).crash.None?
    ensures forall e :: e in Gather(outs).errors <==> exists i :: 0 <= i < |outs| && outs[i] == Raised(e)
    ensures forall i :: 0 <= i < |outs| ==> !(outs[i].Raised? && outs[i].exc.Crash?)
  {
    if |outs| > 0 {
      var n := |outs| - 1;
      var init := outs[..n];
      var x := Gather(init);
      assert x.crash.None?;
      PieceOfFacts(outs[n]);
      GatheredErrors(init);
      assert Gather(outs).errors == x.errors + PieceOf(outs[n]).errors;
      forall e ensures e in Gather(outs).errors <==> exists i :: 0 <= i < |outs| && outs[i] == Raised(e)
      {
        if e in x.errors {
          var i :| 0 <= i < |init| && init[i] == Raised(e);
          assert outs[i] == init[i];
        }
        if exists i :: 0 <= i < |outs| && outs[i] == Raised(e) {
          var i :| 0 <= i < |outs| && outs[i] == Raised(e);
          if i < n {
            assert init[i] == outs[i];
          }
        }
      }
      forall i | 0 <= i < n
        ensures !(outs[i].Raised? && outs[i].exc.Crash?)
      {
        assert init[i] == outs[i];
      }
    }
  }

  /** The BFExceptions the children raise, one per raising child, in
      declared order. */
  function BFErrorsOf(ps: seq<Desc>, vals: Values, ff: FloatText): (r: seq<Exc>)
  {
    if |ps| == 0 then []
    else
      var out := PropToFds(ps[0], vals, ff);
      (if out.Raised? && out.exc.BF? then [out.exc] else []) + BFErrorsOf(ps[1..], vals, ff)
  }

  /** When no child crashed, the loop has appended each raised BFException
      once, in the order of the children. */
  lemma {:induction false} CollectErrorsInOrder(ps: seq<Desc>, vals: Values, ff: FloatText)
    requires Collect(ps, vals, ff).crash.None?
    ensures Collect(ps, vals, ff).errors == BFErrorsOf(ps, vals, ff)
  {
    if |ps| > 0 {
      var outs := Outs(ps, vals, ff);
      var rest := Outs(ps[1..], vals, ff);
      assert outs == [outs[0]] + rest;
      GatherConcat([outs[0]], rest);
      GatherOne(outs[0]);
      CollectErrorsInOrder(ps[1..], vals, ff);
    }
  }

  /** When no child crashed, the compound error holds exactly the children's
      BFExceptions, in order. */
  lemma ErrorsAreTheChildrens(ps: seq<Desc>, vals: Values, ff: FloatText)
    requires Collect(ps, vals, ff).crash.None?
    ensures Collect(ps, vals, ff).errors == BFErrorsOf(ps, vals, ff)
    ensures forall e :: e in Collect(ps, vals, ff).errors <==>
      exists i :: 0 <= i < |ps| && PropToFds(ps[i], vals, ff) == Raised(e)
    ensures forall i :: 0 <= i < |ps| ==> !(PropToFds(ps[i], vals, ff).Raised? && PropToFds(ps[i], vals, ff).exc.Crash?)
  {
    GatheredErrors(Outs(ps, vals, ff));
    CollectErrorsInOrder(ps, vals, ff);
  }

  /** The result of `to_fds`, and the namelist's infos afterwards. */
  datatype Export = Export(result: Outcome<Option<string>>, infos: seq<Info>)

  /** `BFNamelist.to_fds`, and `BFNoAutoExportMod.to_fds` on a namelist whose
      `autoExport` is false: nothing when not exported; the namelist's own
      check; then every child, gathering parameters, infos and errors; one
      compound error when a child raised; otherwise the record. */
  function NamelistToFds(d: Desc, vals: Values, infos0: seq<Info>, ff: FloatText): (r: Export)
  {
    if !Exported(d, vals) then Export(Ok(None), infos0)
    else
      match Check(d, vals)
      case Raised(e) => Export(Raised(e), infos0)
      case Ok(own) =>
        if !d.autoExport then Export(Ok(None), infos0 + own)
        else
          var c := Collect(d.props, vals, ff);
          var infos1 := infos0 + own + c.infos;
          if c.crash.Some? then Export(Raised(c.crash.value), infos1)
          else if |c.errors| > 0 then Export(Raised(BF(BFError(d.name, FollowingErrors, c.errors, []))), infos1)
          else
            match Record(d.fdsLabel, d.fdsSeparator, infos1, c.params)
            case Raised(e) => Export(Raised(e), infos1)
            case Ok(s) => Export(Ok(Some(s)), infos1)
  }

  /** `to_fds` returns None exactly when the namelist is not exported, or
      when it does not export itself (BFNoAutoExportMod) and its check passes;
      an exported namelist that writes itself returns a record or raises. */
  lemma NamelistNothingIff(d: Desc, vals: Values, infos0: seq<Info>, ff: FloatText)
    ensures NamelistToFds(d, vals, infos0, ff).result == Ok(None) <==>
      (!Exported(d, vals) || (Check(d, vals).Ok? && !d.autoExport))
    ensures !Exported(d, vals) ==> NamelistToFds(d, vals, infos0, ff) == Export(Ok(None), infos0)
  {
  }

  /** A child's BFException does not stop the export: every child runs, the
      infos of all children that returned are kept, and the namelist raises
      one compound error whose causes are exactly its children's errors, in
      the order of the children. */
  lemma NamelistAggregatesErrors(d: Desc, vals: Values, infos0: seq<Info>, ff: FloatText, k: nat)
    requires Exported(d, vals) && Check(d, vals).Ok? && d.autoExport
    requires k < |d.props| && PropToFds(d.props[k], vals, ff).Raised? && PropToFds(d.props[k], vals, ff).exc.BF?
    requires Collect(d.props, vals, ff).crash.None?
    ensures var x := NamelistToFds(d, vals, infos0, ff);
      x.result.Raised? && x.result.exc.BF? &&
      x.result.exc.error.sender == d.name && x.result.exc.error.msg == FollowingErrors &&
      x.result.exc.error.causes == BFErrorsOf(d.props, vals, ff) &&
      (forall e :: e in x.result.exc.error.causes <==>
        exists i :: 0 <= i < |d.props| && PropToFds(d.props[i], vals, ff) == Raised(e)) &&
      x.infos == infos0 + Check(d, vals).value + Collect(d.props[..k], vals, ff).infos +
        Collect(d.props[k + 1..], vals, ff).infos
  {
    CollectAroundError(d.props, k, vals, ff);
    CollectErrorsInOrder(d.props, vals, ff);
  }

  /** What the children gather around one child that raised a BFException. */
  lemma CollectAroundError(ps: seq<Desc>, k: nat, vals: Values, ff: FloatText)
    requires k < |ps| && PropToFds(ps[k], vals, ff).Raised? && PropToFds(ps[k], vals, ff).exc.BF?
    requires Collect(ps, vals, ff).crash.None?
    ensures |Collect(ps, vals, ff).errors| > 0
    ensures Collect(ps, vals, ff).infos == Collect(ps[..k], vals, ff).infos + Collect(ps[k + 1..], vals, ff).infos
    ensures forall e :: e in Collect(ps, vals, ff).errors <==>
      exists i :: 0 <= i < |ps| && PropToFds(ps[i], vals, ff) == Raised(e)
  {
    var outs := Outs(ps, vals, ff);
    var a, b := outs[..k], outs[k + 1..];
    assert outs == a + [outs[k]] + b;
    if Gather(a).crash.Some? {
      GatherCrashStops(outs, k);
    }
    GatherAroundError(a, outs[k].exc.error, b);
    assert Outs(ps[..k], vals, ff) == a;
    assert Outs(ps[k + 1..], vals, ff) == b;
    GatheredErrors(outs);
  }

  /** A namelist with a label whose exported children all return single
      parameters writes one record: its infos, `&LABEL `, the parameters in
      declared order and the terminator. */
  lemma NamelistPlainRecord(d: Desc, vals: Values, infos0: seq<Info>, ff: FloatText)
    requires Exported(d, vals) && Check(d, vals).Ok? && d.autoExport && d.fdsLabel != ""
    requires Collect(d.props, vals, ff).crash.None? && Collect(d.props, vals, ff).errors == []
    requires AllSingle(Collect(d.props, vals, ff).params)
    ensures var c := Collect(d.props, vals, ff);
      var infos1 := infos0 + Check(d, vals).value + c.infos;
      NamelistToFds(d, vals, infos0, ff) ==
        Export(Ok(Some(InfoLines(infos1) + Head(d.fdsLabel) + Join(d.fdsSeparator, Texts(c.params) + ["/\n"]))), infos1)
  {
    var c := Collect(d.props, vals, ff);
    PlainRecordShape(d.fdsLabel, d.fdsSeparator, infos0 + Check(d, vals).value + c.infos, c.params);
  }
}
