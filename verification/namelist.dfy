/** A BFNamelist instance bound to an element: the methods that build its
    record, export it and import tokens into the element, step by step,
    each proved to do what the functions of Records, Exporting and Importing
    describe. */
module Namelists {
  import opened Options
  import opened Text
  import opened Values
  import opened Errors
  import opened Descriptors
  import opened Props
  import opened Records
  import opened Exporting
  import opened Importing
  import opened Host

  /** The step a `set_exported` takes, as a result and the values after it. */
  function ExportedStep(d: Desc, vals: Values, accepts: Accepts, b: bool): (r: Step)
  {
    match SetExported(d, vals, accepts, b)
    case None => Step(Some(Crash(HostRejected)), vals)
    case Some(v) => Step(None, v)
  }

  /** `_BFCommon.set_exported` on an element. */
  method SetExportedOn(e: Element, d: Desc, b: bool) returns (raised: Option<Exc>)
    modifies e
    ensures Step(raised, e.values) == ExportedStep(d, old(e.values), e.accepts, b)
  {
    raised := None;
    if d.exportProp.Some? {
      raised := e.SetValue(d.exportProp.value.idname, Scalar(Bool(b)));
    }
  }

  /** `bf_prop_cls(element).from_fds(context, value)` */
  method ImportProp(e: Element, d: Desc, v: Value) returns (raised: Option<Exc>)
    modifies e
    ensures Step(raised, e.values) == PropImport(d, v, old(e.values), e.accepts)
  {
    if !d.autoImport {
      return None;
    }
    raised := e.SetValue(d.idname, v);
    if raised.Some? {
      return Some(BF(Simple(d.name, ImportErrorMsg)));
    }
    raised := SetExportedOn(e, d, true);
  }

  /** `set_default_value` on an element. */
  method SetDefaultValue(e: Element, d: Desc) returns (raised: Option<Exc>)
    modifies e
    ensures Step(raised, e.values) == DefaultStep(d, old(e.values), e.accepts)
  {
    raised := None;
    if d.displayDefault.Some? {
      raised := e.SetValue(d.idname, d.displayDefault.value);
    }
  }

  class Namelist {
    const desc: Desc
    /** The class's `all_bf_props`, as `subscribe` built it. */
    const allProps: seq<Desc>
    const element: Element
    var infos: seq<Info>

    constructor (desc: Desc, allProps: seq<Desc>, element: Element)
      ensures this.desc == desc && this.allProps == allProps && this.element == element
      ensures infos == []
    {
      this.desc := desc;
      this.allProps := allProps;
      this.element := element;
      infos := [];
    }

    /** `BFNamelist.format(context, params)`, on its own copy of `params`. */
    method Format(params0: seq<Param>) returns (r: Outcome<string>)
      ensures r == Record(desc.fdsLabel, desc.fdsSeparator, infos, params0)
    {
      var params := params0;
      var lbl := desc.fdsLabel;
      if lbl == "" {
        if |params| == 0 {
          return Raised(Crash("IndexError"));
        }
        if params[0].Multi? {
          return Raised(Crash("TypeError"));
        }
        lbl := params[0].text;
        params := params[1..];
      }
      var info := "";
      var i := 0;
      while i < |infos|
        invariant 0 <= i <= |infos|
        invariant info == InfoLines(infos[..i])
      {
        assert infos[..i + 1][..i] == infos[..i];
        info := info + InfoLine(infos[i]);
        i := i + 1;
      }
      assert infos[..i] == infos;
      assert Record(desc.fdsLabel, desc.fdsSeparator, infos, params0) == Assemble(info, Head(lbl), desc.fdsSeparator, params);
      r := AssembleRecord(info, Head(lbl), desc.fdsSeparator, params);
    }

    /** `BFNamelist.to_fds(context)`: the record, and the infos of the
        namelist's check and of the children that returned. */
    method ToFds(ff: FloatText) returns (r: Outcome<Option<string>>)
      modifies this
      ensures Export(r, infos) == NamelistToFds(desc, element.values, old(infos), ff)
    {
      var vals := element.values;
      if !Exported(desc, vals) {
        return Ok(None);
      }
      var own := Check(desc, vals);
      if own.Raised? {
        return Raised(own.exc);
      }
      infos := infos + own.value;
      if !desc.autoExport {
        return Ok(None);
      }
      var c := CollectChildren(Outs(desc.props, vals, ff));
      if c.crash.Some? {
        return Raised(c.crash.value);
      }
      if |c.errors| > 0 {
        return Raised(BF(BFError(desc.name, FollowingErrors, c.errors, [])));
      }
      var s := Format(c.params);
      if s.Raised? {
        return Raised(s.exc);
      }
      r := Ok(Some(s.value));
    }

    /** The loop of `to_fds` over `bf_props`, given what each child's
        `to_fds` returns (`outs`, in declared order; those calls read the
        element and change nothing, so they can be made first): a
        BFException is kept and the loop goes on; any other error leaves it. */
    method CollectChildren(outs: seq<Outcome<PropExport>>) returns (c: Collected)
      modifies this
      ensures c == Gather(outs)
      ensures infos == old(infos) + c.infos
    {
      c := Nothing;
      var i := 0;
      while i < |outs|
        invariant 0 <= i <= |outs|
        invariant Gather(outs[..i]) == c && c.crash.None?
        invariant infos == old(infos) + c.infos
      {
        assert outs[..i + 1][..i] == outs[..i];
        c := VisitChild(outs[i], c);
        if c.crash.Some? {
          GatherCrashStops(outs, i + 1);
          return;
        }
        i := i + 1;
      }
      assert outs[..i] == outs;
    }

    /** One pass of that loop: the error kept on a BFException, else the
        parameter if non-empty and the child's infos. */
    method VisitChild(out: Outcome<PropExport>, x: Collected) returns (y: Collected)
      requires x.crash.None?
      modifies this
      ensures y == Then(x, PieceOf(out))
      ensures infos == old(infos) + PieceOf(out).infos
    {
      ThenPiece(x, out);
      if out.Raised? {
        if out.exc.Crash? {
          return Collected(x.params, x.errors, x.infos, Some(out.exc));
        }
        return Collected(x.params, x.errors + [out.exc], x.infos, None);
      }
      var params := x.params;
      if out.value.param.Some? && NonEmpty(out.value.param.value) {
        params := params + [out.value.param.value];
      }
      infos := infos + out.value.infos;
      y := Collected(params, x.errors, x.infos + out.value.infos, None);
    }

    /** `set_default`: the namelist's displayed default, then those of its
        `all_bf_props`, in order. */
    method SetDefault() returns (raised: Option<Exc>)
      modifies element
      ensures Step(raised, element.values) == Defaults([desc] + allProps, old(element.values), element.accepts)
    {
      var ds := [desc] + allProps;
      ghost var v0 := element.values;
      raised := None;
      var i := 0;
      while i < |ds|
        invariant 0 <= i <= |ds|
        invariant Defaults(ds[..i], v0, element.accepts) == Step(None, element.values)
        invariant raised.None?
      {
        assert ds[..i + 1][..i] == ds[..i];
        raised := SetDefaultValue(element, ds[i]);
        if raised.Some? {
          DefaultsStop(ds, i + 1, v0, element.accepts);
          return;
        }
        i := i + 1;
      }
      assert ds[..i] == ds;
    }

    /** `BFNamelist.from_fds(context, tokens)` */
    method FromFds(tokens: seq<ParamToken>) returns (raised: Option<Exc>)
      modifies element
      ensures Step(raised, element.values) ==
        NamelistFromFds(desc, allProps, tokens, old(element.values), element.accepts)
    {
      if |tokens| == 0 || !desc.autoImport {
        return None;
      }
      if desc.hostType == SceneType {
        raised := SetDefault();
        if raised.Some? {
          return;
        }
      }
      var freeTexts, errors := ImportTokensInto(ParamOrder(tokens));
      raised := Conclude(freeTexts, errors);
    }

    /** The loop `for fds_label in sorted(...)`: a managed token is imported
        into the element, its error kept; an unmanaged one becomes `LABEL=value`. */
    method ImportTokensInto(ordered: seq<ParamToken>) returns (freeTexts: seq<string>, errors: seq<Exc>)
      modifies element
      ensures ImportTokens(allProps, ordered, old(element.values), element.accepts) ==
        ImportState(element.values, freeTexts, errors)
    {
      ghost var v1 := element.values;
      freeTexts, errors := [], [];
      var i := 0;
      while i < |ordered|
        invariant 0 <= i <= |ordered|
        invariant ImportTokens(allProps, ordered[..i], v1, element.accepts) == ImportState(element.values, freeTexts, errors)
      {
        var t := ordered[i];
        assert ordered[..i + 1][..i] == ordered[..i];
        var p := FindByLabel(allProps, t.fdsLabel);
        if p.Some? {
          var e := ImportProp(element, p.value, t.value);
          if e.Some? {
            errors := errors + [e.value];
          }
        } else {
          freeTexts := freeTexts + [t.fdsLabel + "=" + t.original];
        }
        i := i + 1;
      }
      assert ordered[..i] == ordered;
    }

    /** The end of `from_fds`: free text, compound error, export flag. */
    method Conclude(freeTexts: seq<string>, errors: seq<Exc>) returns (raised: Option<Exc>)
      modifies element
      ensures Step(raised, element.values) ==
        Finish(desc, ImportState(old(element.values), freeTexts, errors), element.accepts)
    {
      var free := FreeProp(desc);
      if |freeTexts| > 0 && free.Some? {
        raised := element.SetValue(free.value.idname, Scalar(Str(Join(" ", freeTexts))));
        if raised.Some? {
          return;
        }
      }
      if |errors| > 0 {
        return Some(BF(BFError(desc.name, FollowingErrors, errors, [])));
      }
      raised := SetExportedOn(element, desc, true);
    }
  }

  /** The rest of `BFNamelist.format`: the multiparam, the `ID=` parameter
      and the `/` terminator, with `params` worked on in place. */
  method AssembleRecord(info: string, head: string, sep: string, params0: seq<Param>) returns (r: Outcome<string>)
    ensures r == Assemble(info, head, sep, params0)
  {
    var params := params0;
    var m := FindMulti(params);
    if m == |params| {
      return Ok(info + head + Join(sep, Texts(params) + ["/\n"]));
    }
    var alts := params[m].alts;
    params := RemoveAt(params, m);
    var k := FindId(params);
    if k < |params| {
      params := RemoveAt(params, k);
    }
    if !AllSingle(params) {
      return Raised(Crash("TypeError"));
    }
    params := params + [Single("/\n")];
    var tail := Join(sep, Texts(params));
    assert Texts(params) == Texts(params[..|params| - 1]) + ["/\n"];
    if |alts| == 0 {
      r := Ok(info + head + tail);
    } else {
      r := Ok(info + Repeated(head, sep, tail, alts));
    }
  }

  /** `for param in params: if is_iterable(param)`: the position of the first
      multiparam, or the length when there is none. */
  method FindMulti(params: seq<Param>) returns (m: nat)
    ensures m <= |params|
    ensures FirstMulti(params) == if m == |params| then None else Some(m)
  {
    m := 0;
    while m < |params| && params[m].Single?
      invariant 0 <= m <= |params|
      invariant AllSingle(params[..m])
    {
      assert params[..m + 1] == params[..m] + [params[m]];
      m := m + 1;
    }
    FirstMultiAt(params, m);
  }

  /** `for param in params: if param[:3] == "ID="`: the position of the first
      `ID=` parameter, or the length when there is none. */
  method FindId(params: seq<Param>) returns (k: nat)
    ensures k <= |params|
    ensures FirstId(params) == if k == |params| then None else Some(k)
  {
    k := 0;
    while k < |params| && !IsIdParam(params[k])
      invariant 0 <= k <= |params|
      invariant forall j :: 0 <= j < k ==> !IsIdParam(params[j])
    {
      k := k + 1;
    }
    FirstIdAt(params, k);
  }

  lemma ThenPiece(x: Collected, out: Outcome<PropExport>)
    requires x.crash.None?
    ensures out.Raised? && out.exc.BF? ==>
      Then(x, PieceOf(out)) == Collected(x.params, x.errors + [out.exc], x.infos, None)
    ensures out.Ok? ==>
      Then(x, PieceOf(out)) == Collected(
        x.params + (if out.value.param.Some? && NonEmpty(out.value.param.value) then [out.value.param.value] else []),
        x.errors, x.infos + out.value.infos, None)
  {
    assert x.params + [] == x.params;
    assert x.infos + [] == x.infos;
    assert x.errors + [] == x.errors;
  }

  lemma {:induction false} FirstMultiAt(ps: seq<Param>, m: nat)
    requires m <= |ps| && AllSingle(ps[..m]) && (m < |ps| ==> ps[m].Multi?)
    ensures FirstMulti(ps) == if m == |ps| then None else Some(m)
  {
    if m == |ps| {
      assert ps[..m] == ps;
    } else if m > 0 {
      assert ps[1..][..m - 1] == ps[..m][1..];
      FirstMultiAt(ps[1..], m - 1);
      assert ps[..m][0] == ps[0];
    }
  }

  lemma {:induction false} FirstIdAt(ps: seq<Param>, k: nat)
    requires k <= |ps| && (forall j :: 0 <= j < k ==> !IsIdParam(ps[j])) && (k < |ps| ==> IsIdParam(ps[k]))
    ensures FirstId(ps) == if k == |ps| then None else Some(k)
  {
    if k > 0 {
      FirstIdAt(ps[1..], k - 1);
    }
  }

  lemma {:induction false} DefaultsStop(ds: seq<Desc>, i: nat, vals: Values, accepts: Accepts)
    requires i <= |ds| && Defaults(ds[..i], vals, accepts).raised.Some?
    ensures Defaults(ds, vals, accepts) == Defaults(ds[..i], vals, accepts)
    decreases |ds| - i
  {
    if i < |ds| {
      assert ds[..i + 1][..i] == ds[..i];
      DefaultsStop(ds, i + 1, vals, accepts);
    } else {
      assert ds[..i] == ds;
    }
  }
}
