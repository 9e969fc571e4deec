/** `BFNamelist.from_fds` as a function of the element's values: the reset
    to defaults of scene namelists, the tokens in import order, each sent to
    the managed descriptor with that label or kept as free text, the free
    text stored, and the compound error or the export flag at the end. */
module Importing {
  import opened Options
  import opened Text
  import opened Values
  import opened Errors
  import opened Descriptors
  import opened Props
  import opened Order

  /** One entry of the tokens dict: the label, the value to set and the text
      it came from. The sequence keeps the dict's insertion order. */
  datatype ParamToken = ParamToken(fdsLabel: string, value: Value, original: string)

  /** The sort key `k == "SURF_ID"`: the boundary reference needs the geometry first. */
  function IsSurfId(t: ParamToken): (r: bool)
  {
    t.fdsLabel == "SURF_ID"
  }

  function ParamOrder(ts: seq<ParamToken>): (r: seq<ParamToken>)
  {
    FalseFirst(ts, IsSurfId)
  }

  /** Every token is imported once; SURF_ID comes after every other label,
      and the other labels keep their order. */
  lemma ParamOrderFacts(ts: seq<ParamToken>)
    ensures multiset(ParamOrder(ts)) == multiset(ts)
    ensures forall i, j :: 0 <= i < j < |ParamOrder(ts)| && ParamOrder(ts)[i].fdsLabel == "SURF_ID" ==>
      ParamOrder(ts)[j].fdsLabel == "SURF_ID"
    ensures Where(ParamOrder(ts), IsSurfId, false) == Where(ts, IsSurfId, false)
  {
    FalseFirstPermutes(ts, IsSurfId);
    FalseFirstOrders(ts, IsSurfId);
    FalseFirstStable(ts, IsSurfId, false);
  }

  // ---- set_default ----

  /** `set_default_value`: the displayed default, when there is one, is set. */
  function DefaultStep(d: Desc, vals: Values, accepts: Accepts): (r: Step)
  {
    if d.displayDefault.None? then Step(None, vals)
    else
      match Assign(vals, accepts, d.idname, d.displayDefault.value)
      case None => Step(Some(Crash(HostRejected)), vals)
      case Some(v) => Step(None, v)
  }

  /** `set_default`: `ds` is the namelist followed by its `all_bf_props`; a
      refusal of the host ends it. */
  function Defaults(ds: seq<Desc>, vals: Values, accepts: Accepts): (r: Step)
    ensures r.raised.Some? ==> r.raised == Some(Crash(HostRejected))
  {
    if |ds| == 0 then Step(None, vals)
    else
      var st := Defaults(ds[..|ds| - 1], vals, accepts);
      if st.raised.Some? then st else DefaultStep(ds[|ds| - 1], st.values, accepts)
  }

  /** After a complete reset each descriptor with an idname and a displayed
      default holds it, unless a later one shares its idname. */
  lemma {:induction false} DefaultsSet(ds: seq<Desc>, vals: Values, accepts: Accepts, i: nat)
    requires i < |ds| && Defaults(ds, vals, accepts).raised.None?
    requires ds[i].idname != "" && ds[i].displayDefault.Some?
    requires forall j :: i < j < |ds| ==> ds[j].idname != ds[i].idname
    ensures GetValue(Defaults(ds, vals, accepts).values, ds[i].idname) == ds[i].displayDefault
  {
    var n := |ds| - 1;
    var st := Defaults(ds[..n], vals, accepts);
    if i < n {
      DefaultsSet(ds[..n], vals, accepts, i);
    }
  }

  // ---- the token loop ----

  datatype ImportState = ImportState(values: Values, freeTexts: seq<string>, errors: seq<Exc>)

  /** One token: a managed label is imported, where every error is caught
      (`except Exception`); an unmanaged one becomes `label=original`. */
  function TokenStep(allProps: seq<Desc>, t: ParamToken, s: ImportState, accepts: Accepts): (r: ImportState)
  {
    match FindByLabel(allProps, t.fdsLabel)
    case None => ImportState(s.values, s.freeTexts + [t.fdsLabel + "=" + t.original], s.errors)
    case Some(p) =>
      var st := PropImport(p, t.value, s.values, accepts);
      ImportState(st.values, s.freeTexts, s.errors + (if st.raised.Some? then [st.raised.value] else []))
  }

  function ImportTokens(allProps: seq<Desc>, ts: seq<ParamToken>, vals: Values, accepts: Accepts): (r: ImportState)
  {
    if |ts| == 0 then ImportState(vals, [], [])
    else TokenStep(allProps, ts[|ts| - 1], ImportTokens(allProps, ts[..|ts| - 1], vals, accepts), accepts)
  }

  /** The texts of the tokens no managed descriptor claims, in order. */
  function UnmanagedTexts(allProps: seq<Desc>, ts: seq<ParamToken>): (r: seq<string>)
  {
    if |ts| == 0 then []
    else
      (if FindByLabel(allProps, ts[0].fdsLabel).None? then [ts[0].fdsLabel + "=" + ts[0].original] else []) +
      UnmanagedTexts(allProps, ts[1..])
  }

  lemma {:induction false} UnmanagedSnoc(allProps: seq<Desc>, ts: seq<ParamToken>, t: ParamToken)
    ensures UnmanagedTexts(allProps, ts + [t]) ==
      UnmanagedTexts(allProps, ts) + (if FindByLabel(allProps, t.fdsLabel).None? then [t.fdsLabel + "=" + t.original] else [])
  {
    if |ts| == 0 {
      assert ts + [t] == [t];
      assert [t][1..] == [];
    } else {
      assert (ts + [t])[1..] == ts[1..] + [t];
      UnmanagedSnoc(allProps, ts[1..], t);
    }
  }

  /** Unmanaged tokens are never dropped: the free texts are exactly the
      unclaimed tokens, as `label=original`, in import order. */
  lemma {:induction false} ImportFreeTexts(allProps: seq<Desc>, ts: seq<ParamToken>, vals: Values, accepts: Accepts)
    ensures ImportTokens(allProps, ts, vals, accepts).freeTexts == UnmanagedTexts(allProps, ts)
  {
    if |ts| > 0 {
      var n := |ts| - 1;
      ImportFreeTexts(allProps, ts[..n], vals, accepts);
      assert ts == ts[..n] + [ts[n]];
      UnmanagedSnoc(allProps, ts[..n], ts[n]);
    }
  }

  // ---- from_fds ----

  /** The element after the reset, when the namelist is a scene namelist. */
  function Reset(d: Desc, allProps: seq<Desc>, vals: Values, accepts: Accepts): (r: Step)
  {
    if d.hostType == SceneType then Defaults([d] + allProps, vals, accepts) else Step(None, vals)
  }

  /** The token loop, run on the element after the reset. */
  function Imported(d: Desc, allProps: seq<Desc>, ts: seq<ParamToken>, vals: Values, accepts: Accepts): (r: ImportState)
  {
    ImportTokens(allProps, ParamOrder(ts), Reset(d, allProps, vals, accepts).values, accepts)
  }

  /** After the token loop: the free text stored when there is any and the
      namelist has a free-text property, the compound error when a token
      failed, otherwise the namelist's export flag set. */
  function Finish(d: Desc, s: ImportState, accepts: Accepts): (r: Step)
  {
    var free := FreeProp(d);
    var st1 :=
      if |s.freeTexts| > 0 && free.Some? then
        match Assign(s.values, accepts, free.value.idname, Scalar(Str(Join(" ", s.freeTexts))))
        case None => Step(Some(Crash(HostRejected)), s.values)
        case Some(v) => Step(None, v)
      else Step(None, s.values);
    if st1.raised.Some? then st1
    else if |s.errors| > 0 then Step(Some(BF(BFError(d.name, FollowingErrors, s.errors, []))), st1.values)
    else
      match SetExported(d, st1.values, accepts, true)
      case None => Step(Some(Crash(HostRejected)), st1.values)
      case Some(v) => Step(None, v)
  }

  /** `BFNamelist.from_fds(context, tokens)`, where `allProps` is the class's
      `all_bf_props`. A class mixing in BFNoAutoImportMod imports nothing. */
  function NamelistFromFds(d: Desc, allProps: seq<Desc>, ts: seq<ParamToken>, vals: Values, accepts: Accepts): (r: Step)
  {
    if |ts| == 0 || !d.autoImport then Step(None, vals)
    else
      var st0 := Reset(d, allProps, vals, accepts);
      if st0.raised.Some? then st0
      else Finish(d, Imported(d, allProps, ts, vals, accepts), accepts)
  }

  /** No tokens, no change. */
  lemma FromFdsEmpty(d: Desc, allProps: seq<Desc>, vals: Values, accepts: Accepts)
    ensures NamelistFromFds(d, allProps, [], vals, accepts) == Step(None, vals)
  {
  }

  /** The export flag is set only when no token failed: an import that
      reports nothing had no errors and leaves the flag true, and errors
      always end in a raise, the compound one when the host took the free text. */
  lemma FromFdsFlag(d: Desc, allProps: seq<Desc>, ts: seq<ParamToken>, vals: Values, accepts: Accepts)
    requires |ts| > 0 && d.autoImport
    ensures var r := NamelistFromFds(d, allProps, ts, vals, accepts);
      var s := Imported(d, allProps, ts, vals, accepts);
      (r.raised.None? ==> s.errors == []) &&
      (r.raised.None? && d.exportProp.Some? && d.exportProp.value.idname != "" ==>
        GetValue(r.values, d.exportProp.value.idname) == Some(Scalar(Bool(true)))) &&
      (s.errors != [] ==> r.raised.Some?) &&
      (r.raised.Some? && r.raised.value.BF? ==>
        r.raised.value == BF(BFError(d.name, FollowingErrors, s.errors, [])) && s.errors != [])
  {
  }

  /** When the host takes it, the free-text property ends up holding the
      free texts joined by single spaces, whether or not other tokens failed. */
  lemma FreeTextStored(d: Desc, allProps: seq<Desc>, ts: seq<ParamToken>, vals: Values, accepts: Accepts)
    requires d.autoImport && |ts| > 0
    requires Reset(d, allProps, vals, accepts).raised.None?
    requires FreeProp(d).Some? && FreeProp(d).value.idname != ""
    requires d.exportProp.Some? ==> d.exportProp.value.idname != FreeProp(d).value.idname
    requires |Imported(d, allProps, ts, vals, accepts).freeTexts| > 0
    requires accepts(FreeProp(d).value.idname, Scalar(Str(Join(" ", Imported(d, allProps, ts, vals, accepts).freeTexts))))
    ensures GetValue(NamelistFromFds(d, allProps, ts, vals, accepts).values, FreeProp(d).value.idname) ==
      Some(Scalar(Str(Join(" ", Imported(d, allProps, ts, vals, accepts).freeTexts))))
  {
  }

  /** An unmanaged token survives the import in the free-text property, as
      `label=original`, whether or not other tokens failed. */
  lemma FreeTextKept(d: Desc, allProps: seq<Desc>, ts: seq<ParamToken>, vals: Values, accepts: Accepts, k: nat)
    requires d.autoImport && k < |ts| && FindByLabel(allProps, ts[k].fdsLabel).None?
    requires Reset(d, allProps, vals, accepts).raised.None?
    requires FreeProp(d).Some? && FreeProp(d).value.idname != ""
    requires d.exportProp.Some? ==> d.exportProp.value.idname != FreeProp(d).value.idname
    requires accepts(FreeProp(d).value.idname, Scalar(Str(Join(" ", Imported(d, allProps, ts, vals, accepts).freeTexts))))
    ensures var v := GetValue(NamelistFromFds(d, allProps, ts, vals, accepts).values, FreeProp(d).value.idname);
      v.Some? && v.value.Scalar? && v.value.atom.Str? && Contains(v.value.atom.s, ts[k].fdsLabel + "=" + ts[k].original)
  {
    var ordered := ParamOrder(ts);
    ParamOrderFacts(ts);
    assert ts[k] in multiset(ordered);
    var j :| 0 <= j < |ordered| && ordered[j] == ts[k];
    var st0 := Reset(d, allProps, vals, accepts);
    var texts := Imported(d, allProps, ts, vals, accepts).freeTexts;
    assert texts == ImportTokens(allProps, ordered, st0.values, accepts).freeTexts;
    ImportFreeTexts(allProps, ordered, st0.values, accepts);
    UnmanagedListed(allProps, ordered, j);
    var i :| 0 <= i < |texts| && texts[i] == ts[k].fdsLabel + "=" + ts[k].original;
    FreeTextStored(d, allProps, ts, vals, accepts);
    JoinContains(" ", texts, i);
  }

  lemma {:induction false} UnmanagedListed(allProps: seq<Desc>, ts: seq<ParamToken>, j: nat)
    requires j < |ts| && FindByLabel(allProps, ts[j].fdsLabel).None?
    ensures exists i :: (0 <= i < |UnmanagedTexts(allProps, ts)| &&
      UnmanagedTexts(allProps, ts)[i] == ts[j].fdsLabel + "=" + ts[j].original)
  {
    if j == 0 {
      assert UnmanagedTexts(allProps, ts)[0] == ts[0].fdsLabel + "=" + ts[0].original;
    } else {
      UnmanagedListed(allProps, ts[1..], j - 1);
      var u := UnmanagedTexts(allProps, ts[1..]);
      var i :| 0 <= i < |u| && u[i] == ts[j].fdsLabel + "=" + ts[j].original;
      var head := if FindByLabel(allProps, ts[0].fdsLabel).None? then [ts[0].fdsLabel + "=" + ts[0].original] else [];
      assert UnmanagedTexts(allProps, ts)[|head| + i] == u[i];
    }
  }

  // ---- managed values ----

  /** Importing `t` may write `idname`: the value or the export flag of the
      descriptor its label selects. */
  predicate Writes(allProps: seq<Desc>, t: ParamToken, idname: string)
  {
    match FindByLabel(allProps, t.fdsLabel)
    case None => false
    case Some(q) =>
      q.autoImport && (q.idname == idname || (q.exportProp.Some? && q.exportProp.value.idname == idname))
  }

  /** A token that does not write `idname` leaves it as it was. */
  lemma TokenKeeps(allProps: seq<Desc>, t: ParamToken, s: ImportState, accepts: Accepts, idname: string)
    requires !Writes(allProps, t, idname)
    ensures GetValue(TokenStep(allProps, t, s, accepts).values, idname) == GetValue(s.values, idname)
  {
  }

  /** The value of a managed token the host accepts is what the element holds
      after the loop, when no later token writes the same property. */
  lemma {:induction false} ValueSurvives(allProps: seq<Desc>, ts: seq<ParamToken>, vals: Values, accepts: Accepts,
                                         j: nat, p: Desc)
    requires j < |ts| && FindByLabel(allProps, ts[j].fdsLabel) == Some(p)
    requires p.autoImport && p.idname != "" && accepts(p.idname, ts[j].value)
    requires p.exportProp.Some? ==> p.exportProp.value.idname != p.idname
    requires forall i :: j < i < |ts| ==> !Writes(allProps, ts[i], p.idname)
    ensures GetValue(ImportTokens(allProps, ts, vals, accepts).values, p.idname) == Some(ts[j].value)
  {
    var n := |ts| - 1;
    var s := ImportTokens(allProps, ts[..n], vals, accepts);
    if j < n {
      assert ts[..n][j] == ts[j];
      forall i | j < i < n ensures !Writes(allProps, ts[..n][i], p.idname) {
        assert ts[..n][i] == ts[i];
      }
      ValueSurvives(allProps, ts[..n], vals, accepts, j, p);
      TokenKeeps(allProps, ts[n], s, accepts, p.idname);
    }
  }

  /** Storing the free text, raising and setting the export flag touch
      nothing but the free-text property and the flag. */
  lemma FinishKeeps(d: Desc, s: ImportState, accepts: Accepts, idname: string)
    requires FreeProp(d).Some? ==> FreeProp(d).value.idname != idname
    requires d.exportProp.Some? ==> d.exportProp.value.idname != idname
    ensures GetValue(Finish(d, s, accepts).values, idname) == GetValue(s.values, idname)
  {
  }

  /** A managed parameter reaches the element: after `from_fds` the property
      holds the imported value, whether or not other tokens failed, provided
      the host accepts it and no token imported after it writes the same
      property. */
  lemma ManagedValueStored(d: Desc, allProps: seq<Desc>, ts: seq<ParamToken>, vals: Values, accepts: Accepts,
                           j: nat, p: Desc)
    requires d.autoImport && Reset(d, allProps, vals, accepts).raised.None?
    requires j < |ParamOrder(ts)| && FindByLabel(allProps, ParamOrder(ts)[j].fdsLabel) == Some(p)
    requires p.autoImport && p.idname != "" && accepts(p.idname, ParamOrder(ts)[j].value)
    requires p.exportProp.Some? ==> p.exportProp.value.idname != p.idname
    requires forall i :: j < i < |ParamOrder(ts)| ==> !Writes(allProps, ParamOrder(ts)[i], p.idname)
    requires FreeProp(d).Some? ==> FreeProp(d).value.idname != p.idname
    requires d.exportProp.Some? ==> d.exportProp.value.idname != p.idname
    ensures GetValue(NamelistFromFds(d, allProps, ts, vals, accepts).values, p.idname) == Some(ParamOrder(ts)[j].value)
  {
    ParamOrderFacts(ts);
    assert |ts| == |ParamOrder(ts)| by {
      assert |multiset(ParamOrder(ts))| == |multiset(ts)|;
    }
    var st0 := Reset(d, allProps, vals, accepts);
    ValueSurvives(allProps, ParamOrder(ts), st0.values, accepts, j, p);
    FinishKeeps(d, Imported(d, allProps, ts, vals, accepts), accepts, p.idname);
  }
}
