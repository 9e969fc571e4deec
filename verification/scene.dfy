/** `BFScene` import: each namelist token goes to the registered namelist
    with its label, or to `ON_free` when it carries geometry, or to the
    unmanaged texts; those end up in the HEAD free text, merged with what it
    held, and one summary error tells that something failed. */
module Scenes {
  import opened Options
  import opened Text
  import opened Values
  import opened Errors
  import opened Descriptors
  import opened Importing
  import opened Order
  import opened Registry
  import opened Host
  import opened Namelists

  /** A token of `fds.to_py.tokenize`: the namelist label, its parameters
      (the dict `BFNamelist.from_fds` takes) and the original text. */
  datatype NamelistToken = NamelistToken(fdsLabel: string, params: seq<ParamToken>, original: string)

  const GeometryLabels: set<string> := {"XB", "XYZ", "PBX", "PBY", "PBZ"}
  const FreeGeometry := "ON_free"
  const SceneErrorsMsg := "Errors reported, see details in HEAD free text file."

  predicate HasGeometry(ps: seq<ParamToken>)
  {
    exists i :: 0 <= i < |ps| && ps[i].fdsLabel in GeometryLabels
  }

  /** `_get_imported_bf_namelist_cls`: the namelist registered for the label;
      failing that, for a token with geometry, `BFNamelist.all["ON_free"]`,
      whose absence raises a KeyError. */
  function ImportedNamelist(namelists: seq<Desc>, t: NamelistToken): (r: Outcome<Option<Desc>>)
    ensures r.Ok? && r.value.Some? ==>
      (r.value.value in namelists &&
       (r.value.value.fdsLabel == t.fdsLabel || (r.value.value.name == FreeGeometry && HasGeometry(t.params))))
    ensures r == Ok(None) <==> (forall c :: c in namelists ==> c.fdsLabel != t.fdsLabel) && !HasGeometry(t.params)
    ensures r.Raised? <==>
      (forall c :: c in namelists ==> c.fdsLabel != t.fdsLabel) && HasGeometry(t.params) &&
      (forall c :: c in namelists ==> c.name != FreeGeometry)
    ensures r.Raised? ==> r.exc == Crash("KeyError")
  {
    match FindByLabel(namelists, t.fdsLabel)
    case Some(c) => Ok(Some(c))
    case None =>
      if HasGeometry(t.params) then
        match FindByName(namelists, FreeGeometry)
        case None => Raised(Crash("KeyError"))
        case Some(c) => Ok(Some(c))
      else Ok(None)
  }

  // ---- import order ----

  /** The sort key as written, `k[0] != "SURF_ID"`: it compares the
      namelist label with a parameter label. */
  function NotSurfIdKey(t: NamelistToken): (r: bool)
  {
    t.fdsLabel != "SURF_ID"
  }

  function ImportOrderAsWritten(ts: seq<NamelistToken>): (r: seq<NamelistToken>)
  {
    FalseFirst(ts, NotSurfIdKey)
  }

  /** The key the comment "first SURFs" asks for. */
  function NotSurfKey(t: NamelistToken): (r: bool)
  {
    t.fdsLabel != "SURF"
  }

  /** The order of import: SURF namelists first, so that the boundary
      conditions exist before the SURF_ID parameters that name them. */
  function ImportOrder(ts: seq<NamelistToken>): (r: seq<NamelistToken>)
  {
    FalseFirst(ts, NotSurfKey)
  }

  /** As written, no namelist is labelled SURF_ID, so the sort never moves a
      token: a SURF after an OBST stays after it. */
  lemma ImportOrderAsWrittenIsIdentity(ts: seq<NamelistToken>)
    requires forall i :: 0 <= i < |ts| ==> ts[i].fdsLabel != "SURF_ID"
    ensures ImportOrderAsWritten(ts) == ts
  {
    WhereAll(ts, NotSurfIdKey, true);
    assert [] + ts == ts;
  }

  lemma SurfAfterObst(obst: NamelistToken, surf: NamelistToken)
    requires obst.fdsLabel == "OBST" && surf.fdsLabel == "SURF"
    ensures ImportOrderAsWritten([obst, surf]) == [obst, surf]
    ensures ImportOrder([obst, surf]) == [surf, obst]
  {
    ImportOrderAsWrittenIsIdentity([obst, surf]);
    var ts := [obst, surf];
    assert ts[1..] == [surf];
    assert [surf][1..] == [];
    assert Where([surf], NotSurfKey, false) == [surf];
    assert Where([surf], NotSurfKey, true) == [];
    assert Where(ts, NotSurfKey, false) == [surf];
    assert Where(ts, NotSurfKey, true) == [obst];
  }

  /** Every token is imported once, every SURF before every other namelist,
      and the others keep the order of the file. */
  lemma ImportOrderFacts(ts: seq<NamelistToken>)
    ensures multiset(ImportOrder(ts)) == multiset(ts)
    ensures forall i, j :: 0 <= i < j < |ImportOrder(ts)| && ImportOrder(ts)[j].fdsLabel == "SURF" ==>
      ImportOrder(ts)[i].fdsLabel == "SURF"
    ensures Where(ImportOrder(ts), NotSurfKey, true) == Where(ts, NotSurfKey, true)
  {
    FalseFirstPermutes(ts, NotSurfKey);
    FalseFirstOrders(ts, NotSurfKey);
    FalseFirstStable(ts, NotSurfKey, true);
  }

  /** Without SURF namelists the corrected order is the file order, the
      order the code imports in. */
  lemma ImportOrderAgrees(ts: seq<NamelistToken>)
    requires forall i :: 0 <= i < |ts| ==> ts[i].fdsLabel != "SURF" && ts[i].fdsLabel != "SURF_ID"
    ensures ImportOrder(ts) == ts && ImportOrderAsWritten(ts) == ts
  {
    ImportOrderAsWrittenIsIdentity(ts);
    WhereAll(ts, NotSurfKey, true);
    assert [] + ts == ts;
  }

  // ---- the HEAD free text ----

  /** `_save_imported_unmanaged_tokens`: the new texts, then the old
      contents when there are any, one per line. */
  function MergeOverflow(texts: seq<string>, old_: string): (r: string)
  {
    Join("\n", texts + (if old_ != "" then [old_] else []))
  }

  /** Nothing is lost from the free text: every new text and the previous
      contents are in it, and with nothing new the contents stay as they were. */
  lemma MergeOverflowKeeps(texts: seq<string>, old_: string)
    ensures forall i :: 0 <= i < |texts| ==> Contains(MergeOverflow(texts, old_), texts[i])
    ensures old_ != "" ==> Contains(MergeOverflow(texts, old_), old_)
    ensures texts == [] ==> MergeOverflow(texts, old_) == old_
  {
    var all := texts + (if old_ != "" then [old_] else []);
    forall i | 0 <= i < |texts| ensures Contains(MergeOverflow(texts, old_), texts[i]) {
      assert all[i] == texts[i];
      JoinContains("\n", all, i);
    }
    if old_ != "" {
      JoinContains("\n", all, |texts|);
    }
    if texts == [] {
      assert all == if old_ != "" then [old_] else [];
    }
  }

  // ---- the token loop ----

  /** An element the import created, by name and values. */
  datatype NewElement = NewElement(name: string, values: Values)

  /** The host's acceptance of assignments, per kind of element. */
  datatype Hosts = Hosts(scene: Accepts, objects: Accepts, materials: Accepts)

  datatype SceneState = SceneState(
    values: Values,            // the scene's own properties
    created: seq<NewElement>,  // new objects and materials, in creation order
    freeTexts: seq<string>,
    errors: bool,
    crash: Option<Exc>)        // an error that is not a BFException ends the import

  const NamelistClsIdname := "bf_namelist_cls"

  /** A new element's values after `_get_imported_element`: its link to a
      namelist class. */
  function NewValues(c: Desc): (r: Values)
  {
    map[NamelistClsIdname := Scalar(Str(if c.hostType == ObjectType then c.name else "MN_SURF"))]
  }

  /** The outcome of a namelist's import folded into the state: a
      BFException adds its free texts and is remembered; any other error ends
      the import. */
  function Absorb(s: SceneState, raised: Option<Exc>): (r: SceneState)
  {
    match raised
    case None => s
    case Some(BF(e)) => s.(errors := true, freeTexts := s.freeTexts + e.freeTexts)
    case Some(Crash(c)) => s.(crash := Some(Crash(c)))
  }

  /** How a namelist class imports a token's parameters into an element's
      values: `bf_namelist_cls(element).from_fds(context, fds_params)`. The
      loop below is stated for any such import; `EngineImport` is the one
      `BFNamelist.from_fds` performs. */
  type NamelistImport = (Desc, seq<ParamToken>, Values, Accepts) -> Step

  /** Each class imports with `BFNamelist.from_fds` and its `all_bf_props`. */
  function EngineImport(allProps: map<Desc, seq<Desc>>): (r: NamelistImport)
  {
    (c: Desc, ps: seq<ParamToken>, vals: Values, accepts: Accepts) =>
      NamelistFromFds(c, AllPropsOf(allProps, c), ps, vals, accepts)
  }

  /** `imp` is the engine's import. Stated pointwise, and only applied where
      the namelist's own import is seen. */
  ghost predicate Runs(imp: NamelistImport, allProps: map<Desc, seq<Desc>>)
  {
    forall c, ps, vals, accepts {:trigger NamelistFromFds(c, AllPropsOf(allProps, c), ps, vals, accepts)} ::
      imp(c, ps, vals, accepts) == NamelistFromFds(c, AllPropsOf(allProps, c), ps, vals, accepts)
  }

  /** `bf_namelist_cls(element).from_fds(context, fds_params)` as written: on
      a class mixing in BFNoAutoImportMod the call passes a value that
      `from_fds(self, context)` does not take, and the TypeError ends the
      whole import. */
  function ImportIntoAsWritten(c: Desc, allProps: seq<Desc>, ps: seq<ParamToken>, vals: Values, accepts: Accepts): (r: Step)
  {
    if !c.autoImport then Step(Some(Crash("TypeError")), vals)
    else NamelistFromFds(c, allProps, ps, vals, accepts)
  }

  lemma NoAutoImportNamelistAsWritten(c: Desc, allProps: seq<Desc>, ps: seq<ParamToken>, vals: Values, accepts: Accepts)
    requires !c.autoImport && |ps| > 0
    ensures ImportIntoAsWritten(c, allProps, ps, vals, accepts).raised == Some(Crash("TypeError"))
    ensures NamelistFromFds(c, allProps, ps, vals, accepts) == Step(None, vals)
  {
  }

  /** On every class without BFNoAutoImportMod the call as written is the
      corrected import. */
  lemma ImportIntoAgrees(c: Desc, allProps: seq<Desc>, ps: seq<ParamToken>, vals: Values, accepts: Accepts)
    requires c.autoImport
    ensures ImportIntoAsWritten(c, allProps, ps, vals, accepts) == NamelistFromFds(c, allProps, ps, vals, accepts)
  {
  }

  /** The import into the element `_get_imported_element` gives: the
      scene itself, or a new object or material. */
  function ImportInto(c: Desc, imp: NamelistImport, hosts: Hosts, t: NamelistToken, s: SceneState): (r: Step)
  {
    var vals := if c.hostType == SceneType then s.values else NewValues(c);
    var accepts := if c.hostType == SceneType then hosts.scene
                   else if c.hostType == ObjectType then hosts.objects else hosts.materials;
    imp(c, t.params, vals, accepts)
  }

  /** The outcome `st` of a managed namelist's import folded into the state. */
  function Managed(c: Desc, t: NamelistToken, st: Step, s: SceneState): (r: SceneState)
  {
    if c.hostType == SceneType then Absorb(s.(values := st.values), st.raised)
    else Absorb(s.(created := s.created + [NewElement("New " + t.fdsLabel, st.values)]), st.raised)
  }

  /** One namelist token. */
  function SceneStep(namelists: seq<Desc>, imp: NamelistImport, hosts: Hosts,
                     t: NamelistToken, s: SceneState): (r: SceneState)
  {
    match ImportedNamelist(namelists, t)
    case Raised(e) => s.(crash := Some(e))
    case Ok(None) => s.(freeTexts := s.freeTexts + [t.original])
    case Ok(Some(c)) =>
      if c.hostType == NoType then s.(crash := Some(Crash("ValueError")))
      else Managed(c, t, ImportInto(c, imp, hosts, t, s), s)
  }

  /** The loop over the tokens, in the order given. */
  function SceneImport(namelists: seq<Desc>, imp: NamelistImport, hosts: Hosts,
                       ts: seq<NamelistToken>, s0: SceneState): (r: SceneState)
  {
    if |ts| == 0 then s0
    else
      var s := SceneImport(namelists, imp, hosts, ts[..|ts| - 1], s0);
      if s.crash.Some? then s else SceneStep(namelists, imp, hosts, ts[|ts| - 1], s)
  }

  /** The state before the loop: a tokenizer error counts as an error and
      brings its free texts. */
  function Start(tokenized: Outcome<seq<NamelistToken>>, vals: Values): (r: SceneState)
  {
    match tokenized
    case Ok(_) => SceneState(vals, [], [], false, None)
    case Raised(BF(e)) => SceneState(vals, [], e.freeTexts, true, None)
    case Raised(Crash(c)) => SceneState(vals, [], [], false, Some(Crash(c)))
  }

  function Tokens(tokenized: Outcome<seq<NamelistToken>>): (r: seq<NamelistToken>)
  {
    if tokenized.Ok? then tokenized.value else []
  }

  /** The state after the loop, the result and the HEAD free text. */
  datatype SceneResult = SceneResult(state: SceneState, raised: Option<Exc>, overflow: string)

  /** `BFScene.from_fds(context, value)`, with the tokenizer's outcome given. */
  function SceneFromFds(namelists: seq<Desc>, imp: NamelistImport, hosts: Hosts, sceneName: string,
                        tokenized: Outcome<seq<NamelistToken>>, vals: Values, overflow: string): (r: SceneResult)
  {
    var s0 := Start(tokenized, vals);
    var s := if s0.crash.Some? then s0 else SceneImport(namelists, imp, hosts, ImportOrder(Tokens(tokenized)), s0);
    if s.crash.Some? then SceneResult(s, s.crash, overflow)
    else SceneResult(s, if s.errors then Some(BF(Simple(sceneName, SceneErrorsMsg))) else None,
                     MergeOverflow(s.freeTexts, overflow))
  }

  lemma SceneImportSnoc(namelists: seq<Desc>, imp: NamelistImport, hosts: Hosts,
                        ts: seq<NamelistToken>, s0: SceneState, i: nat)
    requires i < |ts|
    ensures var s := SceneImport(namelists, imp, hosts, ts[..i], s0);
      SceneImport(namelists, imp, hosts, ts[..i + 1], s0) ==
        if s.crash.Some? then s else SceneStep(namelists, imp, hosts, ts[i], s)
  {
    assert ts[..i + 1][..i] == ts[..i];
  }

  lemma {:induction false} SceneCrashStops(namelists: seq<Desc>, imp: NamelistImport, hosts: Hosts,
                                           ts: seq<NamelistToken>, s0: SceneState, i: nat)
    requires i <= |ts| && SceneImport(namelists, imp, hosts, ts[..i], s0).crash.Some?
    ensures SceneImport(namelists, imp, hosts, ts, s0) == SceneImport(namelists, imp, hosts, ts[..i], s0)
    decreases |ts| - i
  {
    if i < |ts| {
      assert ts[..i + 1][..i] == ts[..i];
      SceneCrashStops(namelists, imp, hosts, ts, s0, i + 1);
    } else {
      assert ts[..i] == ts;
    }
  }

  lemma StepTextsGrow(namelists: seq<Desc>, imp: NamelistImport, hosts: Hosts,
                      t: NamelistToken, s: SceneState)
    ensures var s1 := SceneStep(namelists, imp, hosts, t, s);
      |s.freeTexts| <= |s1.freeTexts| && s1.freeTexts[..|s.freeTexts|] == s.freeTexts
  {
    var s1 := SceneStep(namelists, imp, hosts, t, s);
    var tail: seq<string> := [];
    match ImportedNamelist(namelists, t)
    case Raised(_) =>
    case Ok(None) => tail := [t.original];
    case Ok(Some(c)) =>
      if c.hostType != NoType {
        var st := ImportInto(c, imp, hosts, t, s);
        if st.raised.Some? && st.raised.value.BF? { tail := st.raised.value.error.freeTexts; }
      }
    assert s1.freeTexts == s.freeTexts + tail;
    assert (s.freeTexts + tail)[..|s.freeTexts|] == s.freeTexts;
  }

  /** The free texts only grow. */
  lemma {:induction false} SceneTextsGrow(namelists: seq<Desc>, imp: NamelistImport, hosts: Hosts,
                                          ts: seq<NamelistToken>, s0: SceneState)
    ensures var s := SceneImport(namelists, imp, hosts, ts, s0);
      |s0.freeTexts| <= |s.freeTexts| && s.freeTexts[..|s0.freeTexts|] == s0.freeTexts
  {
    if |ts| > 0 {
      var s := SceneImport(namelists, imp, hosts, ts[..|ts| - 1], s0);
      SceneTextsGrow(namelists, imp, hosts, ts[..|ts| - 1], s0);
      if s.crash.None? {
        StepTextsGrow(namelists, imp, hosts, ts[|ts| - 1], s);
        var s1 := SceneStep(namelists, imp, hosts, ts[|ts| - 1], s);
        assert s1.freeTexts[..|s0.freeTexts|] == s1.freeTexts[..|s.freeTexts|][..|s0.freeTexts|];
      }
    }
  }

  /** A token no namelist manages is kept verbatim among the free texts,
      unless an error that is not a BFException ended the import. */
  lemma {:induction false} UnmanagedTokenKept(namelists: seq<Desc>, imp: NamelistImport, hosts: Hosts,
                                              ts: seq<NamelistToken>, s0: SceneState, k: nat)
    requires k < |ts| && ImportedNamelist(namelists, ts[k]) == Ok(None)
    requires SceneImport(namelists, imp, hosts, ts, s0).crash.None?
    ensures ts[k].original in SceneImport(namelists, imp, hosts, ts, s0).freeTexts
  {
    var n := |ts| - 1;
    var s := SceneImport(namelists, imp, hosts, ts[..n], s0);
    if k == n {
      assert SceneImport(namelists, imp, hosts, ts, s0).freeTexts == s.freeTexts + [ts[k].original];
    } else {
      assert ts[..n][k] == ts[k];
      UnmanagedTokenKept(namelists, imp, hosts, ts[..n], s0, k);
      var s1 := SceneStep(namelists, imp, hosts, ts[n], s);
      var sn := s.(values := s1.values, created := s1.created);
      SceneTextsGrow(namelists, imp, hosts, [ts[n]], s);
      assert [ts[n]][..0] == [];
      assert ts[k].original in s.freeTexts;
      var j :| 0 <= j < |s.freeTexts| && s.freeTexts[j] == ts[k].original;
      assert s1.freeTexts[j] == ts[k].original;
    }
  }

  /** The whole import: no data is dropped from the file, and the summary
      error is raised exactly when something failed. */
  lemma SceneFromFdsFacts(namelists: seq<Desc>, imp: NamelistImport, hosts: Hosts, sceneName: string,
                          tokenized: Outcome<seq<NamelistToken>>, vals: Values, overflow: string)
    ensures var x := SceneFromFds(namelists, imp, hosts, sceneName, tokenized, vals, overflow);
      x.state.crash.None? ==>
        (x.raised.Some? <==> x.state.errors) &&
        (x.raised.Some? ==> x.raised == Some(BF(Simple(sceneName, SceneErrorsMsg)))) &&
        (tokenized.Raised? ==> x.state.errors) &&
        (forall i :: 0 <= i < |x.state.freeTexts| ==> Contains(x.overflow, x.state.freeTexts[i])) &&
        (overflow != "" ==> Contains(x.overflow, overflow))
    ensures var x := SceneFromFds(namelists, imp, hosts, sceneName, tokenized, vals, overflow);
      x.state.crash.Some? ==> x.raised == x.state.crash && x.overflow == overflow
  {
    var x := SceneFromFds(namelists, imp, hosts, sceneName, tokenized, vals, overflow);
    MergeOverflowKeeps(x.state.freeTexts, overflow);
    if tokenized.Raised? && tokenized.exc.BF? {
      ErrorsStay(namelists, imp, hosts, ImportOrder(Tokens(tokenized)), Start(tokenized, vals));
    }
  }

  lemma {:induction false} ErrorsStay(namelists: seq<Desc>, imp: NamelistImport, hosts: Hosts,
                                      ts: seq<NamelistToken>, s0: SceneState)
    requires s0.errors
    ensures SceneImport(namelists, imp, hosts, ts, s0).errors
  {
    if |ts| > 0 {
      ErrorsStay(namelists, imp, hosts, ts[..|ts| - 1], s0);
    }
  }

  /** Every unmanaged token of the file ends up in the HEAD free text. */
  lemma UnmanagedTokenSaved(namelists: seq<Desc>, imp: NamelistImport, hosts: Hosts, sceneName: string,
                            ts: seq<NamelistToken>, vals: Values, overflow: string, k: nat)
    requires k < |ts| && ImportedNamelist(namelists, ts[k]) == Ok(None)
    requires SceneFromFds(namelists, imp, hosts, sceneName, Ok(ts), vals, overflow).state.crash.None?
    ensures Contains(SceneFromFds(namelists, imp, hosts, sceneName, Ok(ts), vals, overflow).overflow, ts[k].original)
  {
    var order := ImportOrder(ts);
    ImportOrderFacts(ts);
    assert ts[k] in multiset(order);
    var j :| 0 <= j < |order| && order[j] == ts[k];
    var s0 := Start(Ok(ts), vals);
    UnmanagedTokenKept(namelists, imp, hosts, order, s0, j);
    var x := SceneFromFds(namelists, imp, hosts, sceneName, Ok(ts), vals, overflow);
    var i :| 0 <= i < |x.state.freeTexts| && x.state.freeTexts[i] == ts[k].original;
    SceneFromFdsFacts(namelists, imp, hosts, sceneName, Ok(ts), vals, overflow);
  }

  /** A scene: its own element, the HEAD free text, and the objects and
      materials an import created in it. */
  class Scene {
    const element: Element
    const objectAccepts: Accepts
    const materialAccepts: Accepts
    var created: seq<Element>
    var overflow: string

    constructor (element: Element, objectAccepts: Accepts, materialAccepts: Accepts, overflow: string)
      ensures this.element == element && this.objectAccepts == objectAccepts
      ensures this.materialAccepts == materialAccepts && this.overflow == overflow && created == []
    {
      this.element := element;
      this.objectAccepts := objectAccepts;
      this.materialAccepts := materialAccepts;
      this.overflow := overflow;
      created := [];
    }

    /** `_save_imported_unmanaged_tokens` */
    method SaveUnmanaged(freeTexts: seq<string>)
      modifies this
      ensures overflow == MergeOverflow(freeTexts, old(overflow)) && created == old(created)
    {
      var texts := freeTexts;
      if overflow != "" {
        texts := texts + [overflow];
      } else {
        assert texts == freeTexts + [];
      }
      overflow := Join("\n", texts);
    }

    /** The import of one namelist token, the body of the loop of
        `BFScene.from_fds`; `s` is the state so far, the elements after
        `created[n0]` being those of `s.created`. */
    method Visit(namelists: seq<Desc>, allProps: map<Desc, seq<Desc>>, ghost imp: NamelistImport, t: NamelistToken,
                 freeTexts: seq<string>, errors: bool, ghost n0: nat, ghost s: SceneState)
      returns (freeTexts1: seq<string>, errors1: bool, crash: Option<Exc>, ghost s1: SceneState)
      requires Runs(imp, allProps)
      requires s.values == element.values && s.freeTexts == freeTexts && s.errors == errors && s.crash.None?
      requires |created| == n0 + |s.created|
      requires forall j :: n0 <= j < |created| ==> created[j] != element
      requires forall j :: 0 <= j < |s.created| ==>
        created[n0 + j].name == s.created[j].name && created[n0 + j].values == s.created[j].values
      modifies this, element
      ensures s1 == SceneStep(namelists, imp, Hosts(element.accepts, objectAccepts, materialAccepts), t, s)
      ensures s1.values == element.values && s1.freeTexts == freeTexts1 && s1.errors == errors1 && s1.crash == crash &&
        |old(created)| <= |created| == n0 + |s1.created| && created[..|old(created)|] == old(created) &&
        (forall j :: n0 <= j < |created| ==> created[j] != element) &&
        (forall j :: 0 <= j < |s1.created| ==>
          created[n0 + j].name == s1.created[j].name && created[n0 + j].values == s1.created[j].values)
      ensures overflow == old(overflow)
    {
      ghost var hosts := Hosts(element.accepts, objectAccepts, materialAccepts);
      freeTexts1, errors1, crash := freeTexts, errors, None;
      var found := ImportedNamelist(namelists, t);
      if found.Raised? {
        crash := Some(found.exc);
        s1 := s.(crash := crash);
      } else if found.value.None? {
        freeTexts1 := freeTexts + [t.original];
        s1 := s.(freeTexts := freeTexts1);
      } else if found.value.value.hostType == NoType {
        crash := Some(Crash("ValueError"));
        s1 := s.(crash := crash);
      } else {
        var c := found.value.value;
        freeTexts1, errors1, crash, s1 := VisitManaged(allProps, imp, c, t, freeTexts, errors, n0, s);
      }
    }

    /** A token some namelist manages: the namelist imports it into the
        element `Target` gives. */
    method VisitManaged(allProps: map<Desc, seq<Desc>>, ghost imp: NamelistImport, c: Desc, t: NamelistToken,
                        freeTexts: seq<string>, errors: bool, ghost n0: nat, ghost s: SceneState)
      returns (freeTexts1: seq<string>, errors1: bool, crash: Option<Exc>, ghost s1: SceneState)
      requires Runs(imp, allProps)
      requires c.hostType != NoType
      requires s.values == element.values && s.freeTexts == freeTexts && s.errors == errors && s.crash.None?
      requires |created| == n0 + |s.created|
      requires forall j :: n0 <= j < |created| ==> created[j] != element
      requires forall j :: 0 <= j < |s.created| ==>
        created[n0 + j].name == s.created[j].name && created[n0 + j].values == s.created[j].values
      modifies this, element
      ensures s1 == Managed(c, t, ImportInto(c, imp, Hosts(element.accepts, objectAccepts, materialAccepts), t, s), s)
      ensures s1.values == element.values && s1.freeTexts == freeTexts1 && s1.errors == errors1 && s1.crash == crash &&
        |old(created)| <= |created| == n0 + |s1.created| && created[..|old(created)|] == old(created) &&
        (forall j :: n0 <= j < |created| ==> created[j] != element) &&
        (forall j :: 0 <= j < |s1.created| ==>
          created[n0 + j].name == s1.created[j].name && created[n0 + j].values == s1.created[j].values)
      ensures overflow == old(overflow)
    {
      ghost var hosts := Hosts(element.accepts, objectAccepts, materialAccepts);
      freeTexts1, errors1, crash := freeTexts, errors, None;
      ghost var st := ImportInto(c, imp, hosts, t, s);
      s1 := Managed(c, t, st, s);
      ghost var prior := created;
      var target := Target(c, t);
      assert forall j :: n0 <= j < |prior| ==> prior[j] != target;
      assert st == NamelistFromFds(c, AllPropsOf(allProps, c), t.params, target.values, target.accepts);
      ghost var made := created;
      var nl := new Namelist(c, AllPropsOf(allProps, c), target);
      var r := nl.FromFds(t.params);
      assert Step(r, target.values) == st;
      assert created == made;
      assert forall j :: 0 <= j < |s.created| ==> created[n0 + j].values == s.created[j].values;
      if c.hostType != SceneType {
        assert Managed(c, t, st, s).created == s.created + [NewElement("New " + t.fdsLabel, st.values)];
        assert created[n0 + |s.created|] == target;
      } else {
        assert Managed(c, t, st, s).created == s.created;
      }
      if r.Some? && r.value.Crash? {
        crash := r;
      } else if r.Some? {
        errors1 := true;
        freeTexts1 := freeTexts + r.value.error.freeTexts;
      }
    }

    /** `_get_imported_element`: the scene itself, or a new object or
        material linked to its namelist class. */
    method Target(c: Desc, t: NamelistToken) returns (target: Element)
      requires c.hostType != NoType
      modifies this
      ensures c.hostType == SceneType ==> target == element && created == old(created)
      ensures c.hostType != SceneType ==>
        fresh(target) && created == old(created) + [target] && target.name == "New " + t.fdsLabel &&
        target.values == NewValues(c) &&
        target.accepts == (if c.hostType == ObjectType then objectAccepts else materialAccepts)
      ensures overflow == old(overflow)
    {
      if c.hostType == SceneType {
        target := element;
      } else {
        var accepts := if c.hostType == ObjectType then objectAccepts else materialAccepts;
        target := new Element("New " + t.fdsLabel, NewValues(c), accepts);
        created := created + [target];
      }
    }

    /** The loop of `BFScene.from_fds` over the tokens in import order,
        from the state `s0`; it stops at an error that is not a
        BFException. */
    method ImportAll(namelists: seq<Desc>, allProps: map<Desc, seq<Desc>>, ghost imp: NamelistImport,
                     order: seq<NamelistToken>, freeTexts0: seq<string>, errors0: bool, ghost s0: SceneState)
      returns (freeTexts: seq<string>, errors: bool, crash: Option<Exc>, ghost s: SceneState)
      requires Runs(imp, allProps)
      requires s0 == SceneState(element.values, [], freeTexts0, errors0, None)
      modifies this, element
      ensures s == SceneImport(namelists, imp, Hosts(element.accepts, objectAccepts, materialAccepts), order, s0)
      ensures s.values == element.values && s.freeTexts == freeTexts && s.errors == errors && s.crash == crash
      ensures |old(created)| <= |created| == |old(created)| + |s.created| && created[..|old(created)|] == old(created)
      ensures forall j :: 0 <= j < |s.created| ==>
        created[|old(created)| + j].name == s.created[j].name && created[|old(created)| + j].values == s.created[j].values
      ensures overflow == old(overflow)
    {
      ghost var hosts := Hosts(element.accepts, objectAccepts, materialAccepts);
      ghost var n0 := |created|;
      freeTexts, errors, crash := freeTexts0, errors0, None;
      var i := 0;
      s := s0;
      assert order[..0] == [];
      while i < |order|
        invariant 0 <= i <= |order|
        invariant s == SceneImport(namelists, imp, hosts, order[..i], s0)
        invariant s.values == element.values && s.freeTexts == freeTexts && s.errors == errors
        invariant s.crash.None? && crash.None?
        invariant |created| == n0 + |s.created| && created[..n0] == old(created)
        invariant forall j :: n0 <= j < |created| ==> created[j] != element
        invariant forall j :: 0 <= j < |s.created| ==>
          created[n0 + j].name == s.created[j].name && created[n0 + j].values == s.created[j].values
        invariant overflow == old(overflow)
      {
        freeTexts, errors, crash, s := Advance(namelists, allProps, imp, order, i, freeTexts, errors, n0, s0, s);
        if crash.Some? {
          return;
        }
        i := i + 1;
      }
      assert order[..i] == order;
    }

    /** One pass of that loop: the token at `i` visited, the state `s` so
        far being that of the tokens before it. */
    method Advance(namelists: seq<Desc>, allProps: map<Desc, seq<Desc>>, ghost imp: NamelistImport,
                   order: seq<NamelistToken>, i: nat,
                   freeTexts: seq<string>, errors: bool, ghost n0: nat, ghost s0: SceneState, ghost s: SceneState)
      returns (freeTexts1: seq<string>, errors1: bool, crash: Option<Exc>, ghost s1: SceneState)
      requires Runs(imp, allProps)
      requires i < |order|
      requires s == SceneImport(namelists, imp, Hosts(element.accepts, objectAccepts, materialAccepts), order[..i], s0)
      requires s.values == element.values && s.freeTexts == freeTexts && s.errors == errors && s.crash.None?
      requires |created| == n0 + |s.created|
      requires forall j :: n0 <= j < |created| ==> created[j] != element
      requires forall j :: 0 <= j < |s.created| ==>
        created[n0 + j].name == s.created[j].name && created[n0 + j].values == s.created[j].values
      modifies this, element
      ensures crash.None? ==>
        s1 == SceneImport(namelists, imp, Hosts(element.accepts, objectAccepts, materialAccepts), order[..i + 1], s0)
      ensures crash.Some? ==>
        s1 == SceneImport(namelists, imp, Hosts(element.accepts, objectAccepts, materialAccepts), order, s0)
      ensures s1.values == element.values && s1.freeTexts == freeTexts1 && s1.errors == errors1 && s1.crash == crash &&
        |old(created)| <= |created| == n0 + |s1.created| && created[..|old(created)|] == old(created) &&
        (forall j :: n0 <= j < |created| ==> created[j] != element) &&
        (forall j :: 0 <= j < |s1.created| ==>
          created[n0 + j].name == s1.created[j].name && created[n0 + j].values == s1.created[j].values)
      ensures overflow == old(overflow)
    {
      ghost var hosts := Hosts(element.accepts, objectAccepts, materialAccepts);
      freeTexts1, errors1, crash, s1 := Visit(namelists, allProps, imp, order[i], freeTexts, errors, n0, s);
      SceneImportSnoc(namelists, imp, hosts, order, s0, i);
      if crash.Some? {
        SceneCrashStops(namelists, imp, hosts, order, s0, i + 1);
      }
    }

    /** `BFScene.from_fds(context, value)`, with the tokenizer's outcome
        given; the elements it creates are appended to `created`. */
    method FromFds(namelists: seq<Desc>, allProps: map<Desc, seq<Desc>>, tokenized: Outcome<seq<NamelistToken>>)
      returns (raised: Option<Exc>)
      modifies this, element
      ensures var x := SceneFromFds(namelists, EngineImport(allProps), Hosts(element.accepts, objectAccepts, materialAccepts),
                                    element.name, tokenized, old(element.values), old(overflow));
        raised == x.raised && element.values == x.state.values && overflow == x.overflow &&
        |old(created)| <= |created| == |old(created)| + |x.state.created| && created[..|old(created)|] == old(created) &&
        (forall j :: 0 <= j < |x.state.created| ==>
          created[|old(created)| + j].name == x.state.created[j].name &&
          created[|old(created)| + j].values == x.state.created[j].values)
    {
      var freeTexts: seq<string> := [];
      var errors := false;
      var tokens: seq<NamelistToken> := [];
      match tokenized {
        case Ok(ts) => tokens := ts;
        case Raised(BF(e)) => errors := true; freeTexts := e.freeTexts;
        case Raised(Crash(c)) => return Some(Crash(c));
      }
      var crash: Option<Exc>;
      ghost var s;
      freeTexts, errors, crash, s := ImportAll(namelists, allProps, EngineImport(allProps), ImportOrder(tokens),
                                               freeTexts, errors, Start(tokenized, element.values));
      if crash.Some? {
        return crash;
      }
      SaveUnmanaged(freeTexts);
      if errors {
        raised := Some(BF(Simple(element.name, SceneErrorsMsg)));
      } else {
        raised := None;
      }
    }
  }
}
