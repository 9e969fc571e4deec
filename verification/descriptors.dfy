/** Descriptor classes (`BFProp`, `BFNamelist` and their specialisations) as
    values: the class attributes the engine reads, with inheritance already
    resolved. A descriptor instance is the pair of a descriptor and an
    element; its operations take the element's property values. */
module Descriptors {
  import opened Options
  import opened Values
  import opened Errors

  /** `bpy_type`: the kind of element a namelist binds to. */
  datatype HostType = SceneType | ObjectType | MaterialType | NoType

  /** One FDS parameter as a child's `to_fds` returns it: `LABEL=...` text, or a
      list of alternative bodies (a multiparam) that repeats the namelist. */
  datatype Param = Single(text: string) | Multi(alts: seq<string>)

  /** Which `check`, `format` and `to_fds` the class has.
      `Plain`: BFProp or BFNamelist; a `check` that a subclass outside the
      engine defines is given by its outcome (the infos it appends, the message
      of the BFException it raises). `StringKind`: BFStringProp and BFFYIProp.
      `FreeKind`: BFFreeProp. `Geometry`: XB, XYZ and PB* parameters, whose
      `to_fds` lives with the geometry code and is given by what it returns. */
  datatype Kind =
    | Plain(checkInfos: seq<Info>, checkFailure: Option<string>)
    | StringKind
    | FreeKind
    | Geometry(exported: Option<Param>)

  datatype Desc = Desc(
    name: string,               // class name, the key of `ClsList.get` and `all[...]`
    isNamelist: bool,           // a BFNamelist (else a BFProp)
    fdsLabel: string,           // `fds_label`; "" stands for None
    fdsDefault: Option<Value>,  // `fds_default`
    fdsSeparator: string,       // `fds_separator`
    idname: string,             // `bpy_idname`; "" stands for None
    displayDefault: Option<Value>, // `bpy_other["default"]`, which `register` fills from `fds_default`
    precision: nat,             // `bpy_other.get("precision", 3)`
    exportProp: Option<Desc>,   // `bf_prop_export`
    props: seq<Desc>,           // `bf_props`, in declared order
    kind: Kind,
    autoExport: bool,           // false for classes mixing in BFNoAutoExportMod
    autoImport: bool,           // false for classes mixing in BFNoAutoImportMod
    hostType: HostType,         // `bpy_type`
    enumId: int)

  function ExportPart(d: Desc): (r: seq<Desc>)
  {
    if d.exportProp.Some? then [d.exportProp.value] else []
  }

  /** The descriptors reachable from `ps`: each one, its export flag, and
      theirs in turn, in the order `subscribe` lists them. */
  function Closure(ps: seq<Desc>): (r: seq<Desc>)
    decreases ps
  {
    if |ps| == 0 then []
    else
      var last := ps[|ps| - 1];
      assert last in ps;
      Closure(ps[..|ps| - 1]) + [last] + ExportPart(last) + Closure(last.props)
  }

  /** `all_bf_props` as `subscribe` means it: the export flag, then every
      managed property, transitively. */
  function Transitive(d: Desc): (r: seq<Desc>)
  {
    ExportPart(d) + Closure(d.props)
  }

  lemma {:induction false} ClosureHolds(ps: seq<Desc>, i: nat)
    requires i < |ps|
    ensures ps[i] in Closure(ps)
    ensures forall q :: q in Transitive(ps[i]) ==> q in Closure(ps)
    decreases ps
  {
    var n := |ps| - 1;
    if i < n {
      ClosureHolds(ps[..n], i);
    }
  }

  /** Every child of a descriptor, and everything its own `all_bf_props`
      holds, is among the descriptor's `all_bf_props`. */
  lemma TransitiveIncludes(d: Desc, p: Desc)
    requires p in d.props
    ensures p in Transitive(d)
    ensures forall q :: q in Transitive(p) ==> q in Transitive(d)
  {
    var i :| 0 <= i < |d.props| && d.props[i] == p;
    ClosureHolds(d.props, i);
  }

  /** The value of the export flag on the element, when the class has one. */
  function FlagValue(d: Desc, vals: Values): (r: Option<Value>)
  {
    if d.exportProp.Some? then GetValue(vals, d.exportProp.value.idname) else None
  }

  /** `get_exported` */
  function Exported(d: Desc, vals: Values): (r: bool)
  {
    var value := GetValue(vals, d.idname);
    if d.fdsDefault.None? then
      if d.exportProp.Some? then Truthy(FlagValue(d, vals)) else true
    else
      if d.exportProp.Some? then Truthy(FlagValue(d, vals)) && !SameAs(value, d.fdsDefault.value)
      else !SameAs(value, d.fdsDefault.value)
  }

  /** `value == default`, where a missing value (None) differs from every default. */
  predicate SameAs(value: Option<Value>, default: Value)
  {
    value.Some? && PyEq(value.value, default)
  }

  /** The export rule in one line: a declared default suppresses an equal value,
      and an export flag, when the class has one, must be set. */
  lemma ExportedRule(d: Desc, vals: Values)
    ensures Exported(d, vals) <==>
      (d.exportProp.None? || Truthy(FlagValue(d, vals))) &&
      (d.fdsDefault.None? || !SameAs(GetValue(vals, d.idname), d.fdsDefault.value))
  {
  }

  /** `set_exported(context, b)`: sets the export flag, if any; `None` when the host raises. */
  function SetExported(d: Desc, vals: Values, accepts: Accepts, b: bool): (r: Option<Values>)
    ensures d.exportProp.None? ==> r == Some(vals)
    ensures r.Some? && d.exportProp.Some? && d.exportProp.value.idname != "" ==>
      r.value == vals[d.exportProp.value.idname := Scalar(Bool(b))]
    ensures r.None? <==>
      (d.exportProp.Some? && d.exportProp.value.idname != "" &&
       !accepts(d.exportProp.value.idname, Scalar(Bool(b))))
  {
    if d.exportProp.Some? then Assign(vals, accepts, d.exportProp.value.idname, Scalar(Bool(b)))
    else Some(vals)
  }

  /** `ClsList.get_by_fds_label`: the first class in the list with that FDS label. */
  function FindByLabel(cs: seq<Desc>, key: string): (r: Option<Desc>)
    ensures r.Some? ==> r.value in cs && r.value.fdsLabel == key
    ensures r.None? <==> forall c :: c in cs ==> c.fdsLabel != key
  {
    if |cs| == 0 then None
    else if cs[0].fdsLabel == key then Some(cs[0])
    else
      assert forall c :: c in cs ==> c == cs[0] || c in cs[1..];
      FindByLabel(cs[1..], key)
  }

  /** `ClsList.get(name)` / `all[name]`: the first class with that class name. */
  function FindByName(cs: seq<Desc>, name: string): (r: Option<Desc>)
    ensures r.Some? ==> r.value in cs && r.value.name == name
    ensures r.None? <==> forall c :: c in cs ==> c.name != name
  {
    if |cs| == 0 then None
    else if cs[0].name == name then Some(cs[0])
    else
      assert forall c :: c in cs ==> c == cs[0] || c in cs[1..];
      FindByName(cs[1..], name)
  }

  /** `bf_prop_free`: the first child that is a BFFreeProp. */
  function FreeProp(d: Desc): (r: Option<Desc>)
    ensures r.Some? ==> r.value in d.props && r.value.kind.FreeKind?
    ensures r.None? <==> forall p :: p in d.props ==> !p.kind.FreeKind?
  {
    FirstFree(d.props)
  }

  function FirstFree(ps: seq<Desc>): (r: Option<Desc>)
    ensures r.Some? ==> r.value in ps && r.value.kind.FreeKind?
    ensures r.None? <==> forall p :: p in ps ==> !p.kind.FreeKind?
  {
    if |ps| == 0 then None
    else if ps[0].kind.FreeKind? then Some(ps[0])
    else
      assert forall c :: c in ps ==> c == ps[0] || c in ps[1..];
      FirstFree(ps[1..])
  }
}
