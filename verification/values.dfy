/** The values a Blender property holds, the host element as a map from
    property idname to value, and the little of Python's semantics the
    descriptors rely on: `==`, truthiness, `getattr` and `setattr`. */
module Values {
  import opened Options

  /** One Python scalar as Blender stores it. */
  datatype Atom = Bool(b: bool) | Int(i: int) | Float(f: real) | Str(s: string)

  /** A property value: a scalar, or a homogeneous vector (a Blender array property or a tuple). */
  datatype Value =
    | Scalar(atom: Atom)
    | Bools(bs: seq<bool>)
    | Ints(ns: seq<int>)
    | Floats(fs: seq<real>)
    | Strs(ss: seq<string>)

  /** The Blender properties of one element (scene, object or material), by idname. */
  type Values = map<string, Value>

  /** Whether the host's property system accepts `setattr(element, idname, value)`;
      when it does not, the assignment raises. */
  type Accepts = (string, Value) -> bool

  predicate IsVector(v: Value)
  {
    !v.Scalar?
  }

  function Items(v: Value): (r: seq<Atom>)
    requires IsVector(v)
    ensures |r| == Length(v)
  {
    match v
    case Bools(bs) => seq(|bs|, i requires 0 <= i < |bs| => Bool(bs[i]))
    case Ints(ns) => seq(|ns|, i requires 0 <= i < |ns| => Int(ns[i]))
    case Floats(fs) => seq(|fs|, i requires 0 <= i < |fs| => Float(fs[i]))
    case Strs(ss) => seq(|ss|, i requires 0 <= i < |ss| => Str(ss[i]))
  }

  function Length(v: Value): (r: nat)
    requires IsVector(v)
  {
    match v
    case Bools(bs) => |bs|
    case Ints(ns) => |ns|
    case Floats(fs) => |fs|
    case Strs(ss) => |ss|
  }

  /** bool, int and float compare by number in Python (True == 1 == 1.0). */
  function Number(a: Atom): (r: Option<real>)
  {
    match a
    case Bool(b) => Some(if b then 1.0 else 0.0)
    case Int(i) => Some(i as real)
    case Float(f) => Some(f)
    case Str(_) => None
  }

  predicate AtomEq(a: Atom, b: Atom)
  {
    if Number(a).Some? && Number(b).Some? then Number(a) == Number(b)
    else a.Str? && b.Str? && a.s == b.s
  }

  /** Python's `a == b` on property values: a scalar never equals a sequence,
      sequences are equal element by element. */
  predicate PyEq(a: Value, b: Value)
  {
    if a.Scalar? || b.Scalar? then a.Scalar? && b.Scalar? && AtomEq(a.atom, b.atom)
    else
      var xs, ys := Items(a), Items(b);
      |xs| == |ys| && forall i :: 0 <= i < |xs| ==> AtomEq(xs[i], ys[i])
  }

  /** Python's `bool(v)`; `None` is false. */
  predicate Truthy(v: Option<Value>)
  {
    match v
    case None => false
    case Some(Scalar(Bool(b))) => b
    case Some(Scalar(Int(i))) => i != 0
    case Some(Scalar(Float(f))) => f != 0.0
    case Some(Scalar(Str(s))) => s != ""
    case Some(x) => Length(x) > 0
  }

  /** `getattr(element, idname or str(), None)`: no attribute is named "". */
  function GetValue(vals: Values, idname: string): (r: Option<Value>)
  {
    if idname != "" && idname in vals then Some(vals[idname]) else None
  }

  /** `if idname: setattr(element, idname, v)`; `None` when the host raises. */
  function Assign(vals: Values, accepts: Accepts, idname: string, v: Value): (r: Option<Values>)
  {
    if idname == "" then Some(vals)
    else if accepts(idname, v) then Some(vals[idname := v])
    else None
  }

  lemma AssignThenGet(vals: Values, accepts: Accepts, idname: string, v: Value)
    requires idname != "" && accepts(idname, v)
    ensures Assign(vals, accepts, idname, v).Some?
    ensures GetValue(Assign(vals, accepts, idname, v).value, idname) == Some(v)
  {
  }

  /** An information message of a descriptor: plain text, or text with the
      idname of an operator the panel offers beside it. */
  datatype Info = Message(text: string) | Action(text: string, operator: string)

  /** `is_iterable(info) and info[0] or info`, as `format` prints it: an action
      whose text is empty falls back to the tuple itself, printed as its repr. */
  function InfoText(info: Info): (r: string)
  {
    match info
    case Message(t) => t
    case Action(t, op) => if t != "" then t else "('', '" + op + "')"
  }
}
