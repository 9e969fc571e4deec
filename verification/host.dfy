/** The host application's element (a scene, an object or a material) as
    the engine sees it: its property values by `bpy_idname`, and which
    assignments the host accepts. */
module Host {
  import opened Options
  import opened Values
  import opened Errors

  class Element {
    const name: string
    var values: Values
    /** Whether `setattr(element, idname, value)` succeeds; when it does not
        the host raises. */
    const accepts: Accepts

    constructor (name: string, values: Values, accepts: Accepts)
      ensures this.name == name && this.values == values && this.accepts == accepts
    {
      this.name := name;
      this.values := values;
      this.accepts := accepts;
    }

    /** `_BFCommon.set_value`: nothing happens without an idname; a value
        the host refuses raises and leaves the element as it was. */
    method SetValue(idname: string, v: Value) returns (raised: Option<Exc>)
      modifies this
      ensures raised.None? <==> Assign(old(values), accepts, idname, v).Some?
      ensures raised.None? ==> values == Assign(old(values), accepts, idname, v).value
      ensures raised.Some? ==> raised == Some(Crash(HostRejected)) && values == old(values)
    {
      var r := Assign(values, accepts, idname, v);
      if r.Some? {
        values := r.value;
        raised := None;
      } else {
        raised := Some(Crash(HostRejected));
      }
    }
  }
}
