/** The class registry the `subscribe` decorator fills: the collections
    `BFProp.all` and `BFNamelist.all`, and each class's `all_bf_props`. */
module Registry {
  import opened Descriptors

  /** A class's `all_bf_props`; a class never subscribed has the empty list
      it inherits. */
  function AllPropsOf(m: map<Desc, seq<Desc>>, c: Desc): (r: seq<Desc>)
  {
    if c in m then m[c] else []
  }

  /** Each of `ps`, followed by its own `all_bf_props` as already built. */
  function Gathered(ps: seq<Desc>, m: map<Desc, seq<Desc>>): (r: seq<Desc>)
  {
    if |ps| == 0 then []
    else Gathered(ps[..|ps| - 1], m) + [ps[|ps| - 1]] + AllPropsOf(m, ps[|ps| - 1])
  }

  /** The `all_bf_props` that `subscribe(cls)` builds. */
  function Subscribed(cls: Desc, m: map<Desc, seq<Desc>>): (r: seq<Desc>)
  {
    ExportPart(cls) + Gathered(cls.props, m)
  }

  /** The lists built for `ds` are complete. */
  predicate Built(m: map<Desc, seq<Desc>>, ds: seq<Desc>)
  {
    forall i :: 0 <= i < |ds| ==> AllPropsOf(m, ds[i]) == Transitive(ds[i])
  }

  lemma GatheredSnoc(ps: seq<Desc>, i: nat, m: map<Desc, seq<Desc>>)
    requires i < |ps|
    ensures Gathered(ps[..i + 1], m) == Gathered(ps[..i], m) + [ps[i]] + AllPropsOf(m, ps[i])
  {
    assert ps[..i + 1][..i] == ps[..i];
  }

  lemma {:induction false} GatheredIsClosure(ps: seq<Desc>, m: map<Desc, seq<Desc>>)
    requires Built(m, ps)
    ensures Gathered(ps, m) == Closure(ps)
  {
    if |ps| > 0 {
      var n := |ps| - 1;
      assert Built(m, ps[..n]) by {
        forall i | 0 <= i < n ensures AllPropsOf(m, ps[..n][i]) == Transitive(ps[..n][i]) {
          assert ps[..n][i] == ps[i];
        }
      }
      GatheredIsClosure(ps[..n], m);
      assert AllPropsOf(m, ps[n]) == Transitive(ps[n]);
    }
  }

  /** Subscribing bottom-up, children before the classes that list them (the
      order Python's class definitions impose), gives every class its whole
      transitive `all_bf_props`. */
  lemma SubscribeBottomUp(cls: Desc, m: map<Desc, seq<Desc>>)
    requires Built(m, cls.props)
    ensures Subscribed(cls, m) == Transitive(cls)
  {
    GatheredIsClosure(cls.props, m);
  }

  /** Subscribing a class whose children are complete keeps the lists built
      so far complete and adds its own. */
  lemma SubscribeKeepsBuilt(m: map<Desc, seq<Desc>>, ds: seq<Desc>, cls: Desc)
    requires Built(m, ds) && Built(m, cls.props)
    ensures Built(m[cls := Subscribed(cls, m)], ds + [cls])
  {
    SubscribeBottomUp(cls, m);
    var m1 := m[cls := Subscribed(cls, m)];
    var ds1 := ds + [cls];
    forall i | 0 <= i < |ds1| ensures AllPropsOf(m1, ds1[i]) == Transitive(ds1[i]) {
      if i < |ds| {
        assert ds1[i] == ds[i];
      }
    }
  }

  /** A class subscribed before one of its children keeps that child's part
      incomplete: the child's own descendants are missing. */
  lemma SubscribeTooEarly(cls: Desc, child: Desc, grandchild: Desc)
    requires cls.props == [child] && child.props == [grandchild]
    requires cls.exportProp.None? && child.exportProp.None?
    ensures Subscribed(cls, map[]) == [child]
    ensures Transitive(cls) == [child] + Transitive(child) && grandchild in Transitive(cls)
    ensures |Subscribed(cls, map[])| < |Transitive(cls)|
  {
    assert [child][..0] == [];
    assert Gathered([child], map[]) == [child];
    assert Closure([child]) == [child] + Transitive(child);
    assert [grandchild][..0] == [];
    assert Closure([grandchild]) == [grandchild] + Transitive(grandchild);
  }

  class Registry {
    /** `BFProp.all` */
    var props: seq<Desc>
    /** `BFNamelist.all` */
    var namelists: seq<Desc>
    /** `all_bf_props` of each subscribed class. */
    var allBfProps: map<Desc, seq<Desc>>

    constructor ()
      ensures props == [] && namelists == [] && allBfProps == map[]
    {
      props := [];
      namelists := [];
      allBfProps := map[];
    }

    /** The `subscribe` decorator. */
    method Subscribe(cls: Desc)
      modifies this
      ensures allBfProps == old(allBfProps)[cls := Subscribed(cls, old(allBfProps))]
      ensures cls.isNamelist ==> namelists == old(namelists) + [cls] && props == old(props)
      ensures !cls.isNamelist ==> props == old(props) + [cls] && namelists == old(namelists)
    {
      if cls.isNamelist {
        namelists := namelists + [cls];
      } else {
        props := props + [cls];
      }
      var all := AllBfProps(cls);
      allBfProps := allBfProps[cls := all];
    }

    /** The `all_bf_props` that `subscribe` builds for `cls` from the lists
        already built: its export property, then each child followed by the
        child's own `all_bf_props`. */
    method AllBfProps(cls: Desc) returns (all: seq<Desc>)
      ensures all == Subscribed(cls, allBfProps)
    {
      var head: seq<Desc> := [];
      if cls.exportProp.Some? {
        head := [cls.exportProp.value];
      }
      var gathered: seq<Desc> := [];
      var i := 0;
      while i < |cls.props|
        invariant 0 <= i <= |cls.props|
        invariant gathered == Gathered(cls.props[..i], allBfProps)
      {
        var p := cls.props[i];
        GatheredSnoc(cls.props, i, allBfProps);
        gathered := gathered + [p] + AllPropsOf(allBfProps, p);
        i := i + 1;
      }
      assert cls.props[..i] == cls.props;
      all := head + gathered;
    }
  }
}
