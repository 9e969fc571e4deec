/** `BFObject._children_to_fds`: the children of an object, in the order
    they are exported, and their bodies. */
module Objects {
  import opened Options
  import opened Text
  import opened Order

  /** An object of the scene, as far as the export order sees it: its
      name, the name of its namelist class and its parent's name. */
  datatype Obj = Obj(name: string, namelistCls: string, parent: Option<string>)

  const MeshNamelist := "ON_MESH"

  function ObjName(o: Obj): (r: string)
  {
    o.name
  }

  /** The key of the second sort: ON_MESH children sort first. */
  function NotMesh(o: Obj): (r: bool)
  {
    o.namelistCls != MeshNamelist
  }

  /** The scene's objects whose parent is `parent`, in scene order; with
      `parent` None, the top-level objects, as the scene's export asks for
      with `self=None`. */
  function Children(objs: seq<Obj>, parent: Option<string>): (r: seq<Obj>)
  {
    Where(objs, (o: Obj) => o.parent == parent, true)
  }

  /** The two stable sorts, by name and then by the ON_MESH key. */
  function ChildOrder(objs: seq<Obj>, parent: Option<string>): (r: seq<Obj>)
  {
    FalseFirst(SortByName(Children(objs, parent), ObjName), NotMesh)
  }

  /** Each child of `parent` is exported once and nothing else is; the
      ON_MESH children come first, and each group is in name order. */
  lemma ChildOrderFacts(objs: seq<Obj>, parent: Option<string>)
    ensures multiset(ChildOrder(objs, parent)) == multiset(Children(objs, parent))
    ensures forall o :: o in ChildOrder(objs, parent) <==> o in objs && o.parent == parent
    ensures forall i, j :: 0 <= i < j < |ChildOrder(objs, parent)| && NotMesh(ChildOrder(objs, parent)[i]) ==>
      NotMesh(ChildOrder(objs, parent)[j])
    ensures SortedBy(Where(ChildOrder(objs, parent), NotMesh, false), ObjName)
    ensures SortedBy(Where(ChildOrder(objs, parent), NotMesh, true), ObjName)
  {
    var byName := SortByName(Children(objs, parent), ObjName);
    FalseFirstPermutes(byName, NotMesh);
    FalseFirstOrders(byName, NotMesh);
    forall o ensures o in ChildOrder(objs, parent) <==> o in objs && o.parent == parent {
      assert o in ChildOrder(objs, parent) <==> o in multiset(Children(objs, parent));
      WhereMember(objs, (o: Obj) => o.parent == parent, true, o);
    }
    FalseFirstStable(byName, NotMesh, false);
    FalseFirstStable(byName, NotMesh, true);
    WhereSorted(byName, NotMesh, false, ObjName);
    WhereSorted(byName, NotMesh, true, ObjName);
  }

  /** The non-empty bodies, in order. */
  function Kept(bodies: seq<string>): (r: seq<string>)
  {
    if |bodies| == 0 then []
    else Kept(bodies[..|bodies| - 1]) + (if bodies[|bodies| - 1] != "" then [bodies[|bodies| - 1]] else [])
  }

  /** What `_children_to_fds` returns for the children's bodies: the
      non-empty ones, and a closing newline when there is any. */
  function Bodies(bodies: seq<string>): (r: seq<string>)
  {
    var k := Kept(bodies);
    if |k| > 0 then k + ["\n"] else k
  }

  /** Dropping the empty bodies does not change the text. */
  lemma {:induction false} KeptConcat(bodies: seq<string>)
    ensures Concat(Kept(bodies)) == Concat(bodies)
    ensures forall i :: 0 <= i < |Kept(bodies)| ==> Kept(bodies)[i] != ""
    ensures |Kept(bodies)| == 0 <==> Concat(bodies) == ""
  {
    if |bodies| > 0 {
      var init := bodies[..|bodies| - 1];
      var last := bodies[|bodies| - 1];
      KeptConcat(init);
      if last != "" {
        ConcatSnoc(Kept(init), last);
      } else {
        assert Kept(init) + [] == Kept(init);
      }
    }
  }

  /** The children's part of the object's text is the concatenation of the
      children's bodies, closed by a newline when it is not empty. */
  lemma BodiesText(bodies: seq<string>)
    ensures Concat(Bodies(bodies)) == if Concat(bodies) == "" then "" else Concat(bodies) + "\n"
    ensures forall i :: 0 <= i < |Bodies(bodies)| ==> Bodies(bodies)[i] != ""
  {
    KeptConcat(bodies);
    if |Kept(bodies)| > 0 {
      ConcatSnoc(Kept(bodies), "\n");
    }
  }

  /** Each child's body. */
  function Rendered(obs: seq<Obj>, render: Obj -> string): (r: seq<string>)
  {
    seq(|obs|, i requires 0 <= i < |obs| => render(obs[i]))
  }

  /** `BFObject._children_to_fds(context)`: `render` gives each child's
      `to_fds(context, with_children=True)`. */
  method ChildrenToFds(objs: seq<Obj>, parent: Option<string>, render: Obj -> string) returns (bodies: seq<string>)
    ensures bodies == Bodies(Rendered(ChildOrder(objs, parent), render))
  {
    var children := ChildOrder(objs, parent);
    ghost var rendered := Rendered(children, render);
    bodies := [];
    var i := 0;
    while i < |children|
      invariant 0 <= i <= |children|
      invariant bodies == Kept(rendered[..i])
    {
      var body := render(children[i]);
      assert rendered[..i + 1][..i] == rendered[..i];
      if body != "" {
        bodies := bodies + [body];
      }
      i := i + 1;
    }
    assert rendered[..i] == rendered;
    if |bodies| > 0 {
      bodies := bodies + ["\n"];
    }
  }
}
