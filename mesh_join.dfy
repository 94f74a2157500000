/** `join_similar_named_meshes`: the meshes of the scene are grouped by the
    part of their name before the first dot, in scene order, and every group
    of two or more is joined into its first member. The join itself is a
    Blender operator; the model records which objects each call would make
    active and select. */
module MeshJoin {
  import opened Effects
  import opened Streams

  /** `name.split('.')[0]`: the name up to its first dot. */
  function BaseName(name: string): (b: string)
    ensures |b| <= |name| && b == name[..|b|]
    ensures forall i :: 0 <= i < |b| ==> b[i] != '.'
    ensures |b| < |name| ==> name[|b|] == '.'
  {
    if name == [] || name[0] == '.' then [] else [name[0]] + BaseName(name[1..])
  }

  predicate IsMesh(o: SceneObject) {
    o.objType == MESH
  }

  /** The meshes of `objs` whose base name is `b`, in scene order: the list
      the dictionary holds under `b` once the loop is over. */
  function MeshesNamed(objs: seq<SceneObject>, b: string): seq<SceneObject>
    decreases |objs|
  {
    if objs == [] then []
    else
      var o := objs[|objs| - 1];
      MeshesNamed(objs[..|objs| - 1], b) + if IsMesh(o) && BaseName(o.name) == b then [o] else []
  }

  /** The base names in the order they first appear: the dictionary's key
      order. */
  function BaseOrder(objs: seq<SceneObject>): seq<string>
    decreases |objs|
  {
    if objs == [] then []
    else
      var o, prev := objs[|objs| - 1], BaseOrder(objs[..|objs| - 1]);
      if IsMesh(o) && BaseName(o.name) !in prev then prev + [BaseName(o.name)] else prev
  }

  /** A dictionary key is the base name of a mesh, a mesh's base name is a
      key, and no key is repeated. */
  lemma {:induction false} BaseOrderKeys(objs: seq<SceneObject>)
    ensures forall b :: b in BaseOrder(objs) <==> MeshesNamed(objs, b) != []
    ensures forall i, j :: 0 <= i < j < |BaseOrder(objs)| ==> BaseOrder(objs)[i] != BaseOrder(objs)[j]
    decreases |objs|
  {
    if objs != [] {
      BaseOrderKeys(objs[..|objs| - 1]);
    }
  }

  /** A list holds exactly the meshes of `objs` with base name `b`. */
  lemma {:induction false} MeshesNamedMembers(objs: seq<SceneObject>, b: string)
    ensures forall o :: o in MeshesNamed(objs, b) <==> o in objs && IsMesh(o) && BaseName(o.name) == b
    decreases |objs|
  {
    if objs != [] {
      var init := objs[..|objs| - 1];
      MeshesNamedMembers(init, b);
      assert objs == init + [objs[|objs| - 1]];
    }
  }

  /** Each mesh of the scene lands in the list of its own base name and in
      no other. */
  lemma MeshInOneBucket(objs: seq<SceneObject>, o: SceneObject, b: string)
    requires o in objs && IsMesh(o)
    ensures o in MeshesNamed(objs, b) <==> b == BaseName(o.name)
    ensures BaseName(o.name) in BaseOrder(objs)
  {
    MeshesNamedMembers(objs, b);
    MeshesNamedMembers(objs, BaseName(o.name));
    BaseOrderKeys(objs);
  }

  /** `objs[k]` is the first mesh of `objs` with base name `b`. */
  predicate FirstNamed(objs: seq<SceneObject>, b: string, k: nat)
    requires k < |objs|
  {
    IsMesh(objs[k]) && BaseName(objs[k].name) == b
    && forall k' :: 0 <= k' < k ==> !(IsMesh(objs[k']) && BaseName(objs[k'].name) == b)
  }

  /** The first member of a list is the first mesh of the scene with that
      base name. */
  lemma {:induction false} FirstMember(objs: seq<SceneObject>, b: string)
    requires MeshesNamed(objs, b) != []
    ensures exists k :: 0 <= k < |objs| && objs[k] == MeshesNamed(objs, b)[0] && FirstNamed(objs, b, k)
    decreases |objs|
  {
    var init := objs[..|objs| - 1];
    if MeshesNamed(init, b) != [] {
      FirstMember(init, b);
      var k :| 0 <= k < |init| && init[k] == MeshesNamed(init, b)[0] && FirstNamed(init, b, k);
      FirstNamedInit(objs, b, k);
    } else {
      var k := |objs| - 1;
      FirstNamedLast(objs, b);
      assert objs[k] == MeshesNamed(objs, b)[0] && FirstNamed(objs, b, k);
    }
  }

  /** A first match among all but the last object stays the first match. */
  lemma FirstNamedInit(objs: seq<SceneObject>, b: string, k: nat)
    requires k < |objs| - 1 && MeshesNamed(objs[..|objs| - 1], b) != []
    requires FirstNamed(objs[..|objs| - 1], b, k)
    requires objs[..|objs| - 1][k] == MeshesNamed(objs[..|objs| - 1], b)[0]
    ensures objs[k] == MeshesNamed(objs, b)[0] && FirstNamed(objs, b, k)
  {
    var init := objs[..|objs| - 1];
    var g := MeshesNamed(init, b);
    assert MeshesNamed(objs, b)[..|g|] == g;
    assert objs[k] == init[k];
    forall k' | 0 <= k' < k
      ensures !(IsMesh(objs[k']) && BaseName(objs[k'].name) == b)
    {
      assert objs[k'] == init[k'];
    }
  }

  /** When no earlier object matches, a match is the last object, and it is
      the first. */
  lemma FirstNamedLast(objs: seq<SceneObject>, b: string)
    requires objs != [] && MeshesNamed(objs[..|objs| - 1], b) == [] && MeshesNamed(objs, b) != []
    ensures MeshesNamed(objs, b) == [objs[|objs| - 1]] && FirstNamed(objs, b, |objs| - 1)
  {
    var init := objs[..|objs| - 1];
    MeshesNamedMembers(init, b);
    forall k' | 0 <= k' < |objs| - 1
      ensures !(IsMesh(objs[k']) && BaseName(objs[k'].name) == b)
    {
      assert objs[k'] == init[k'] && init[k'] in init;
    }
  }

  /** The first loop of `join_similar_named_meshes`: the dictionary from
      base names to meshes, with its keys in insertion order. */
  method BuildBuckets(objs: seq<SceneObject>) returns (order: seq<string>, buckets: map<string, seq<SceneObject>>)
    ensures order == BaseOrder(objs)
    ensures buckets.Keys == set b | b in order
    ensures forall b :: b in buckets ==> buckets[b] == MeshesNamed(objs, b)
  {
    order, buckets := [], map[];
    for i := 0 to |objs|
      invariant order == BaseOrder(objs[..i])
      invariant buckets.Keys == set b | b in order
      invariant forall b :: b in buckets ==> buckets[b] == MeshesNamed(objs[..i], b)
    {
      TakeSnoc(objs, i);
      assert (objs[..i + 1])[..i] == objs[..i];
      BaseOrderKeys(objs[..i]);
      var o := objs[i];
      if IsMesh(o) {
        var b := BaseName(o.name);
        if b !in buckets {
          buckets := buckets[b := []];
          order := order + [b];
        }
        buckets := buckets[b := buckets[b] + [o]];
      }
    }
    TakeAll(objs);
  }

  /** One call of the join: the object made active and the objects
      selected, which Blender merges into the active one. */
  datatype Join = Join(active: SceneObject, selected: seq<SceneObject>)

  /** The joins the second loop makes for the keys `order`, in order: one
      per list of two or more meshes. */
  function Joins(objs: seq<SceneObject>, order: seq<string>): seq<Join>
    decreases |order|
  {
    if order == [] then []
    else
      var group := MeshesNamed(objs, order[|order| - 1]);
      Joins(objs, order[..|order| - 1]) + if |group| > 1 then [Join(group[0], group)] else []
  }

  /** The joins `join_similar_named_meshes` makes on the scene `objs`. */
  function JoinsFor(objs: seq<SceneObject>): seq<Join> {
    Joins(objs, BaseOrder(objs))
  }

  /** `join_similar_named_meshes`: `joins` lists the join calls in the
      order they are made. */
  method JoinSimilarNamedMeshes(objs: seq<SceneObject>) returns (joins: seq<Join>)
    ensures joins == JoinsFor(objs)
  {
    var order, buckets := BuildBuckets(objs);
    joins := [];
    for i := 0 to |order|
      invariant joins == Joins(objs, order[..i])
    {
      TakeSnoc(order, i);
      assert (order[..i + 1])[..i] == order[..i];
      var objects := buckets[order[i]];
      if |objects| > 1 {
        joins := joins + [Join(objects[0], objects)];
      }
    }
    TakeAll(order);
  }

  /** Every join selects a whole group of two or more meshes sharing a base
      name, and makes its first member active; every such group is joined. */
  lemma {:induction false} JoinsAreGroups(objs: seq<SceneObject>, order: seq<string>)
    ensures forall j :: j in Joins(objs, order) ==>
      |j.selected| > 1 && j.active == j.selected[0]
      && exists b :: b in order && j.selected == MeshesNamed(objs, b)
    ensures forall b :: b in order && |MeshesNamed(objs, b)| > 1 ==>
      Join(MeshesNamed(objs, b)[0], MeshesNamed(objs, b)) in Joins(objs, order)
    decreases |order|
  {
    if order != [] {
      var init := order[..|order| - 1];
      var last := order[|order| - 1];
      JoinsAreGroups(objs, init);
      assert order == init + [last];
      forall j | j in Joins(objs, order)
        ensures exists b :: b in order && j.selected == MeshesNamed(objs, b)
      {
        if j in Joins(objs, init) {
          var b :| b in init && j.selected == MeshesNamed(objs, b);
          assert b in order;
        } else {
          assert j.selected == MeshesNamed(objs, last);
        }
      }
    }
  }

  /** A mesh is selected by some join exactly when another mesh shares its
      base name; a single mesh and every other object are left alone. */
  lemma JoinedIffShared(objs: seq<SceneObject>, o: SceneObject)
    requires o in objs
    ensures (exists j :: j in JoinsFor(objs) && o in j.selected) <==>
      IsMesh(o) && |MeshesNamed(objs, BaseName(o.name))| > 1
  {
    JoinsAreGroups(objs, BaseOrder(objs));
    if exists j :: j in JoinsFor(objs) && o in j.selected {
      var j :| j in JoinsFor(objs) && o in j.selected;
      var b :| b in BaseOrder(objs) && j.selected == MeshesNamed(objs, b);
      MeshesNamedMembers(objs, b);
    }
    if IsMesh(o) && |MeshesNamed(objs, BaseName(o.name))| > 1 {
      MeshInOneBucket(objs, o, BaseName(o.name));
      var g := MeshesNamed(objs, BaseName(o.name));
      assert o in Join(g[0], g).selected;
    }
  }

  /** Two different joins select no common object. */
  lemma JoinsDisjoint(objs: seq<SceneObject>, j1: Join, j2: Join, o: SceneObject)
    requires j1 in JoinsFor(objs) && j2 in JoinsFor(objs)
    requires o in j1.selected && o in j2.selected
    ensures j1 == j2
  {
    JoinsAreGroups(objs, BaseOrder(objs));
    var b1 :| b1 in BaseOrder(objs) && j1.selected == MeshesNamed(objs, b1);
    var b2 :| b2 in BaseOrder(objs) && j2.selected == MeshesNamed(objs, b2);
    MeshesNamedMembers(objs, b1);
    MeshesNamedMembers(objs, b2);
  }
}
