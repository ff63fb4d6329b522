/**
 * SceneManager: owns the scene's ordered child list and releases the GPU
 * resources (geometries and materials) of the objects it removes.
 *
 * Objects are values: an Object3D carries its identity, whether it is a
 * THREE.Mesh, its geometry and material(s) if it has them, and its
 * children. Calling `dispose()` on a geometry or material is recorded by
 * appending its identity to the manager's `disposed` log.
 */
module SceneManager {
  import opened Wrappers

  /** Identity of a geometry or a material. */
  type ResourceId = nat

  /** Identity of a scene object. */
  type ObjectId = nat

  /** The `material` property: absent, one material, or an array of them. */
  datatype MaterialSlot = NoMaterial | Single(material: ResourceId) | Many(materials: seq<ResourceId>)

  /** `Mesh` for every instance of THREE.Mesh (InstancedMesh included);
      `Other` for every other Object3D (Group, Line, Points, ...). */
  datatype Kind = Mesh | Other

  datatype Object3D = Object3D(
    id: ObjectId,
    kind: Kind,
    geometry: Option<ResourceId>,
    material: MaterialSlot,
    children: seq<Object3D>)

  // ---------------------------------------------------------------------
  // What each operation releases
  // ---------------------------------------------------------------------

  /** The material identities held in a material slot, in array order. */
  function Materials(slot: MaterialSlot): seq<ResourceId>
  {
    match slot
    case NoMaterial => []
    case Single(m) => [m]
    case Many(ms) => ms
  }

  /** The resources of one object, in the order they are disposed:
      its geometry if it has one, then its material or materials. */
  function OwnResources(obj: Object3D): seq<ResourceId>
  {
    (if obj.geometry.Some? then [obj.geometry.value] else []) + Materials(obj.material)
  }

  /** What dispose(...objs) releases: each Mesh its own resources, each
      other object, recursively, what its children release. */
  function DisposeAll(objs: seq<Object3D>): seq<ResourceId>
    decreases objs
  {
    if objs == [] then []
    else
      var first := objs[0];
      assert first in objs;
      (if first.kind == Mesh then OwnResources(first) else DisposeAll(first.children))
      + DisposeAll(objs[1..])
  }

  /** What remove(...objs) releases: each object's own resources, whatever
      its kind, and nothing of its children. */
  function ReleaseAll(objs: seq<Object3D>): seq<ResourceId>
  {
    if objs == [] then [] else OwnResources(objs[0]) + ReleaseAll(objs[1..])
  }

  /** The scene's child list after Object3D.remove(obj): the first
      occurrence of obj is taken out, if there is one. */
  function RemoveFirst(s: seq<Object3D>, obj: Object3D): seq<Object3D>
  {
    if s == [] then []
    else if s[0] == obj then s[1..]
    else [s[0]] + RemoveFirst(s[1..], obj)
  }

  /** The scene's child list after Object3D.remove(...objs), one argument after the other. */
  function RemoveEach(s: seq<Object3D>, objs: seq<Object3D>): seq<Object3D>
    decreases objs
  {
    if objs == [] then s else RemoveEach(RemoveFirst(s, objs[0]), objs[1..])
  }

  // ---------------------------------------------------------------------
  // Reachability by dispose
  // ---------------------------------------------------------------------

  /** obj is one of objs, or is reached from one of them through
      non-Mesh objects only: the objects dispose(...objs) looks at. */
  ghost predicate Visits(objs: seq<Object3D>, obj: Object3D)
    decreases objs
  {
    exists k :: 0 <= k < |objs| &&
      (objs[k] == obj || (objs[k].kind == Other && Visits(objs[k].children, obj)))
  }

  // ---------------------------------------------------------------------
  // Lemmas
  // ---------------------------------------------------------------------

  lemma {:induction false} DisposeAllAppend(a: seq<Object3D>, b: seq<Object3D>)
    ensures DisposeAll(a + b) == DisposeAll(a) + DisposeAll(b)
    decreases a
  {
    if a == [] {
      assert a + b == b;
    } else {
      assert (a + b)[0] == a[0];
      assert (a + b)[1..] == a[1..] + b;
      DisposeAllAppend(a[1..], b);
    }
  }

  /** dispose over one more Mesh: the earlier objects' releases, then the Mesh's own resources. */
  lemma DisposeAllStepMesh(objs: seq<Object3D>, k: nat)
    requires k < |objs| && objs[k].kind == Mesh
    ensures DisposeAll(objs[..k + 1]) == DisposeAll(objs[..k]) + OwnResources(objs[k])
  {
    assert objs[..k + 1] == objs[..k] + [objs[k]];
    DisposeAllAppend(objs[..k], [objs[k]]);
    assert [objs[k]][1..] == [];
  }

  /** dispose over one more non-Mesh: the earlier objects' releases, then its children's. */
  lemma DisposeAllStepOther(objs: seq<Object3D>, k: nat)
    requires k < |objs| && objs[k].kind == Other
    ensures DisposeAll(objs[..k + 1]) == DisposeAll(objs[..k]) + DisposeAll(objs[k].children)
  {
    assert objs[..k + 1] == objs[..k] + [objs[k]];
    DisposeAllAppend(objs[..k], [objs[k]]);
    assert [objs[k]][1..] == [];
  }

  lemma {:induction false} ReleaseAllAppend(a: seq<Object3D>, b: seq<Object3D>)
    ensures ReleaseAll(a + b) == ReleaseAll(a) + ReleaseAll(b)
  {
    if a == [] {
      assert a + b == b;
    } else {
      assert (a + b)[1..] == a[1..] + b;
      ReleaseAllAppend(a[1..], b);
    }
  }

  /** dispose does not look inside a Mesh: its children never matter. */
  lemma DisposeSkipsMeshChildren(mesh: Object3D, children: seq<Object3D>)
    requires mesh.kind == Mesh
    ensures DisposeAll([mesh.(children := children)]) == DisposeAll([mesh]) == OwnResources(mesh)
  {
  }

  /** dispose never releases a non-Mesh object's own geometry or material:
      it only recurses into its children. */
  lemma DisposeRecursesThroughOthers(obj: Object3D)
    requires obj.kind == Other
    ensures DisposeAll([obj]) == DisposeAll(obj.children)
  {
    assert [obj][1..] == [];
  }

  /** Every geometry and material of every Mesh that dispose visits is released. */
  lemma {:induction false} DisposeReleasesVisitedMeshes(objs: seq<Object3D>, mesh: Object3D, r: ResourceId)
    requires Visits(objs, mesh) && mesh.kind == Mesh && r in OwnResources(mesh)
    ensures r in DisposeAll(objs)
    decreases objs
  {
    var k :| 0 <= k < |objs| &&
      (objs[k] == mesh || (objs[k].kind == Other && Visits(objs[k].children, mesh)));
    assert objs == objs[..k] + [objs[k]] + objs[k + 1..];
    DisposeAllAppend(objs[..k] + [objs[k]], objs[k + 1..]);
    DisposeAllAppend(objs[..k], [objs[k]]);
    assert objs[k] in objs;
    if objs[k] == mesh {
      assert DisposeAll([objs[k]]) == OwnResources(mesh);
    } else {
      DisposeReleasesVisitedMeshes(objs[k].children, mesh, r);
      DisposeRecursesThroughOthers(objs[k]);
    }
  }

  /** Everything dispose releases belongs to a Mesh that it visits. */
  lemma {:induction false} DisposeReleasesOnlyVisitedMeshes(objs: seq<Object3D>, r: ResourceId)
    requires r in DisposeAll(objs)
    ensures exists mesh :: Visits(objs, mesh) && mesh.kind == Mesh && r in OwnResources(mesh)
    decreases objs
  {
    var first := objs[0];
    assert first in objs;
    if first.kind == Mesh && r in OwnResources(first) {
      assert Visits(objs, first);
    } else if first.kind == Other && r in DisposeAll(first.children) {
      DisposeReleasesOnlyVisitedMeshes(first.children, r);
      var mesh :| Visits(first.children, mesh) && mesh.kind == Mesh && r in OwnResources(mesh);
      assert Visits(objs, mesh);
    } else {
      assert r in DisposeAll(objs[1..]);
      DisposeReleasesOnlyVisitedMeshes(objs[1..], r);
      var mesh :| Visits(objs[1..], mesh) && mesh.kind == Mesh && r in OwnResources(mesh);
      var k :| 0 <= k < |objs[1..]| &&
        (objs[1..][k] == mesh || (objs[1..][k].kind == Other && Visits(objs[1..][k].children, mesh)));
      assert objs[k + 1] == objs[1..][k];
      assert Visits(objs, mesh);
    }
  }

  /** remove releases exactly the own resources of the objects passed to it. */
  lemma {:induction false} ReleaseAllExactlyOwn(objs: seq<Object3D>, r: ResourceId)
    ensures r in ReleaseAll(objs) <==> exists k :: 0 <= k < |objs| && r in OwnResources(objs[k])
  {
    if objs != [] {
      ReleaseAllExactlyOwn(objs[1..], r);
      if r in ReleaseAll(objs[1..]) {
        var k :| 0 <= k < |objs[1..]| && r in OwnResources(objs[1..][k]);
        assert r in OwnResources(objs[k + 1]);
      }
      if exists k :: 0 <= k < |objs| && r in OwnResources(objs[k]) {
        var k :| 0 <= k < |objs| && r in OwnResources(objs[k]);
        if k > 0 {
          assert r in OwnResources(objs[1..][k - 1]);
        }
      }
    }
  }

  lemma {:induction false} RemoveFirstMultiset(s: seq<Object3D>, obj: Object3D)
    ensures multiset(RemoveFirst(s, obj)) == multiset(s) - multiset{obj}
  {
    if s != [] {
      assert s == [s[0]] + s[1..];
      if s[0] != obj {
        RemoveFirstMultiset(s[1..], obj);
      }
    }
  }

  /** remove takes exactly the given objects out of the child list: each
      object loses one occurrence per time it is passed, every other child stays. */
  lemma {:induction false} RemoveEachMultiset(s: seq<Object3D>, objs: seq<Object3D>)
    ensures multiset(RemoveEach(s, objs)) == multiset(s) - multiset(objs)
    decreases objs
  {
    if objs != [] {
      var first, rest := objs[0], objs[1..];
      var after := RemoveFirst(s, first);
      assert RemoveEach(s, objs) == RemoveEach(after, rest);
      RemoveEachMultiset(after, rest);
      RemoveFirstMultiset(s, first);
      MultisetOfCons(objs);
      MultisetMinusMinus(multiset(s), multiset{first}, multiset(rest));
    }
  }

  lemma MultisetOfCons<T>(xs: seq<T>)
    requires xs != []
    ensures multiset(xs) == multiset{xs[0]} + multiset(xs[1..])
  {
    assert xs == [xs[0]] + xs[1..];
  }

  lemma AppendAssoc<T>(a: seq<T>, b: seq<T>, c: seq<T>)
    ensures a + b + c == a + (b + c)
  {
  }

  lemma MultisetMinusMinus<T>(a: multiset<T>, b: multiset<T>, c: multiset<T>)
    ensures a - b - c == a - (b + c)
  {
    forall x
      ensures (a - b - c)[x] == (a - (b + c))[x]
    {
    }
  }

  /** Removing every child, in order, leaves the child list empty. */
  lemma {:induction false} RemoveEachOfItself(s: seq<Object3D>)
    ensures RemoveEach(s, s) == []
  {
    if s != [] {
      RemoveEachOfItself(s[1..]);
    }
  }

  // ---------------------------------------------------------------------
  // The manager
  // ---------------------------------------------------------------------

  class SceneManager {
    /** The scene's children, in order. */
    var children: seq<Object3D>
    /** Identities passed to dispose(), oldest first. */
    var disposed: seq<ResourceId>

    constructor ()
      ensures children == [] && disposed == []
    {
      children := [];
      disposed := [];
    }

    /** add(...objs): appends the objects to the scene's children. */
    method Add(objs: seq<Object3D>)
      modifies this
      ensures children == old(children) + objs
      ensures disposed == old(disposed)
    {
      children := children + objs;
    }

    /** Disposes one object's geometry, then its material or each of its materials. */
    method DisposeOwn(obj: Object3D)
      modifies this`disposed
      ensures disposed == old(disposed) + OwnResources(obj)
    {
      ghost var geometryPart := if obj.geometry.Some? then [obj.geometry.value] else [];
      assert OwnResources(obj) == geometryPart + Materials(obj.material);
      AppendAssoc(old(disposed), geometryPart, Materials(obj.material));
      if obj.geometry.Some? {
        disposed := disposed + [obj.geometry.value];
      }
      ghost var afterGeometry := disposed;
      match obj.material
      case NoMaterial =>
      case Single(m) =>
        disposed := disposed + [m];
      case Many(ms) =>
        for k := 0 to |ms|
          invariant disposed == afterGeometry + ms[..k]
        {
          assert ms[..k + 1] == ms[..k] + [ms[k]];
          AppendAssoc(afterGeometry, ms[..k], [ms[k]]);
          disposed := disposed + [ms[k]];
        }
        assert ms[..|ms|] == ms;
    }

    /** dispose(...objs): Meshes release their own resources; other
        objects pass the call on to their children. */
    method Dispose(objs: seq<Object3D>)
      modifies this`disposed
      ensures disposed == old(disposed) + DisposeAll(objs)
      decreases objs
    {
      for k := 0 to |objs|
        invariant disposed == old(disposed) + DisposeAll(objs[..k])
      {
        var obj := objs[k];
        if obj.kind == Mesh {
          DisposeOwn(obj);
          DisposeAllStepMesh(objs, k);
          AppendAssoc(old(disposed), DisposeAll(objs[..k]), OwnResources(obj));
        } else {
          assert obj in objs;
          Dispose(obj.children);
          DisposeAllStepOther(objs, k);
          AppendAssoc(old(disposed), DisposeAll(objs[..k]), DisposeAll(obj.children));
        }
      }
      assert objs[..|objs|] == objs;
    }

    /** clear(): empties the child list, then disposes the former children. */
    method Clear()
      modifies this
      ensures children == []
      ensures disposed == old(disposed) + DisposeAll(old(children))
    {
      var objs := children;
      RemoveEachOfItself(objs);
      children := RemoveEach(children, objs);
      Dispose(objs);
    }

    /** The forEach of remove(...objs): each object's own geometry and
        material(s) are disposed, whatever its kind. */
    method ReleaseEach(objs: seq<Object3D>)
      modifies this`disposed
      ensures disposed == old(disposed) + ReleaseAll(objs)
    {
      for k := 0 to |objs|
        invariant disposed == old(disposed) + ReleaseAll(objs[..k])
      {
        assert objs[..k + 1] == objs[..k] + [objs[k]];
        ReleaseAllAppend(objs[..k], [objs[k]]);
        assert ReleaseAll([objs[k]]) == OwnResources(objs[k]);
        DisposeOwn(objs[k]);
        AppendAssoc(old(disposed), ReleaseAll(objs[..k]), OwnResources(objs[k]));
      }
      assert objs[..|objs|] == objs;
    }

    /** remove(...objs): takes the objects out of the child list, then
        disposes each one's own geometry and material(s), never its children's. */
    method Remove(objs: seq<Object3D>)
      modifies this
      ensures children == RemoveEach(old(children), objs)
      ensures disposed == old(disposed) + ReleaseAll(objs)
    {
      children := RemoveEach(children, objs);
      ReleaseEach(objs);
    }
  }
}
