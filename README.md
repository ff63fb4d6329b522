# Grass renderer core: a Dafny model

This project models the parts of a three.js grass renderer that build GPU
data and manage resources. There are three modules, one per source file,
plus a small `Wrappers` module that holds `Option`.

- `GrassMeshes` (`grass_meshes.dfy`) covers `CreateTileGeometry`.
  - The index buffer has one list of triangles per blade, stored in a
    Uint16Array.
  - The offsets are a 32 x 32 grid of jittered per-instance positions.
  - `vertIndex` is a per-vertex attribute filled with 0 .. 14.
  - `instanceCount` is 1024.
  - If the offsets array comes out empty, the method returns early.

  Each loop is a `method` proved equal to a closed-form specification
  function (`IndexBuffer`, `Offsets`). Lemmas then state what those
  functions mean: triangle corners, shared edges, index bounds, the
  16-bit fit, jitter bounds and flat z.
- `GrassField` (`grass_field.dfy`) covers the `GrassField` class.
  - The constructor stores its four arguments.
  - `createGrassField` builds an `InstancedMesh` of single-triangle blades.
    One `Matrix4` is reused and overwritten for each blade, so every slot
    gets a transform that depends only on its own four random draws.
  - `grassMaterial` makes uniforms `time = 0` and `windStrength`.
  - `update(time)` sets the time uniform and changes nothing else.
- `SceneManager` (`scene_manager.dfy`) covers `add`, `remove`, `clear` and
  the recursive `dispose`.
  - Scene objects are values (`Object3D`).
  - The manager is a class with the scene's child list and a log of the
    geometries and materials passed to `dispose()`, in call order.
  - Lemmas say exactly which resources `dispose` and `remove` release, and
    which objects `remove` takes out of the child list (a multiset
    difference).

`Math.random()` is a parameter `random: nat -> real`: `random(k)` is the
value of the k-th call during one build. The lemmas that need draws in
[0, 1) require `UnitDraws(random)`.

The index buffer covers all 1024 blades: its entries run up to 15359. The
per-vertex `vertIndex` attribute has only 15 entries.
`IndicesWithinOneBlade` states that only blade 0's triangles stay below 15.
The model keeps the code as written.

## Model

| member | source | states |
|---|---|---|
| GrassMeshes.Uint16 | src/scripts/objects/GrassMeshes.js:38 | a Uint16Array store keeps a value below 2^16, and keeps any x < 2^16 unchanged |
| GrassMeshes.Uint8 | src/scripts/objects/GrassMeshes.js:61-64 | a Uint8Array store keeps a value below 2^8, and keeps any x < 2^8 unchanged |
| GrassMeshes.CreateIndexBuffer | src/scripts/objects/GrassMeshes.js:28-39 | the nested loops plus the Uint16Array conversion produce exactly `IndexBuffer()`, the closed form where entry k is vertex (k/3) mod 13 + k mod 3 of blade (k/3)/13 |
| GrassMeshes.IndexBufferLength | src/scripts/objects/GrassMeshes.js:30-37 | the buffer holds GRASS_BLADES * (GRASS_BLADE_VERTICES - 2) * 3 = 39936 indices |
| GrassMeshes.TriangleOfBlade | src/scripts/objects/GrassMeshes.js:31-35 | triangle j of blade i is (15i+j, 15i+j+1, 15i+j+2), and all three corners lie in blade i's range [15i, 15i+15) |
| GrassMeshes.ConsecutiveTrianglesShareEdge | src/scripts/objects/GrassMeshes.js:32-35 | triangle j+1 of a blade begins with the second and third corners of triangle j |
| GrassMeshes.IndicesInRange | src/scripts/objects/GrassMeshes.js:30-38 | every index is below GRASS_BLADES * GRASS_BLADE_VERTICES = 15360 < 2^16 |
| GrassMeshes.IndicesWithinOneBlade | src/scripts/objects/GrassMeshes.js:30-35 | an index is below 15, the length of the vertIndex attribute (lines 61-68), if and only if it belongs to blade 0's triangles |
| GrassMeshes.IndexBufferFitsUint16 | src/scripts/objects/GrassMeshes.js:38 | converting the index list to a Uint16Array changes no entry |
| GrassMeshes.RandRange | src/scripts/objects/GrassMeshes.js:24-26 | for a draw in [0, 1) and min < max, the result lies in [min, max) |
| GrassMeshes.CreateOffsets | src/scripts/objects/GrassMeshes.js:41-50 | the grid loops produce exactly `Offsets(random)`: for cell (i, j), the jittered x, the jittered y and 0, where cell (i, j) uses draws 2(32i+j) and 2(32i+j)+1 |
| GrassMeshes.OffsetsLength | src/scripts/objects/GrassMeshes.js:42-50 | the offsets array holds 3 * 32 * 32 = 3072 = 3 * GRASS_BLADES values, three per instance |
| GrassMeshes.OffsetBounds | src/scripts/objects/GrassMeshes.js:43-48 | cell (i, j) has x within [-0.2, 0.2) of (i/32 - 0.5) * 0.5, y within [-0.2, 0.2) of (j/32 - 0.5) * 0.5, and z = 0 |
| GrassMeshes.OffsetsFlat | src/scripts/objects/GrassMeshes.js:48 | every third component (z) of the offsets is 0 |
| GrassMeshes.CreateVertIndex | src/scripts/objects/GrassMeshes.js:61-64 | a fresh array of GRASS_BLADE_VERTICES entries where entry i is i |
| GrassMeshes.CreateTileGeometry | src/scripts/objects/GrassMeshes.js:23-75 | a geometry is returned if and only if the offsets are non-empty; it has instanceCount 1024, position = the offsets (three per instance), index = the index buffer, and vertIndex 0 .. 14 |
| GrassMeshes.TileGeometryAlwaysBuilt | src/scripts/objects/GrassMeshes.js:52-55 | the offsets are never empty, so the early-return branch is never taken |
| GrassField.PlacementForgetsMatrix | src/scripts/objects/GrassField.js:36-52 | one loop pass (makeScale, setPosition, multiply by rotateY) gives instance i's transform whatever the reused matrix held before |
| GrassField.InstanceBounds | src/scripts/objects/GrassField.js:37-50 | with draws in [0, 1) and a positive footprint, blade i stands at y = 0 in [-w/2, w/2) x [-h/2, h/2), is scaled by (1, s, 1) with s in [0.5, 1), and is turned by an angle in [0, 2 PI) |
| GrassField.BladeTemplateIsFlatTriangle | src/scripts/objects/GrassField.js:24 | the blade template holds three vertices (nine coordinates), all with z = 0 |
| GrassField.ShaderMaterial.constructor | src/scripts/objects/GrassField.js:62-65 | a material starts with time 0 and the given wind strength |
| GrassField.InstancedMesh.constructor | src/scripts/objects/GrassField.js:30-34 | a mesh with the given geometry, material and count, and every instance matrix set to the identity |
| GrassField.InstancedMesh.SetMatrixAt | src/scripts/objects/GrassField.js:52 | stores the matrix in the given slot, changes no other slot, and logs the slot |
| GrassField.UpdateIdempotent | src/scripts/objects/GrassField.js:102-104 | updating twice with the same time is the same as updating once; update sets time, and restoring the old time gives back the old state |
| GrassField.GrassField.constructor | src/scripts/objects/GrassField.js:12-20 | stores width, height, numBlades and windStrength unchanged and builds the field (`BuiltWith(random)`) |
| GrassField.GrassField.GrassMaterial | src/scripts/objects/GrassField.js:58-69 | a fresh material with time 0 and the field's wind strength |
| GrassField.GrassField.CreateGrassField | src/scripts/objects/GrassField.js:22-56 | a fresh mesh of numBlades slots over the blade template; slots are written exactly once each, in order 0 .. numBlades-1, each with the transform from its own four draws; material uniforms are (0, windStrength) |
| GrassField.GrassField.Update | src/scripts/objects/GrassField.js:102-104 | the new state is the old state with only the time uniform replaced |
| GrassField.GroundScenario | src/scripts/objects/Ground.js:25-28 | the 10 x 10 field of 1000 blades with wind strength 5 keeps every blade inside [-5, 5) x [-5, 5) |
| SceneManager.DisposeAllAppend | src/scripts/managers/SceneManager.js:18-34 | disposing a + b releases what disposing a releases, then what disposing b releases |
| SceneManager.ReleaseAllAppend | src/scripts/managers/SceneManager.js:40-49 | remove's releases over a + b are a's, then b's |
| SceneManager.DisposeSkipsMeshChildren | src/scripts/managers/SceneManager.js:20-29 | dispose of a Mesh releases its own geometry and materials, whatever its children are |
| SceneManager.DisposeRecursesThroughOthers | src/scripts/managers/SceneManager.js:30-32 | dispose of a non-Mesh releases exactly what disposing its children releases, and none of its own resources |
| SceneManager.DisposeReleasesVisitedMeshes | src/scripts/managers/SceneManager.js:18-34 | every resource of every Mesh reachable through non-Mesh objects is released |
| SceneManager.DisposeReleasesOnlyVisitedMeshes | src/scripts/managers/SceneManager.js:18-34 | every released resource belongs to a Mesh reachable through non-Mesh objects |
| SceneManager.ReleaseAllExactlyOwn | src/scripts/managers/SceneManager.js:40-49 | remove releases a resource if and only if it is the geometry or a material of one of the objects passed in |
| SceneManager.RemoveFirstMultiset | src/scripts/managers/SceneManager.js:38 | taking one object out of the child list removes one occurrence of it and keeps every other child |
| SceneManager.RemoveEachMultiset | src/scripts/managers/SceneManager.js:38 | removing a list of objects leaves the old children as a multiset minus the removed objects |
| SceneManager.RemoveEachOfItself | src/scripts/managers/SceneManager.js:13-14 | removing a copy of the whole child list leaves it empty |
| SceneManager.SceneManager.constructor | src/scripts/managers/SceneManager.js:4-6 | a new scene has no children and nothing disposed |
| SceneManager.SceneManager.Add | src/scripts/managers/SceneManager.js:8-10 | the objects are appended to the children in order; nothing is disposed |
| SceneManager.SceneManager.DisposeOwn | src/scripts/managers/SceneManager.js:21-28 | disposes the geometry if present, then the single material or each material in array order |
| SceneManager.SceneManager.Dispose | src/scripts/managers/SceneManager.js:18-34 | the disposed log grows by exactly `DisposeAll(objs)`: Meshes release their own resources, other objects recurse into their children |
| SceneManager.SceneManager.Clear | src/scripts/managers/SceneManager.js:12-16 | the child list becomes empty and the former children are disposed recursively, in order |
| SceneManager.SceneManager.ReleaseEach | src/scripts/managers/SceneManager.js:40-49 | the disposed log grows by each object's own resources in order, whatever its kind |
| SceneManager.SceneManager.Remove | src/scripts/managers/SceneManager.js:36-50 | the objects leave the child list (first occurrence, argument by argument), and only their own geometry and materials are disposed, never their children's |

## Left out

- Half-float packing (`THREE.DataUtils.toHalfFloat` into a Uint16Array, GrassMeshes.js:57-59) is left out. The positions are kept as exact reals, because IEEE rounding is not modelled.
- Float32Array and Float64 rounding are left out everywhere. Coordinates, scales, angles and `Math.PI` are exact reals.
- `Math.random()` is left out as a generator. It is an injected sequence of draws, and only its promise of results in [0, 1) is used.
- Three.js `Matrix4` arithmetic is left out. A transform is the record (position, scale, Y angle). `makeScale` resets it, `setPosition` replaces the translation, and multiplying by `makeRotationY` adds to the angle, which covers the only use of these operations here.
- GrassMeshes constructor plumbing (GrassMeshes.js:10-21) is left out: the MeshStandardMaterial, the Mesh and the call to `sceneManager.add`. It only wires objects together.
- The `console.error` message on the empty-offsets branch is left out. That branch returns `None`.
- The GLSL shaders (GrassField.js:72-99) are left out. They run on the GPU, so only their uniforms are modelled.
- Material options other than the uniforms (`side`, `transparent`) are left out.
- `GrassField.GrassField.constructor`: `numBlades` is a `nat`. A negative or fractional count, which the source would pass to `InstancedMesh`, is not modelled.
- Three.js scene-graph details of `add` and `remove` are left out:
  - re-parenting an object that already has a parent;
  - refusing to add the scene to itself;
  - the `removed`/`added` events, and `parent` pointers.

  `add` is modelled as an append, and `remove` as taking out the first occurrence.
- `SceneManager.SceneManager.Dispose`: arguments are always `Object3D` values. The source's third case in `dispose`, an argument that is not an `Object3D` and is skipped, is not modelled.
- What `dispose()` does inside three.js (freeing GPU buffers) is left out. Each call is recorded as an entry in the `disposed` log.
- The app, camera, renderer and light managers are not part of this model, and neither are the Car and the Ground wiring, apart from the `GrassField(10, 10, 1000, 5)` call in `GroundScenario`.
