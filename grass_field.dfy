/**
 * GrassField: an instanced mesh of single-triangle grass blades scattered
 * over a width by height rectangle, with a shader material whose `time`
 * uniform drives the wind animation.
 *
 * Math.random() is a parameter: `random(k)` is the value returned by the
 * k-th call made while the field is built. A Matrix4 transform is the
 * record translate(pos) * scale(scale) * rotateY(angle).
 */
module GrassField {

  /** Math.PI, the double nearest to pi, as an exact rational. */
  const PI: real := 3.141592653589793

  /** The single-triangle blade template: three vertices, nine coordinates. */
  const BLADE_TEMPLATE: seq<real> := [0.0, 0.0, 0.0, 0.1, 0.0, 0.0, 0.05, 1.0, 0.0]

  type Random = nat -> real

  /** Every draw lies in [0, 1), as Math.random() promises. */
  ghost predicate UnitDraws(random: Random) {
    forall k :: 0.0 <= random(k) < 1.0
  }

  datatype Vec3 = Vec3(x: real, y: real, z: real)

  /** An instance matrix: translate(pos) * scale(scale) * rotateY(angle). */
  datatype Transform = Transform(pos: Vec3, scale: Vec3, angle: real)

  /** The identity matrix, the initial value of every instance slot. */
  const IDENTITY: Transform := Transform(Vec3(0.0, 0.0, 0.0), Vec3(1.0, 1.0, 1.0), 0.0)

  // ---------------------------------------------------------------------
  // The Matrix4 operations used by the placement loop, on the record
  // ---------------------------------------------------------------------

  /** matrix.makeScale(sx, sy, sz): overwrites the whole matrix. */
  function MakeScale(sx: real, sy: real, sz: real): Transform
  {
    Transform(Vec3(0.0, 0.0, 0.0), Vec3(sx, sy, sz), 0.0)
  }

  /** matrix.setPosition(x, y, z): replaces the translation only. */
  function SetPosition(m: Transform, x: real, y: real, z: real): Transform
  {
    m.(pos := Vec3(x, y, z))
  }

  /** matrix.multiply(makeRotationY(theta)): rotations about one axis add up. */
  function MultiplyRotationY(m: Transform, theta: real): Transform
  {
    m.(angle := m.angle + theta)
  }

  // ---------------------------------------------------------------------
  // Placement of one instance
  // ---------------------------------------------------------------------

  /** Index of the first of the four draws made for instance i. */
  function InstanceDraw(i: nat): nat
  {
    4 * i
  }

  /** The transform meant for instance i: x and z from the first two draws,
      the height scale and the Y rotation from the third and fourth. */
  function InstanceTransform(width: real, height: real, random: Random, i: nat): Transform
  {
    var k := InstanceDraw(i);
    Transform(
      Vec3((random(k) - 0.5) * width, 0.0, (random(k + 1) - 0.5) * height),
      Vec3(1.0, 0.5 + random(k + 2) * 0.5, 1.0),
      random(k + 3) * PI * 2.0)
  }

  /** One iteration of the loop applied to the reused matrix m: the result
      does not depend on m, because makeScale overwrites it. */
  lemma PlacementForgetsMatrix(m: Transform, width: real, height: real, random: Random, i: nat)
    ensures
      var k := InstanceDraw(i);
      var s := MakeScale(1.0, 0.5 + random(k + 2) * 0.5, 1.0);
      var placed := SetPosition(s, (random(k) - 0.5) * width, 0.0, (random(k + 1) - 0.5) * height);
      MultiplyRotationY(placed, random(k + 3) * PI * 2.0) == InstanceTransform(width, height, random, i)
  {
  }

  /** With draws in [0, 1) and a positive footprint, instance i stands at
      y = 0 inside [-width/2, width/2) x [-height/2, height/2), is scaled by
      (1, s, 1) with s in [0.5, 1.0), and is turned by an angle in [0, 2 PI). */
  lemma InstanceBounds(width: real, height: real, random: Random, i: nat)
    requires UnitDraws(random)
    requires width > 0.0 && height > 0.0
    ensures var t := InstanceTransform(width, height, random, i);
            && -width / 2.0 <= t.pos.x < width / 2.0
            && t.pos.y == 0.0
            && -height / 2.0 <= t.pos.z < height / 2.0
            && t.scale.x == 1.0 && t.scale.z == 1.0
            && 0.5 <= t.scale.y < 1.0
            && 0.0 <= t.angle < 2.0 * PI
  {
    var k := InstanceDraw(i);
    assert 0.0 <= random(k) < 1.0 && 0.0 <= random(k + 1) < 1.0;
    assert 0.0 <= random(k + 2) < 1.0 && 0.0 <= random(k + 3) < 1.0;
    CenteredDraw(random(k), width);
    CenteredDraw(random(k + 1), height);
  }

  /** A draw u in [0, 1) mapped by (u - 0.5) * extent lands in [-extent/2, extent/2). */
  lemma CenteredDraw(u: real, extent: real)
    requires 0.0 <= u < 1.0 && extent > 0.0
    ensures -extent / 2.0 <= (u - 0.5) * extent < extent / 2.0
  {
    assert 0.0 <= u * extent;
    assert (1.0 - u) * extent > 0.0;
  }

  /** The blade template is one triangle: three vertices, all with z = 0. */
  lemma BladeTemplateIsFlatTriangle()
    ensures |BLADE_TEMPLATE| == 9 && |BLADE_TEMPLATE| / 3 == 3
    ensures forall v :: 0 <= v < 3 ==> BLADE_TEMPLATE[3 * v + 2] == 0.0
  {
  }

  // ---------------------------------------------------------------------
  // three.js objects
  // ---------------------------------------------------------------------

  /** The grass ShaderMaterial's uniforms. */
  class ShaderMaterial {
    var time: real
    var windStrength: real

    constructor (windStrength: real)
      ensures this.time == 0.0 && this.windStrength == windStrength
    {
      this.time := 0.0;
      this.windStrength := windStrength;
    }
  }

  /** An InstancedMesh: shared geometry and material, and one matrix slot
      per instance. `written` lists the slots passed to setMatrixAt, in order. */
  class InstancedMesh {
    const geometry: seq<real>
    const material: ShaderMaterial
    const count: nat
    const instanceMatrix: array<Transform>
    ghost var written: seq<nat>

    ghost predicate Valid()
      reads this
    {
      instanceMatrix.Length == count
    }

    /** Every slot starts as the identity. */
    constructor (geometry: seq<real>, material: ShaderMaterial, count: nat)
      ensures Valid() && fresh(instanceMatrix)
      ensures this.geometry == geometry && this.material == material && this.count == count
      ensures forall i :: 0 <= i < count ==> instanceMatrix[i] == IDENTITY
      ensures written == []
    {
      this.geometry := geometry;
      this.material := material;
      this.count := count;
      instanceMatrix := new Transform[count](_ => IDENTITY);
      written := [];
    }

    /** setMatrixAt(index, m): stores m in slot index and nothing else. */
    method SetMatrixAt(index: nat, m: Transform)
      requires Valid() && index < count
      modifies instanceMatrix, this`written
      ensures Valid()
      ensures instanceMatrix[..] == old(instanceMatrix[..])[index := m]
      ensures written == old(written) + [index]
    {
      instanceMatrix[index] := m;
      written := written + [index];
    }
  }

  /** The values a GrassField holds, as one record. */
  datatype FieldState = FieldState(
    width: real, height: real, numBlades: nat, windStrength: real,
    time: real, windUniform: real, instances: seq<Transform>, written: seq<nat>)

  /** update(t) on the record: only the time uniform changes. */
  function UpdateState(s: FieldState, t: real): FieldState
  {
    s.(time := t)
  }

  /** Calling update twice with the same time is the same as calling it once. */
  lemma UpdateIdempotent(s: FieldState, t: real)
    ensures UpdateState(UpdateState(s, t), t) == UpdateState(s, t)
    ensures UpdateState(s, t).time == t
    ensures UpdateState(s, t).(time := s.time) == s
  {
  }

  /** 0, 1, ..., n - 1: the slots written by the placement loop, in order. */
  function Range(n: nat): (r: seq<nat>)
    ensures |r| == n && forall i :: 0 <= i < n ==> r[i] == i
  {
    if n == 0 then [] else Range(n - 1) + [n - 1]
  }

  class GrassField {
    var width: real
    var height: real
    var numBlades: nat
    var windStrength: real
    var grassMesh: InstancedMesh?

    ghost predicate Valid()
      reads this, grassMesh
    {
      grassMesh != null && grassMesh.Valid() && grassMesh.count == numBlades
    }

    /** The field built with `random`: material uniforms (0, windStrength),
        numBlades slots each written once, in order, with its own transform. */
    ghost predicate BuiltWith(random: Random)
      reads this, grassMesh
      reads if grassMesh == null then {} else {grassMesh.material, grassMesh.instanceMatrix}
    {
      && Valid()
      && grassMesh.material.time == 0.0
      && grassMesh.material.windStrength == windStrength
      && grassMesh.geometry == BLADE_TEMPLATE
      && grassMesh.written == Range(numBlades)
      && forall i :: 0 <= i < numBlades ==>
           grassMesh.instanceMatrix[i] == InstanceTransform(width, height, random, i)
    }

    ghost function State(): FieldState
      reads this, grassMesh
      reads if grassMesh == null then {} else {grassMesh.material, grassMesh.instanceMatrix}
      requires Valid()
    {
      FieldState(width, height, numBlades, windStrength,
                 grassMesh.material.time, grassMesh.material.windStrength,
                 grassMesh.instanceMatrix[..], grassMesh.written)
    }

    /** new GrassField(width, height, numBlades, windStrength): stores the
        arguments unchanged and builds the mesh. */
    constructor (width: real, height: real, numBlades: nat, windStrength: real, random: Random)
      ensures this.width == width && this.height == height
      ensures this.numBlades == numBlades && this.windStrength == windStrength
      ensures BuiltWith(random)
      ensures fresh(grassMesh) && fresh(grassMesh.material) && fresh(grassMesh.instanceMatrix)
    {
      this.width := width;
      this.height := height;
      this.numBlades := numBlades;
      this.windStrength := windStrength;
      new;
      grassMesh := CreateGrassField(random);
    }

    /** grassMaterial(): a fresh material with time 0 and this field's wind strength. */
    method GrassMaterial() returns (m: ShaderMaterial)
      ensures fresh(m) && m.time == 0.0 && m.windStrength == windStrength
    {
      m := new ShaderMaterial(windStrength);
    }

    /** createGrassField(): one slot per blade, each written exactly once, in
        order 0 .. numBlades - 1, with the transform of its own four draws. */
    method CreateGrassField(random: Random) returns (mesh: InstancedMesh)
      ensures fresh(mesh) && fresh(mesh.material) && fresh(mesh.instanceMatrix)
      ensures mesh.Valid() && mesh.count == numBlades && mesh.geometry == BLADE_TEMPLATE
      ensures mesh.material.time == 0.0 && mesh.material.windStrength == windStrength
      ensures mesh.written == Range(numBlades)
      ensures forall i :: 0 <= i < numBlades ==>
                mesh.instanceMatrix[i] == InstanceTransform(width, height, random, i)
    {
      var material := GrassMaterial();
      mesh := new InstancedMesh(BLADE_TEMPLATE, material, numBlades);
      var matrix := IDENTITY;
      var draw := 0;
      for i := 0 to numBlades
        invariant mesh.Valid() && mesh.count == numBlades
        invariant draw == InstanceDraw(i)
        invariant mesh.written == Range(i)
        invariant forall k :: 0 <= k < i ==>
                    mesh.instanceMatrix[k] == InstanceTransform(width, height, random, k)
        invariant mesh.material.time == 0.0 && mesh.material.windStrength == windStrength
      {
        var x := (random(draw) - 0.5) * width;
        var z := (random(draw + 1) - 0.5) * height;
        var y := 0.0;
        var scale := 0.5 + random(draw + 2) * 0.5;
        matrix := MakeScale(1.0, scale, 1.0);
        matrix := SetPosition(matrix, x, y, z);
        matrix := MultiplyRotationY(matrix, random(draw + 3) * PI * 2.0);
        assert matrix == InstanceTransform(width, height, random, i);
        draw := draw + 4;
        mesh.SetMatrixAt(i, matrix);
      }
    }

    /** update(time): sets the time uniform and changes nothing else. */
    method Update(time: real)
      requires Valid()
      modifies grassMesh.material
      ensures Valid()
      ensures State() == UpdateState(old(State()), time)
    {
      grassMesh.material.time := time;
    }
  }

  /** Ground.createGrassField: a 10 x 10 field of 1000 blades with wind
      strength 5; every blade stands inside [-5, 5) x [-5, 5). */
  method GroundScenario(random: Random) returns (field: GrassField)
    requires UnitDraws(random)
    ensures fresh(field) && field.Valid() && field.grassMesh.count == 1000
    ensures field.grassMesh.material.windStrength == 5.0
    ensures forall i :: 0 <= i < 1000 ==>
              var t := field.grassMesh.instanceMatrix[i];
              -5.0 <= t.pos.x < 5.0 && -5.0 <= t.pos.z < 5.0
  {
    field := new GrassField(10.0, 10.0, 1000, 5.0, random);
    forall i | 0 <= i < 1000
      ensures var t := field.grassMesh.instanceMatrix[i];
              -5.0 <= t.pos.x < 5.0 && -5.0 <= t.pos.z < 5.0
    {
      InstanceBounds(10.0, 10.0, random, i);
    }
  }
}
