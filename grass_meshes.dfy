/**
 * The instanced grass tile of GrassMeshes.CreateTileGeometry: one index
 * buffer for GRASS_BLADES blades of GRASS_BLADE_VERTICES vertices each, a
 * NUM_GRASS_X by NUM_GRASS_X grid of jittered per-instance offsets, and the
 * per-vertex `vertIndex` attribute.
 *
 * Math.random() is a parameter: `random(k)` is the value returned by the
 * k-th call made while the tile is built.
 */
module GrassMeshes {
  import opened Wrappers

  const GRASS_BLADES: nat := 1024
  const GRASS_BLADE_VERTICES: nat := 15
  const NUM_GRASS_X: nat := 32
  const NUM_GRASS_Y: nat := 32
  const GRASS_PATH_SIZE: real := 0.5

  /** The k-th value returned by Math.random() during one build. */
  type Random = nat -> real

  /** Every draw lies in [0, 1), as Math.random() promises. */
  ghost predicate UnitDraws(random: Random) {
    forall k :: 0.0 <= random(k) < 1.0
  }

  // ---------------------------------------------------------------------
  // Typed-array stores
  // ---------------------------------------------------------------------

  /** The value a Uint16Array keeps when the non-negative integer x is stored. */
  function Uint16(x: nat): (r: nat)
    ensures r < 0x1_0000
    ensures x < 0x1_0000 ==> r == x
  {
    x % 0x1_0000
  }

  /** The value a Uint8Array keeps when the non-negative integer x is stored. */
  function Uint8(x: nat): (r: nat)
    ensures r < 0x100
    ensures x < 0x100 ==> r == x
  {
    x % 0x100
  }

  /** `new Uint16Array(xs)`: every element stored with Uint16. */
  function ToUint16Array(xs: seq<nat>): seq<nat>
  {
    seq(|xs|, k requires 0 <= k < |xs| => Uint16(xs[k]))
  }

  // ---------------------------------------------------------------------
  // Index buffer (CreateIndexBuffer)
  // ---------------------------------------------------------------------

  /** Triangles per blade: a strip of GRASS_BLADE_VERTICES vertices drawn as a list. */
  const BLADE_TRIANGLES: nat := GRASS_BLADE_VERTICES - 2

  /** Entry k of the index buffer. Triangle t = k / 3 of the buffer is step
      t % BLADE_TRIANGLES of blade t / BLADE_TRIANGLES, and its corner k % 3
      is that step's vertex plus the corner number. */
  function IndexAt(k: nat): nat
  {
    var t := k / 3;
    GRASS_BLADE_VERTICES * (t / BLADE_TRIANGLES) + t % BLADE_TRIANGLES + k % 3
  }

  /** The first m entries of the index buffer. */
  function IndexPrefix(m: nat): seq<nat>
  {
    seq(m, k requires 0 <= k < m => IndexAt(k))
  }

  /** The whole index buffer, 3 * BLADE_TRIANGLES entries per blade. */
  function IndexBuffer(): seq<nat>
  {
    IndexPrefix(GRASS_BLADES * BLADE_TRIANGLES * 3)
  }

  /** Position in the index buffer of corner c of triangle j of blade i. */
  function Slot(i: nat, j: nat, c: nat): nat
  {
    3 * (BLADE_TRIANGLES * i + j) + c
  }

  /** The entry at Slot(i, j, c) is vertex j + c of blade i. */
  lemma IndexAtSlot(i: nat, j: nat, c: nat)
    requires j < BLADE_TRIANGLES && c < 3
    ensures IndexAt(Slot(i, j, c)) == GRASS_BLADE_VERTICES * i + j + c
  {
    var t := BLADE_TRIANGLES * i + j;
    assert Slot(i, j, c) / 3 == t && Slot(i, j, c) % 3 == c;
    assert t / BLADE_TRIANGLES == i && t % BLADE_TRIANGLES == j;
  }

  /** Appending triangle j of blade i to the entries before it gives the
      entries up to and including it. */
  lemma IndexPrefixGrows(i: nat, j: nat)
    requires j < BLADE_TRIANGLES
    ensures var v := GRASS_BLADE_VERTICES * i + j;
            IndexPrefix(Slot(i, j, 0)) + [v, v + 1, v + 2] == IndexPrefix(Slot(i, j, 0) + 3)
  {
    IndexAtSlot(i, j, 0);
    IndexAtSlot(i, j, 1);
    IndexAtSlot(i, j, 2);
  }

  /** The index buffer: nested loops pushing three indices per triangle,
      then the conversion to a Uint16Array. */
  method CreateIndexBuffer() returns (indices: seq<nat>)
    ensures indices == IndexBuffer()
  {
    var list: seq<nat> := [];
    for i := 0 to GRASS_BLADES
      invariant list == IndexPrefix(Slot(i, 0, 0))
    {
      var baseIndex := i * GRASS_BLADE_VERTICES;
      for j := 0 to GRASS_BLADE_VERTICES - 2
        invariant list == IndexPrefix(Slot(i, j, 0))
      {
        ghost var before := list;
        list := list + [baseIndex + j];
        list := list + [baseIndex + j + 1];
        list := list + [baseIndex + j + 2];
        assert list == before + [baseIndex + j, baseIndex + j + 1, baseIndex + j + 2];
        IndexPrefixGrows(i, j);
      }
      assert Slot(i, BLADE_TRIANGLES, 0) == Slot(i + 1, 0, 0);
    }
    IndexBufferFitsUint16();
    indices := ToUint16Array(list);
  }

  /** The index buffer holds GRASS_BLADES * (GRASS_BLADE_VERTICES - 2) * 3 = 39936 entries. */
  lemma IndexBufferLength()
    ensures |IndexBuffer()| == GRASS_BLADES * (GRASS_BLADE_VERTICES - 2) * 3 == 39936
  {
  }

  /** Triangle j of blade i is (15i+j, 15i+j+1, 15i+j+2), and all three
      corners lie inside blade i's vertex range [15i, 15i+15). */
  lemma TriangleOfBlade(i: nat, j: nat)
    requires i < GRASS_BLADES && j < BLADE_TRIANGLES
    ensures Slot(i, j, 2) < |IndexBuffer()|
    ensures forall c :: 0 <= c < 3 ==>
              && IndexBuffer()[Slot(i, j, c)] == GRASS_BLADE_VERTICES * i + j + c
              && GRASS_BLADE_VERTICES * i <= IndexBuffer()[Slot(i, j, c)] < GRASS_BLADE_VERTICES * (i + 1)
  {
    forall c | 0 <= c < 3
      ensures IndexBuffer()[Slot(i, j, c)] == GRASS_BLADE_VERTICES * i + j + c
    {
      IndexAtSlot(i, j, c);
    }
  }

  /** Consecutive triangles of one blade share an edge: triangle j+1 starts
      with the second and third corners of triangle j. */
  lemma ConsecutiveTrianglesShareEdge(i: nat, j: nat)
    requires i < GRASS_BLADES && j + 1 < BLADE_TRIANGLES
    ensures Slot(i, j + 1, 2) < |IndexBuffer()|
    ensures IndexBuffer()[Slot(i, j + 1, 0)] == IndexBuffer()[Slot(i, j, 1)]
    ensures IndexBuffer()[Slot(i, j + 1, 1)] == IndexBuffer()[Slot(i, j, 2)]
  {
    IndexAtSlot(i, j, 1);
    IndexAtSlot(i, j, 2);
    IndexAtSlot(i, j + 1, 0);
    IndexAtSlot(i, j + 1, 1);
  }

  /** Every index names one of the GRASS_BLADES * GRASS_BLADE_VERTICES = 15360
      vertices, so it fits in 16 bits. */
  lemma IndicesInRange()
    ensures forall k :: 0 <= k < |IndexBuffer()| ==>
              IndexBuffer()[k] < GRASS_BLADES * GRASS_BLADE_VERTICES == 15360 < 0x1_0000
  {
    forall k | 0 <= k < |IndexBuffer()|
      ensures IndexAt(k) < GRASS_BLADES * GRASS_BLADE_VERTICES
    {
      var t := k / 3;
      assert t < GRASS_BLADES * BLADE_TRIANGLES;
      assert t / BLADE_TRIANGLES < GRASS_BLADES;
    }
  }

  /** Only the triangles of blade 0 stay below GRASS_BLADE_VERTICES = 15,
      the number of entries of the per-vertex `vertIndex` attribute: every
      later blade's triangles refer to vertices 15 and above. */
  lemma IndicesWithinOneBlade(k: nat)
    requires k < |IndexBuffer()|
    ensures IndexBuffer()[k] < GRASS_BLADE_VERTICES <==> k < 3 * BLADE_TRIANGLES
  {
    var t := k / 3;
    if k < 3 * BLADE_TRIANGLES {
      assert t < BLADE_TRIANGLES;
      assert t / BLADE_TRIANGLES == 0 && t % BLADE_TRIANGLES == t;
    } else {
      assert t >= BLADE_TRIANGLES;
      assert t / BLADE_TRIANGLES >= 1;
    }
  }

  /** Storing the indices in a Uint16Array loses nothing. */
  lemma IndexBufferFitsUint16()
    ensures ToUint16Array(IndexBuffer()) == IndexBuffer()
  {
    IndicesInRange();
  }

  // ---------------------------------------------------------------------
  // Per-instance offsets
  // ---------------------------------------------------------------------

  /** rand_range(min, max) for the Math.random() value u. */
  function RandRange(u: real, min: real, max: real): (r: real)
    ensures 0.0 <= u < 1.0 && min < max ==> min <= r < max
  {
    var d := max - min;
    assert 0.0 <= u < 1.0 && d > 0.0 ==> 0.0 <= u * d < d;
    u * d + min
  }

  /** Grid coordinate of row (or column) i before jitter: i / NUM_GRASS_Y - 0.5. */
  function GridCoordinate(i: nat): real
  {
    i as real / NUM_GRASS_Y as real - 0.5
  }

  /** The three components pushed for cell (i, j), given its two draws. */
  function CellOffset(i: nat, j: nat, ux: real, uy: real): seq<real>
  {
    [ GridCoordinate(i) * GRASS_PATH_SIZE + RandRange(ux, -0.2, 0.2),
      GridCoordinate(j) * GRASS_PATH_SIZE + RandRange(uy, -0.2, 0.2),
      0.0 ]
  }

  /** Index of the first of the two draws made for cell (i, j). */
  function CellDraw(i: nat, j: nat): nat
  {
    2 * (NUM_GRASS_X * i + j)
  }

  /** Entry k of the offsets array: component k % 3 of cell k / 3, which is
      row (k / 3) / NUM_GRASS_X, column (k / 3) % NUM_GRASS_X. */
  function OffsetAt(random: Random, k: nat): real
  {
    var cell := k / 3;
    var i, j := cell / NUM_GRASS_X, cell % NUM_GRASS_X;
    CellOffset(i, j, random(CellDraw(i, j)), random(CellDraw(i, j) + 1))[k % 3]
  }

  /** The first m entries of the offsets array. */
  function OffsetPrefix(random: Random, m: nat): seq<real>
  {
    seq(m, k requires 0 <= k < m => OffsetAt(random, k))
  }

  /** The whole offsets array of the NUM_GRASS_X by NUM_GRASS_X grid. */
  function Offsets(random: Random): seq<real>
  {
    OffsetPrefix(random, 3 * NUM_GRASS_X * NUM_GRASS_X)
  }

  /** Position in the offsets array of component c of cell (i, j). */
  function OffsetSlot(i: nat, j: nat, c: nat): nat
  {
    3 * (NUM_GRASS_X * i + j) + c
  }

  /** The entry at OffsetSlot(i, j, c) is component c of cell (i, j). */
  lemma OffsetAtSlot(random: Random, i: nat, j: nat, c: nat)
    requires j < NUM_GRASS_X && c < 3
    ensures OffsetAt(random, OffsetSlot(i, j, c))
         == CellOffset(i, j, random(CellDraw(i, j)), random(CellDraw(i, j) + 1))[c]
  {
    var cell := NUM_GRASS_X * i + j;
    assert OffsetSlot(i, j, c) / 3 == cell && OffsetSlot(i, j, c) % 3 == c;
    assert cell / NUM_GRASS_X == i && cell % NUM_GRASS_X == j;
  }

  /** Appending cell (i, j) to the offsets of the cells before it gives the
      offsets up to and including it. */
  lemma OffsetPrefixGrows(random: Random, i: nat, j: nat)
    requires j < NUM_GRASS_X
    ensures OffsetPrefix(random, OffsetSlot(i, j, 0))
            + CellOffset(i, j, random(CellDraw(i, j)), random(CellDraw(i, j) + 1))
         == OffsetPrefix(random, OffsetSlot(i, j, 0) + 3)
  {
    OffsetAtSlot(random, i, j, 0);
    OffsetAtSlot(random, i, j, 1);
    OffsetAtSlot(random, i, j, 2);
  }

  /** The offsets grid loop: two jittered coordinates and a zero per cell. */
  method CreateOffsets(random: Random) returns (offsets: seq<real>)
    ensures offsets == Offsets(random)
  {
    offsets := [];
    var draw := 0;
    for i := 0 to NUM_GRASS_X
      invariant offsets == OffsetPrefix(random, OffsetSlot(i, 0, 0))
      invariant draw == CellDraw(i, 0)
    {
      var x := i as real / NUM_GRASS_Y as real - 0.5;
      for j := 0 to NUM_GRASS_X
        invariant offsets == OffsetPrefix(random, OffsetSlot(i, j, 0))
        invariant draw == CellDraw(i, j)
      {
        ghost var before := offsets;
        var y := j as real / NUM_GRASS_Y as real - 0.5;
        offsets := offsets + [x * GRASS_PATH_SIZE + RandRange(random(draw), -0.2, 0.2)];
        draw := draw + 1;
        offsets := offsets + [y * GRASS_PATH_SIZE + RandRange(random(draw), -0.2, 0.2)];
        draw := draw + 1;
        offsets := offsets + [0.0];
        assert offsets == before + CellOffset(i, j, random(CellDraw(i, j)), random(CellDraw(i, j) + 1));
        OffsetPrefixGrows(random, i, j);
      }
      assert OffsetSlot(i, NUM_GRASS_X, 0) == OffsetSlot(i + 1, 0, 0);
    }
  }

  /** The offsets array has 3 * NUM_GRASS_X * NUM_GRASS_X = 3072 entries:
      exactly three per instance of GRASS_BLADES, and never empty. */
  lemma OffsetsLength(random: Random)
    ensures |Offsets(random)| == 3 * NUM_GRASS_X * NUM_GRASS_X == 3 * GRASS_BLADES == 3072
  {
  }

  /** Cell (i, j) gets x within [-0.2, 0.2) of (i/32 - 0.5) * 0.5, y within
      [-0.2, 0.2) of (j/32 - 0.5) * 0.5, and z = 0. */
  lemma OffsetBounds(random: Random, i: nat, j: nat)
    requires UnitDraws(random)
    requires i < NUM_GRASS_X && j < NUM_GRASS_X
    ensures OffsetSlot(i, j, 2) < |Offsets(random)|
    ensures var x := Offsets(random)[OffsetSlot(i, j, 0)];
            var centre := (i as real / 32.0 - 0.5) * 0.5;
            centre - 0.2 <= x < centre + 0.2
    ensures var y := Offsets(random)[OffsetSlot(i, j, 1)];
            var centre := (j as real / 32.0 - 0.5) * 0.5;
            centre - 0.2 <= y < centre + 0.2
    ensures Offsets(random)[OffsetSlot(i, j, 2)] == 0.0
  {
    OffsetAtSlot(random, i, j, 0);
    OffsetAtSlot(random, i, j, 1);
    OffsetAtSlot(random, i, j, 2);
    var ux, uy := random(CellDraw(i, j)), random(CellDraw(i, j) + 1);
    assert -0.2 <= RandRange(ux, -0.2, 0.2) < 0.2;
    assert -0.2 <= RandRange(uy, -0.2, 0.2) < 0.2;
  }

  /** Every third offset component (z) is zero. */
  lemma OffsetsFlat(random: Random)
    ensures forall k :: 0 <= k < |Offsets(random)| && k % 3 == 2 ==> Offsets(random)[k] == 0.0
  {
  }

  // ---------------------------------------------------------------------
  // vertIndex attribute and the tile geometry
  // ---------------------------------------------------------------------

  /** The `vertIndex` attribute: a Uint8Array of GRASS_BLADE_VERTICES filled with 0 .. 14. */
  method CreateVertIndex() returns (vertID: array<nat>)
    ensures fresh(vertID)
    ensures vertID.Length == GRASS_BLADE_VERTICES
    ensures forall i :: 0 <= i < vertID.Length ==> vertID[i] == i < 0x100
  {
    vertID := new nat[GRASS_BLADE_VERTICES](_ => 0);
    for i := 0 to GRASS_BLADE_VERTICES
      invariant forall k :: 0 <= k < i ==> vertID[k] == k
    {
      vertID[i] := Uint8(i);
    }
  }

  /** The attributes of the instanced tile geometry.
      `position` holds the per-instance offsets, three components per instance. */
  datatype TileGeometry = TileGeometry(
    instanceCount: nat,
    vertIndex: seq<nat>,
    position: seq<real>,
    index: seq<nat>)

  /** CreateTileGeometry: `None` models the early return taken when the
      offsets array is empty. */
  method CreateTileGeometry(random: Random) returns (geo: Option<TileGeometry>)
    ensures geo.Some? <==> |Offsets(random)| > 0
    ensures geo.Some? ==>
              && geo.value.instanceCount == GRASS_BLADES
              && geo.value.position == Offsets(random)
              && |geo.value.position| == 3 * geo.value.instanceCount
              && geo.value.index == IndexBuffer()
              && |geo.value.vertIndex| == GRASS_BLADE_VERTICES
              && forall i :: 0 <= i < |geo.value.vertIndex| ==> geo.value.vertIndex[i] == i
  {
    var offsets := CreateOffsets(random);
    if |offsets| == 0 {
      return None;
    }
    OffsetsLength(random);
    var vertID := CreateVertIndex();
    var index := CreateIndexBuffer();
    geo := Some(TileGeometry(GRASS_BLADES, vertID[..], offsets, index));
  }

  /** The tile is always built: the empty-offsets branch cannot be taken. */
  lemma TileGeometryAlwaysBuilt(random: Random)
    ensures |Offsets(random)| > 0
  {
    OffsetsLength(random);
  }
}
