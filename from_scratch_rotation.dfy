/** FromScratchRotation.py: the specular floor lit vertex by vertex on the
    CPU. Every regeneration re-places the light and the camera by the
    inverse of the view rotation, rebuilds the whole floor with freshly
    drawn normals and shades each vertex; a cell whose shading fails is
    drawn grey. */
module FromScratchRotation {
  import opened Common
  import opened FloorGrid
  import opened SceneLighting

  // ---------------------------------------------------------------
  // The floor and its per-vertex lighting
  // ---------------------------------------------------------------

  /** 100 by 100 cells of 0.4 by 0.4, from (-20, -20). */
  const RotationFloor: Grid := Grid(-20.0, -20.0, 0.4, 0.4, 100, 100)

  /** The floor fills 100 * 100 * 6 = 60000 slots, every vertex at y = 0
      with x and z in [-20, 20]. */
  lemma FloorShape(g: Grid)
    requires g == RotationFloor
    ensures |GridVertices(g)| == 60000
    ensures forall k | 0 <= k < 60000 ::
              && GridVertices(g)[k].y == 0.0
              && -20.0 <= GridVertices(g)[k].x <= 20.0
              && -20.0 <= GridVertices(g)[k].z <= 20.0
  {
    GridShape(g);
    GridInRectangle(g);
    assert Offset(-20.0, 0.4, 100) == 20.0;
  }

  /** `jittered_normal` reading the standard Gaussian draws c and c + 1:
      `gauss(0, 0.1)` for x, 1 for y, `gauss(0, 0.02)` for z, divided by
      the length. */
  function JitterNormal(sqrt: real -> real, gauss: nat -> real, c: nat): Vec3
    requires SqrtPositive(sqrt)
  {
    UnitNormal(sqrt, 0.1 * gauss(c), 0.02 * gauss(c + 1))
  }

  /** The normals of one regeneration that starts at draw `start`: vertex
      k takes draws start + 2k and start + 2k + 1. All point upwards. */
  function JitteredNormals(sqrt: real -> real, gauss: nat -> real, start: nat, count: nat): (r: seq<Vec3>)
    requires SqrtPositive(sqrt)
    ensures |r| == count
    ensures forall k | 0 <= k < count :: r[k].y > 0.0
  {
    seq(count, (k: int) requires 0 <= k => JitterNormal(sqrt, gauss, start + 2 * k))
  }

  /** The normals of m + 1 cells are those of m cells and then the six
      of the next cell, which start twelve draws per cell further on. */
  lemma JitteredNormalsStep(sqrt: real -> real, gauss: nat -> real, start: nat, m: nat)
    requires SqrtPositive(sqrt)
    ensures JitteredNormals(sqrt, gauss, start, 6 * (m + 1))
         == JitteredNormals(sqrt, gauss, start, 6 * m) + JitteredNormals(sqrt, gauss, start + 12 * m, 6)
  {
    var a := JitteredNormals(sqrt, gauss, start, 6 * (m + 1));
    var b := JitteredNormals(sqrt, gauss, start, 6 * m) + JitteredNormals(sqrt, gauss, start + 12 * m, 6);
    assert |a| == |b|;
    forall k | 0 <= k < |a|
      ensures a[k] == b[k]
    {
      if k >= 6 * m {
        assert start + 12 * m + 2 * (k - 6 * m) == start + 2 * k;
      }
    }
  }

  /** The six normals of a cell, drawn one after the other from draw c. */
  lemma CellNormals(sqrt: real -> real, gauss: nat -> real, c: nat)
    requires SqrtPositive(sqrt)
    ensures JitteredNormals(sqrt, gauss, c, 6)
         == [JitterNormal(sqrt, gauss, c), JitterNormal(sqrt, gauss, c + 2),
             JitterNormal(sqrt, gauss, c + 4), JitterNormal(sqrt, gauss, c + 6),
             JitterNormal(sqrt, gauss, c + 8), JitterNormal(sqrt, gauss, c + 10)]
  {
  }

  /** The colour of a cell whose lighting raised an exception. */
  const Grey: Vec3 := Vec3(0.1, 0.1, 0.1)

  /** The try block of one cell: `shade` is `ward_lighting` or
      `blinn_phong_lighting`, whichever the lighting selects, and None
      stands for an exception. If every vertex shades, each keeps its own
      colour; if any fails, all six are grey. */
  function CellColours(shade: (Vec3, Vec3, Lighting) -> Option<Vec3>, vs: seq<Vec3>, ns: seq<Vec3>, l: Lighting): (r: seq<Vec3>)
    requires |vs| == 6 && |ns| == 6
    ensures |r| == 6
    ensures (forall c | 0 <= c < 6 :: shade(vs[c], ns[c], l).Some?) ==>
              forall c | 0 <= c < 6 :: r[c] == shade(vs[c], ns[c], l).value
    ensures (exists c | 0 <= c < 6 :: shade(vs[c], ns[c], l).None?) ==> r == Six(Grey)
  {
    if forall c | 0 <= c < 6 :: shade(vs[c], ns[c], l).Some? then
      seq(6, (c: int) requires 0 <= c < 6 => shade(vs[c], ns[c], l).value)
    else
      Six(Grey)
  }

  /** The colour list of a floor of `cells` cells: slot k gets its colour
      from the try block of the cell it belongs to, the six slots from
      6 * (k / 6). */
  function LitColours(shade: (Vec3, Vec3, Lighting) -> Option<Vec3>, vs: seq<Vec3>, ns: seq<Vec3>,
                      l: Lighting, cells: nat): (r: seq<Vec3>)
    requires |vs| == 6 * cells && |ns| == 6 * cells
    ensures |r| == |vs|
  {
    seq(6 * cells, (k: int) requires 0 <= k < 6 * cells =>
      CellColours(shade, vs[k / 6 * 6 .. k / 6 * 6 + 6], ns[k / 6 * 6 .. k / 6 * 6 + 6], l)[k % 6])
  }

  /** The six colour slots of cell m are that cell's try block. */
  lemma LitColoursAt(shade: (Vec3, Vec3, Lighting) -> Option<Vec3>, vs: seq<Vec3>, ns: seq<Vec3>,
                      l: Lighting, cells: nat, m: nat)
    requires |vs| == 6 * cells && |ns| == 6 * cells && m < cells
    ensures LitColours(shade, vs, ns, l, cells)[6 * m .. 6 * m + 6]
         == CellColours(shade, vs[6 * m .. 6 * m + 6], ns[6 * m .. 6 * m + 6], l)
  {
    var r := LitColours(shade, vs, ns, l, cells);
    var cell := CellColours(shade, vs[6 * m .. 6 * m + 6], ns[6 * m .. 6 * m + 6], l);
    forall k | 6 * m <= k < 6 * m + 6
      ensures r[k] == cell[k - 6 * m]
    {
      assert k / 6 * 6 == 6 * m;
      assert k % 6 == k - 6 * m;
    }
  }

  /** Extending the lists by one cell extends the colours by that cell's
      try block and leaves the earlier colours alone. */
  lemma LitColoursStep(shade: (Vec3, Vec3, Lighting) -> Option<Vec3>, vs: seq<Vec3>, ns: seq<Vec3>,
                       cellV: seq<Vec3>, cellN: seq<Vec3>, l: Lighting, cells: nat)
    requires |vs| == 6 * cells && |ns| == 6 * cells && |cellV| == 6 && |cellN| == 6
    ensures LitColours(shade, vs + cellV, ns + cellN, l, cells + 1)
         == LitColours(shade, vs, ns, l, cells) + CellColours(shade, cellV, cellN, l)
  {
    var a := LitColours(shade, vs + cellV, ns + cellN, l, cells + 1);
    var b := LitColours(shade, vs, ns, l, cells) + CellColours(shade, cellV, cellN, l);
    assert |a| == |b|;
    forall k | 0 <= k < |a|
      ensures a[k] == b[k]
    {
      if k < |vs| {
        EarlierSlot(shade, vs, ns, cellV, cellN, l, cells, k);
      } else {
        LastCellSlot(shade, vs, ns, cellV, cellN, l, cells, k);
      }
    }
  }

  /** A slot of the first `cells` cells keeps its colour when a cell is
      appended. */
  lemma EarlierSlot(shade: (Vec3, Vec3, Lighting) -> Option<Vec3>, vs: seq<Vec3>, ns: seq<Vec3>,
                    cellV: seq<Vec3>, cellN: seq<Vec3>, l: Lighting, cells: nat, k: nat)
    requires |vs| == 6 * cells && |ns| == 6 * cells && |cellV| == 6 && |cellN| == 6
    requires k < 6 * cells
    ensures LitColours(shade, vs + cellV, ns + cellN, l, cells + 1)[k] == LitColours(shade, vs, ns, l, cells)[k]
  {
    var base := k / 6 * 6;
    assert base + 6 <= |vs|;
    assert (vs + cellV)[base .. base + 6] == vs[base .. base + 6];
    assert (ns + cellN)[base .. base + 6] == ns[base .. base + 6];
  }

  /** A slot of the appended cell takes its colour from that cell's try
      block. */
  lemma LastCellSlot(shade: (Vec3, Vec3, Lighting) -> Option<Vec3>, vs: seq<Vec3>, ns: seq<Vec3>,
                     cellV: seq<Vec3>, cellN: seq<Vec3>, l: Lighting, cells: nat, k: nat)
    requires |vs| == 6 * cells && |ns| == 6 * cells && |cellV| == 6 && |cellN| == 6
    requires 6 * cells <= k < 6 * cells + 6
    ensures LitColours(shade, vs + cellV, ns + cellN, l, cells + 1)[k]
         == CellColours(shade, cellV, cellN, l)[k - 6 * cells]
  {
    var base := k / 6 * 6;
    assert base == |vs|;
    assert (vs + cellV)[base .. base + 6] == cellV;
    assert (ns + cellN)[base .. base + 6] == cellN;
  }

  /** The nested loops of `generate_floor_geometry`: cell by cell, the six
      vertices, six normals from fresh draws (two per normal, from
      `start` on), and the cell's try block with the lighting `l`. */
  method EmitLitFloor(g: Grid, sqrt: real -> real, gauss: nat -> real, start: nat,
                      shade: (Vec3, Vec3, Lighting) -> Option<Vec3>, l: Lighting)
    returns (vertices: seq<Vec3>, normals: seq<Vec3>, colours: seq<Vec3>)
    requires SqrtPositive(sqrt)
    ensures vertices == GridVertices(g)
    ensures normals == JitteredNormals(sqrt, gauss, start, 6 * g.nx * g.nz)
    ensures colours == LitColours(shade, vertices, normals, l, g.nx * g.nz)
  {
    vertices := [];
    normals := [];
    colours := [];
    for i := 0 to g.nx
      invariant vertices == Rows(g, i) && |vertices| == 6 * (i * g.nz)
      invariant normals == JitteredNormals(sqrt, gauss, start, 6 * (i * g.nz))
      invariant colours == LitColours(shade, vertices, normals, l, i * g.nz)
    {
      vertices, normals, colours := EmitLitRow(g, sqrt, gauss, start, shade, l, i, vertices, normals, colours);
      assert i * g.nz + g.nz == (i + 1) * g.nz;
    }
    RowsAreGrid(g);
  }

  /** One pass of the inner loop: the cells of row i. */
  method EmitLitRow(g: Grid, sqrt: real -> real, gauss: nat -> real, start: nat,
                    shade: (Vec3, Vec3, Lighting) -> Option<Vec3>, l: Lighting, i: nat,
                    vertices0: seq<Vec3>, normals0: seq<Vec3>, colours0: seq<Vec3>)
    returns (vertices: seq<Vec3>, normals: seq<Vec3>, colours: seq<Vec3>)
    requires SqrtPositive(sqrt)
    requires vertices0 == Rows(g, i)
    requires normals0 == JitteredNormals(sqrt, gauss, start, 6 * (i * g.nz))
    requires |vertices0| == 6 * (i * g.nz)
    requires colours0 == LitColours(shade, vertices0, normals0, l, i * g.nz)
    ensures vertices == Rows(g, i + 1) && |vertices| == 6 * (i * g.nz + g.nz)
    ensures normals == JitteredNormals(sqrt, gauss, start, 6 * (i * g.nz + g.nz))
    ensures colours == LitColours(shade, vertices, normals, l, i * g.nz + g.nz)
  {
    vertices, normals, colours := vertices0, normals0, colours0;
    for j := 0 to g.nz
      invariant vertices == Rows(g, i) + RowPrefix(g, i, j)
      invariant |vertices| == 6 * (i * g.nz + j)
      invariant normals == JitteredNormals(sqrt, gauss, start, 6 * (i * g.nz + j))
      invariant colours == LitColours(shade, vertices, normals, l, i * g.nz + j)
    {
      vertices, normals, colours := EmitLitCell(g, sqrt, gauss, start, shade, l, i, j, i * g.nz + j,
                                                vertices, normals, colours);
      assert vertices == Rows(g, i) + (RowPrefix(g, i, j) + Cell(g, i, j));
    }
  }

  /** One pass of the inner loop's body: cell (i, j), the m-th in visiting
      order, appended to all three lists. */
  method EmitLitCell(g: Grid, sqrt: real -> real, gauss: nat -> real, start: nat,
                     shade: (Vec3, Vec3, Lighting) -> Option<Vec3>, l: Lighting, i: nat, j: nat, m: nat,
                     vertices0: seq<Vec3>, normals0: seq<Vec3>, colours0: seq<Vec3>)
    returns (vertices: seq<Vec3>, normals: seq<Vec3>, colours: seq<Vec3>)
    requires SqrtPositive(sqrt)
    requires |vertices0| == 6 * m
    requires normals0 == JitteredNormals(sqrt, gauss, start, 6 * m)
    requires colours0 == LitColours(shade, vertices0, normals0, l, m)
    ensures vertices == vertices0 + Cell(g, i, j)
    ensures |vertices| == 6 * (m + 1)
    ensures normals == JitteredNormals(sqrt, gauss, start, 6 * (m + 1))
    ensures colours == LitColours(shade, vertices, normals, l, m + 1)
  {
    var cellV, cellN := EmitCell(g, sqrt, gauss, start + 12 * m, i, j);
    JitteredNormalsStep(sqrt, gauss, start, m);
    colours := AppendCellColours(shade, l, m, vertices0, normals0, colours0, cellV, cellN);
    vertices := vertices0 + cellV;
    normals := normals0 + cellN;
  }

  /** The try block of one cell, its six colours appended. */
  method AppendCellColours(shade: (Vec3, Vec3, Lighting) -> Option<Vec3>, l: Lighting, m: nat,
                           vertices0: seq<Vec3>, normals0: seq<Vec3>, colours0: seq<Vec3>,
                           cellV: seq<Vec3>, cellN: seq<Vec3>)
    returns (colours: seq<Vec3>)
    requires |vertices0| == 6 * m && |normals0| == 6 * m && |cellV| == 6 && |cellN| == 6
    requires colours0 == LitColours(shade, vertices0, normals0, l, m)
    ensures colours == LitColours(shade, vertices0 + cellV, normals0 + cellN, l, m + 1)
  {
    LitColoursStep(shade, vertices0, normals0, cellV, cellN, l, m);
    colours := colours0 + CellColours(shade, cellV, cellN, l);
  }

  /** The body of the inner loop before the try block: the two triangles
      of cell (i, j) and their six normals, from the draws c on. */
  method EmitCell(g: Grid, sqrt: real -> real, gauss: nat -> real, c: nat, i: nat, j: nat)
    returns (cellV: seq<Vec3>, cellN: seq<Vec3>)
    requires SqrtPositive(sqrt)
    ensures cellV == Cell(g, i, j)
    ensures cellN == JitteredNormals(sqrt, gauss, c, 6)
  {
    var x1 := CellX1(g, i);
    var x2 := x1 + g.stepX;
    var z1 := CellZ1(g, j);
    var z2 := z1 + g.stepZ;
    var v1, v2, v3 := Vec3(x1, 0.0, z1), Vec3(x2, 0.0, z1), Vec3(x1, 0.0, z2);
    var v4, v5, v6 := Vec3(x2, 0.0, z1), Vec3(x2, 0.0, z2), Vec3(x1, 0.0, z2);
    var n1 := JitterNormal(sqrt, gauss, c);
    var n2 := JitterNormal(sqrt, gauss, c + 2);
    var n3 := JitterNormal(sqrt, gauss, c + 4);
    var n4 := JitterNormal(sqrt, gauss, c + 6);
    var n5 := JitterNormal(sqrt, gauss, c + 8);
    var n6 := JitterNormal(sqrt, gauss, c + 10);
    cellV := [v1, v2, v3, v4, v5, v6];
    cellN := [n1, n2, n3, n4, n5, n6];
    CellNormals(sqrt, gauss, c);
  }

  // ---------------------------------------------------------------
  // The scene object
  // ---------------------------------------------------------------

  /** The keys after which the key loop regenerates the floor: each arrow
      key changes an angle, and 1 to 8, w and r all regenerate. */
  const RegeneratingKeys: set<string> :=
    {"left", "right", "up", "down", "1", "2", "3", "4", "5", "6", "7", "8", "w", "r"}

  /** The draws `d` that key `k` costs when it is pressed. */
  function Cost(keys: seq<string>, k: string, d: nat): nat {
    if k in keys then d else 0
  }

  /** The draws one pass of the key loop makes when a floor costs `d`. */
  function KeyDraws(keys: seq<string>, d: nat): nat {
    Cost(keys, "left", d) + Cost(keys, "right", d) + Cost(keys, "up", d) + Cost(keys, "down", d)
    + Cost(keys, "1", d) + Cost(keys, "2", d)
    + Cost(keys, "3", d) + Cost(keys, "4", d) + Cost(keys, "5", d) + Cost(keys, "6", d)
    + Cost(keys, "7", d) + Cost(keys, "8", d) + Cost(keys, "w", d) + Cost(keys, "r", d)
  }

  /** A pass makes new draws exactly when a regenerating key is pressed,
      and at most one floor's worth per such key. */
  lemma KeyDrawsZero(keys: seq<string>, d: nat)
    requires d > 0
    ensures KeyDraws(keys, d) == 0 <==> forall k | k in RegeneratingKeys :: k !in keys
    ensures KeyDraws(keys, d) <= 14 * d
  {
    if KeyDraws(keys, d) == 0 {
      forall k | k in RegeneratingKeys
        ensures k !in keys
      {
      }
    }
  }

  /** `sqrt` is the `math.sqrt` of `jittered_normal`, `gauss` the stream of
      standard Gaussian draws `random.gauss` scales, `cosDeg` and `sinDeg`
      the cosine and sine of `np.radians` of an angle, `rotation` the
      matrix `get_inverse_rotation_matrix` builds for the angle pair
      (ax, az) (the class invariant makes it `InverseRotation`, the product
      `get_rotation_matrix_z(-az) . get_rotation_matrix_x(-ax)`), and
      `shade` the per-vertex lighting, None where it raises. The cursor
      counts the draws made so far. */
  class SpecularStreakScene {
    const floorGrid: Grid
    const sqrt: real -> real
    const gauss: nat -> real
    const cosDeg: real -> real
    const sinDeg: real -> real
    const rotation: (int, int) -> Mat3
    const shade: (Vec3, Vec3, Lighting) -> Option<Vec3>
    const originalCameraPos: Vec3
    var angleX: int
    var angleZ: int
    var originalLightPos: Vec3
    var lightPos: Vec3
    var cameraPos: Vec3
    var shininess: real
    var roughness: real
    var useWard: bool
    var gaussCursor: nat
    var floorVertices: seq<Vec3>
    var floorNormals: seq<Vec3>
    var floorColors: seq<Vec3>

    /** The Gaussian draws one regeneration makes: two per vertex. */
    function DrawsPerFloor(): nat {
      12 * floorGrid.nx * floorGrid.nz
    }

    function CurrentLighting(): Lighting
      reads this
    {
      Lighting(lightPos, cameraPos, shininess, roughness, useWard)
    }

    /** The light and the camera are the originals carried by the inverse
        rotation of the current angles. */
    ghost predicate LightsPlaced()
      reads this
    {
      var m := rotation(angleX, angleZ);
      lightPos == MatVec(m, originalLightPos) && cameraPos == MatVec(m, originalCameraPos)
    }

    /** The stored floor is the grid, with the normals of the latest
        regeneration's draws and the colours of the current lighting. */
    ghost predicate FloorLit()
      reads this
    {
      && SqrtPositive(sqrt)
      && DrawsPerFloor() <= gaussCursor
      && floorVertices == GridVertices(floorGrid)
      && floorNormals == JitteredNormals(sqrt, gauss, gaussCursor - DrawsPerFloor(), 6 * floorGrid.nx * floorGrid.nz)
      && floorColors == LitColours(shade, floorVertices, floorNormals, CurrentLighting(), floorGrid.nx * floorGrid.nz)
    }

    /** The view rotation is the inverse rotation the two matrix builders
        multiply out. */
    ghost predicate RotationIsInverse() {
      IsInverseRotation(cosDeg, sinDeg, rotation)
    }

    ghost predicate Valid()
      reads this
    {
      && RotationIsInverse() && LightsPlaced() && FloorLit()
      && RoughnessInRange(roughness) && ShininessInRange(shininess)
    }

    constructor (sqrt: real -> real, gauss: nat -> real, cosDeg: real -> real, sinDeg: real -> real,
                 rotation: (int, int) -> Mat3, shade: (Vec3, Vec3, Lighting) -> Option<Vec3>)
      requires SqrtPositive(sqrt)
      requires IsInverseRotation(cosDeg, sinDeg, rotation)
      ensures Valid()
      ensures floorGrid == RotationFloor
      ensures this.sqrt == sqrt && this.gauss == gauss && this.shade == shade
      ensures this.cosDeg == cosDeg && this.sinDeg == sinDeg && this.rotation == rotation
      ensures cosDeg(0.0) == 1.0 && sinDeg(0.0) == 0.0 ==>
                lightPos == InitialLightPos && cameraPos == InitialCameraPos
      ensures angleX == 0 && angleZ == 0
      ensures originalLightPos == InitialLightPos && originalCameraPos == InitialCameraPos
      ensures shininess == InitialShininess && roughness == InitialRoughness && !useWard
      ensures gaussCursor == DrawsPerFloor()
    {
      floorGrid := RotationFloor;
      this.sqrt := sqrt;
      this.gauss := gauss;
      this.cosDeg := cosDeg;
      this.sinDeg := sinDeg;
      this.rotation := rotation;
      this.shade := shade;
      lightPos := InitialLightPos;
      cameraPos := InitialCameraPos;
      shininess := InitialShininess;
      roughness := InitialRoughness;
      useWard := false;
      angleX := 0;
      angleZ := 0;
      originalLightPos := InitialLightPos;
      originalCameraPos := InitialCameraPos;
      gaussCursor := 0;
      if cosDeg(0.0) == 1.0 && sinDeg(0.0) == 0.0 {
        RotationAtRest(cosDeg, sinDeg, rotation, InitialLightPos);
        RotationAtRest(cosDeg, sinDeg, rotation, InitialCameraPos);
      }
      new;
      GenerateFloorGeometry();
    }

    /** `update_lighting_positions`, through `get_inverse_rotation_matrix`. */
    method UpdateLightingPositions()
      modifies this`lightPos, this`cameraPos
      ensures LightsPlaced()
      ensures lightPos == MatVec(rotation(angleX, angleZ), originalLightPos)
      ensures cameraPos == MatVec(rotation(angleX, angleZ), originalCameraPos)
    {
      var invRotation := rotation(angleX, angleZ);
      lightPos := MatVec(invRotation, originalLightPos);
      cameraPos := MatVec(invRotation, originalCameraPos);
    }

    /** Under the class invariant the view rotation is the product of the
        two matrix builders, so the placed light and camera are the
        originals carried by Rz(-angleZ) times Rx(-angleX). */
    lemma LightsAreInverseRotated()
      requires Valid()
      ensures lightPos == MatVec(InverseRotation(cosDeg, sinDeg, angleX, angleZ), originalLightPos)
      ensures cameraPos == MatVec(InverseRotation(cosDeg, sinDeg, angleX, angleZ), originalCameraPos)
    {
      assert rotation(angleX, angleZ) == InverseRotation(cosDeg, sinDeg, angleX, angleZ);
    }

    /** `generate_floor_geometry`: re-places the light and the camera, then
        rebuilds all three lists from scratch with the next draws. */
    method GenerateFloorGeometry()
      requires SqrtPositive(sqrt)
      modifies this`lightPos, this`cameraPos, this`gaussCursor
      modifies this`floorVertices, this`floorNormals, this`floorColors
      ensures LightsPlaced() && FloorLit()
      ensures gaussCursor == old(gaussCursor) + DrawsPerFloor()
      ensures floorNormals == JitteredNormals(sqrt, gauss, old(gaussCursor), 6 * floorGrid.nx * floorGrid.nz)
    {
      UpdateLightingPositions();
      RebuildFloor();
    }

    /** The rest of `generate_floor_geometry`: the three lists rebuilt from
        scratch with the next draws and lit with the current lighting. */
    method RebuildFloor()
      requires SqrtPositive(sqrt)
      modifies this`gaussCursor, this`floorVertices, this`floorNormals, this`floorColors
      ensures FloorLit()
      ensures gaussCursor == old(gaussCursor) + DrawsPerFloor()
      ensures floorNormals == JitteredNormals(sqrt, gauss, old(gaussCursor), 6 * floorGrid.nx * floorGrid.nz)
    {
      var vertices, normals, colours := EmitLitFloor(floorGrid, sqrt, gauss, gaussCursor, shade, CurrentLighting());
      floorVertices := vertices;
      floorNormals := normals;
      floorColors := colours;
      gaussCursor := gaussCursor + DrawsPerFloor();
    }

    /** `render_glossy_floor`: every stored vertex with its colour and
        normal, in order; nothing is changed. */
    method RenderGlossyFloor() returns (draws: seq<GlVertex>)
      requires Valid()
      ensures |draws| == |floorVertices|
      ensures forall i | 0 <= i < |floorVertices| ::
                draws[i] == GlVertex(floorColors[i], floorNormals[i], floorVertices[i])
    {
      draws := DrawImmediate(floorColors, floorNormals, floorVertices);
    }

    /** `update_lighting_params`: sets only the supplied values, then
        regenerates. */
    method UpdateLightingParams(lightHeight: Option<real>, newRoughness: Option<real>, newShininess: Option<real>)
      requires SqrtPositive(sqrt)
      modifies this`originalLightPos, this`roughness, this`shininess
      modifies this`lightPos, this`cameraPos, this`gaussCursor
      modifies this`floorVertices, this`floorNormals, this`floorColors
      ensures originalLightPos == (if lightHeight.Some? then old(originalLightPos).(y := lightHeight.value)
                                   else old(originalLightPos))
      ensures roughness == (if newRoughness.Some? then newRoughness.value else old(roughness))
      ensures shininess == (if newShininess.Some? then newShininess.value else old(shininess))
      ensures LightsPlaced() && FloorLit()
      ensures gaussCursor == old(gaussCursor) + DrawsPerFloor()
    {
      if lightHeight.Some? {
        originalLightPos := originalLightPos.(y := lightHeight.value);
      }
      if newRoughness.Some? {
        roughness := newRoughness.value;
      }
      if newShininess.Some? {
        shininess := newShininess.value;
      }
      GenerateFloorGeometry();
    }

    /** `update_angles`: adds the steps and regenerates only when an angle
        changed; otherwise nothing changes and no draws are made. */
    method UpdateAngles(deltaX: int, deltaZ: int)
      requires Valid()
      modifies this`angleX, this`angleZ, this`lightPos, this`cameraPos, this`gaussCursor
      modifies this`floorVertices, this`floorNormals, this`floorColors
      ensures Valid()
      ensures angleX == old(angleX) + deltaX && angleZ == old(angleZ) + deltaZ
      ensures gaussCursor == old(gaussCursor) + (if deltaX == 0 && deltaZ == 0 then 0 else DrawsPerFloor())
      ensures deltaX == 0 && deltaZ == 0 ==>
                && lightPos == old(lightPos) && cameraPos == old(cameraPos)
                && floorVertices == old(floorVertices) && floorNormals == old(floorNormals)
                && floorColors == old(floorColors)
    {
      var oldAngleX := angleX;
      var oldAngleZ := angleZ;
      angleX := angleX + deltaX;
      angleZ := angleZ + deltaZ;
      if angleX != oldAngleX || angleZ != oldAngleZ {
        GenerateFloorGeometry();
      }
    }

    /** One pass of the key loop. Escape or q ends the loop before any
        other key is looked at; otherwise every key present is handled
        once, in the loop's order, and each regenerating key costs one
        floor's worth of draws. */
    method HandleKeys(keys: seq<string>) returns (quit: bool)
      requires Valid()
      modifies this
      ensures quit <==> "escape" in keys || "q" in keys
      ensures quit ==> unchanged(this)
      ensures Valid()
      ensures !quit ==>
                && angleX == old(angleX) - (if "up" in keys then XStep else 0) + (if "down" in keys then XStep else 0)
                && angleZ == old(angleZ) - (if "left" in keys then ZStep else 0) + (if "right" in keys then ZStep else 0)
      ensures !quit ==>
                && originalLightPos.x == old(originalLightPos.x)
                && originalLightPos.y == old(originalLightPos.y) + (if "1" in keys then 2.0 else 0.0)
                                          - (if "2" in keys then 2.0 else 0.0)
                && originalLightPos.z == old(originalLightPos.z) - (if "7" in keys then 5.0 else 0.0)
                                          + (if "8" in keys then 5.0 else 0.0)
      ensures !quit ==>
                && roughness == KeyedRoughness(keys, old(roughness))
                && shininess == KeyedShininess(keys, old(shininess))
      ensures !quit ==> useWard == (old(useWard) != ("w" in keys))
      ensures !quit ==> gaussCursor == old(gaussCursor) + KeyDraws(keys, DrawsPerFloor())
    {
      if "escape" in keys || "q" in keys {
        return true;
      }
      quit := false;
      RotationKeys(keys);
      HeightKeys(keys);
      RoughnessKeys(keys);
      ShininessKeys(keys);
      DepthKeys(keys);
      ModelKeys(keys);
    }

    /** The arrow keys: left and right turn about z, up and down about x. */
    method RotationKeys(keys: seq<string>)
      requires Valid()
      modifies this`angleX, this`angleZ, this`lightPos, this`cameraPos, this`gaussCursor
      modifies this`floorVertices, this`floorNormals, this`floorColors
      ensures Valid()
      ensures angleX == old(angleX) - (if "up" in keys then XStep else 0) + (if "down" in keys then XStep else 0)
      ensures angleZ == old(angleZ) - (if "left" in keys then ZStep else 0) + (if "right" in keys then ZStep else 0)
      ensures gaussCursor == old(gaussCursor) + Cost(keys, "left", DrawsPerFloor()) + Cost(keys, "right", DrawsPerFloor())
                                     + Cost(keys, "up", DrawsPerFloor()) + Cost(keys, "down", DrawsPerFloor())
    {
      if "left" in keys {
        UpdateAngles(0, -ZStep);
      }
      if "right" in keys {
        UpdateAngles(0, ZStep);
      }
      if "up" in keys {
        UpdateAngles(-XStep, 0);
      }
      if "down" in keys {
        UpdateAngles(XStep, 0);
      }
    }

    /** Keys 1 and 2: the light two units higher or lower. */
    method HeightKeys(keys: seq<string>)
      requires Valid()
      modifies this`originalLightPos, this`roughness, this`shininess
      modifies this`lightPos, this`cameraPos, this`gaussCursor
      modifies this`floorVertices, this`floorNormals, this`floorColors
      ensures Valid()
      ensures originalLightPos.x == old(originalLightPos.x) && originalLightPos.z == old(originalLightPos.z)
      ensures originalLightPos.y == old(originalLightPos.y) + (if "1" in keys then 2.0 else 0.0)
                                      - (if "2" in keys then 2.0 else 0.0)
      ensures roughness == old(roughness) && shininess == old(shininess)
      ensures gaussCursor == old(gaussCursor) + Cost(keys, "1", DrawsPerFloor()) + Cost(keys, "2", DrawsPerFloor())
    {
      if "1" in keys {
        UpdateLightingParams(Some(originalLightPos.y + 2.0), None, None);
      }
      if "2" in keys {
        UpdateLightingParams(Some(originalLightPos.y - 2.0), None, None);
      }
    }

    /** Keys 3 and 4: roughness one clamped step up or down. */
    method RoughnessKeys(keys: seq<string>)
      requires Valid()
      modifies this`originalLightPos, this`roughness, this`shininess
      modifies this`lightPos, this`cameraPos, this`gaussCursor
      modifies this`floorVertices, this`floorNormals, this`floorColors
      ensures Valid()
      ensures originalLightPos == old(originalLightPos) && shininess == old(shininess)
      ensures roughness == KeyedRoughness(keys, old(roughness))
      ensures gaussCursor == old(gaussCursor) + Cost(keys, "3", DrawsPerFloor()) + Cost(keys, "4", DrawsPerFloor())
    {
      if "3" in keys {
        UpdateLightingParams(None, Some(RoughnessUp(roughness)), None);
      }
      if "4" in keys {
        UpdateLightingParams(None, Some(RoughnessDown(roughness)), None);
      }
    }

    /** Keys 5 and 6: shininess one clamped step up or down. */
    method ShininessKeys(keys: seq<string>)
      requires Valid()
      modifies this`originalLightPos, this`roughness, this`shininess
      modifies this`lightPos, this`cameraPos, this`gaussCursor
      modifies this`floorVertices, this`floorNormals, this`floorColors
      ensures Valid()
      ensures originalLightPos == old(originalLightPos) && roughness == old(roughness)
      ensures shininess == KeyedShininess(keys, old(shininess))
      ensures gaussCursor == old(gaussCursor) + Cost(keys, "5", DrawsPerFloor()) + Cost(keys, "6", DrawsPerFloor())
    {
      if "5" in keys {
        UpdateLightingParams(None, None, Some(ShininessUp(shininess)));
      }
      if "6" in keys {
        UpdateLightingParams(None, None, Some(ShininessDown(shininess)));
      }
    }

    /** Keys 7 and 8: the light five units further or nearer; each
        regenerates. */
    method DepthKeys(keys: seq<string>)
      requires Valid()
      modifies this`originalLightPos, this`lightPos, this`cameraPos, this`gaussCursor
      modifies this`floorVertices, this`floorNormals, this`floorColors
      ensures Valid()
      ensures originalLightPos.x == old(originalLightPos.x) && originalLightPos.y == old(originalLightPos.y)
      ensures originalLightPos.z == old(originalLightPos.z) - (if "7" in keys then 5.0 else 0.0)
                                      + (if "8" in keys then 5.0 else 0.0)
      ensures gaussCursor == old(gaussCursor) + Cost(keys, "7", DrawsPerFloor()) + Cost(keys, "8", DrawsPerFloor())
    {
      if "7" in keys {
        MoveLight(-5.0);
      }
      if "8" in keys {
        MoveLight(5.0);
      }
    }

    /** The light moved along z by `dz`, then a fresh floor. */
    method MoveLight(dz: real)
      requires Valid()
      modifies this`originalLightPos, this`lightPos, this`cameraPos, this`gaussCursor
      modifies this`floorVertices, this`floorNormals, this`floorColors
      ensures Valid()
      ensures originalLightPos == old(originalLightPos).(z := old(originalLightPos).z + dz)
      ensures gaussCursor == old(gaussCursor) + DrawsPerFloor()
    {
      originalLightPos := originalLightPos.(z := originalLightPos.z + dz);
      GenerateFloorGeometry();
    }

    /** Keys w and r: the other lighting model, or just a fresh floor; each
        regenerates. */
    method ModelKeys(keys: seq<string>)
      requires Valid()
      modifies this`useWard, this`lightPos, this`cameraPos, this`gaussCursor
      modifies this`floorVertices, this`floorNormals, this`floorColors
      ensures Valid()
      ensures useWard == (old(useWard) != ("w" in keys))
      ensures gaussCursor == old(gaussCursor) + Cost(keys, "w", DrawsPerFloor()) + Cost(keys, "r", DrawsPerFloor())
    {
      if "w" in keys {
        useWard := !useWard;
        GenerateFloorGeometry();
      }
      if "r" in keys {
        GenerateFloorGeometry();
      }
    }
  }
}
