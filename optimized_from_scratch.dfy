/** OptimizedFromScratch.py: the specular floor with its geometry built
    once into pre-allocated arrays and cached, the inverse rotation
    memoised per angle pair, the lighting recomputed only when something
    it reads changes, and a rendering path that falls back from vertex
    arrays to immediate mode for good. */
module OptimizedFromScratch {
  import opened Common
  import opened FloorGrid
  import opened SceneLighting

  // ---------------------------------------------------------------
  // The static floor
  // ---------------------------------------------------------------

  /** 25 by 100 cells, 0.4 wide in x from -5 and 0.2 deep in z from -20. */
  const OptimizedFloor: Grid := Grid(-5.0, -20.0, 0.4, 0.2, 25, 100)

  /** The floor fills 25 * 100 * 6 = 15000 slots, every vertex at y = 0 with
      x in [-5, 5] and z in [-20, 0]. */
  lemma FloorShape(g: Grid)
    requires g == OptimizedFloor
    ensures |GridVertices(g)| == 15000
    ensures forall k | 0 <= k < 15000 ::
              && GridVertices(g)[k].y == 0.0
              && -5.0 <= GridVertices(g)[k].x <= 5.0
              && -20.0 <= GridVertices(g)[k].z <= 0.0
  {
    GridShape(g);
    GridInRectangle(g);
    assert Offset(-5.0, 0.4, 25) == 5.0;
    assert Offset(-20.0, 0.2, 100) == 0.0;
  }

  /** The normal of vertex k: `np.random.normal(0, [0.1, 0.0, 0.1])` fills
      row k from the standard draws 3k, 3k + 1 and 3k + 2 of the seeded
      generator; the y entry is then overwritten by 1 and the row divided
      by its length. */
  function SeededNormal(sqrt: real -> real, draws: nat -> real, k: nat): Vec3
    requires SqrtPositive(sqrt)
  {
    UnitNormal(sqrt, 0.1 * draws(3 * k), 0.1 * draws(3 * k + 2))
  }

  /** The first `count` seeded normals; every one points upwards. */
  function SeededNormals(sqrt: real -> real, draws: nat -> real, count: nat): (r: seq<Vec3>)
    requires SqrtPositive(sqrt)
    ensures |r| == count
    ensures forall k | 0 <= k < count :: r[k].y > 0.0
  {
    seq(count, (k: int) requires 0 <= k => SeededNormal(sqrt, draws, k))
  }

  /** The pair `generate_floor_geometry_static` returns and caches. */
  datatype StaticGeometry = StaticGeometry(vertices: seq<Vec3>, normals: seq<Vec3>)

  /** The index-filling loop of `generate_floor_geometry_static`: a zeroed
      array of 6 * nx * nz slots, cell (i, j) written into the six slots
      from idx = 6 * (i * nz + j), idx moving on by six. The slots below idx
      hold the cells visited so far and the slots from idx on are still
      zero, so each slot is written exactly once and idx ends at the
      array's length. */
  method FillFloorVertices(g: Grid) returns (vertices: array<Vec3>)
    ensures fresh(vertices)
    ensures vertices.Length == 6 * g.nx * g.nz
    ensures vertices[..] == GridVertices(g)
  {
    var cells := g.nx * g.nz;
    var numTriangles := cells * 2;
    var numVertices := numTriangles * 3;
    assert numVertices == 6 * g.nx * g.nz by {
      ProductOfSix(g.nx, g.nz);
    }
    vertices := new Vec3[numVertices](_ => Zero);
    var idx := 0;
    for i := 0 to g.nx
      invariant idx == 6 * (i * g.nz) <= 6 * cells
      invariant vertices[..idx] == Rows(g, i)
      invariant forall k | idx <= k < vertices.Length :: vertices[k] == Zero
    {
      RowFits(i, g.nx, g.nz);
      FillRow(vertices, g, i, idx);
      idx := idx + 6 * g.nz;
    }
    assert vertices[..] == vertices[..idx];
    RowsAreGrid(g);
  }

  lemma ProductOfSix(a: nat, b: nat)
    ensures a * b * 2 * 3 == 6 * a * b
  {
  }

  /** Row i of nx rows of nz cells ends within the floor's slots. */
  lemma RowFits(i: nat, nx: nat, nz: nat)
    requires i < nx
    ensures (i + 1) * nz == i * nz + nz
    ensures 6 * (i * nz) + 6 * nz <= 6 * (nx * nz)
  {
    MulMonoNat(i + 1, nx, nz);
  }

  /** One pass of the inner loop: the cells of row i, written from idx on. */
  method FillRow(vertices: array<Vec3>, g: Grid, i: nat, idx: nat)
    requires idx + 6 * g.nz <= vertices.Length
    requires vertices[..idx] == Rows(g, i)
    requires forall k | idx <= k < vertices.Length :: vertices[k] == Zero
    modifies vertices
    ensures vertices[..idx + 6 * g.nz] == Rows(g, i + 1)
    ensures forall k | idx + 6 * g.nz <= k < vertices.Length :: vertices[k] == Zero
  {
    var next := idx;
    for j := 0 to g.nz
      invariant next == idx + 6 * j
      invariant vertices[..next] == EmittedUpTo(g, i, j)
      invariant forall k | next <= k < vertices.Length :: vertices[k] == Zero
    {
      FillCell(vertices, g, i, j, next);
      next := next + 6;
    }
    assert Rows(g, i + 1) == EmittedUpTo(g, i, g.nz);
  }

  /** One pass of the inner loop's body: cell (i, j) written from slot
      idx on. */
  method FillCell(vertices: array<Vec3>, g: Grid, i: nat, j: nat, idx: nat)
    requires idx + 6 <= vertices.Length
    requires vertices[..idx] == EmittedUpTo(g, i, j)
    requires forall k | idx <= k < vertices.Length :: vertices[k] == Zero
    modifies vertices
    ensures vertices[..idx + 6] == EmittedUpTo(g, i, j + 1)
    ensures forall k | idx + 6 <= k < vertices.Length :: vertices[k] == Zero
  {
    var x1 := CellX1(g, i);
    var x2 := x1 + g.stepX;
    var z1 := CellZ1(g, j);
    var z2 := z1 + g.stepZ;
    WriteCell(vertices, idx, x1, x2, z1, z2);
    assert EmittedUpTo(g, i, j + 1) == EmittedUpTo(g, i, j) + Cell(g, i, j);
  }

  const Zero: Vec3 := Vec3(0.0, 0.0, 0.0)

  /** The two slice assignments of one cell: triangle (x1,z1), (x2,z1),
      (x1,z2) into slots idx .. idx + 2 and (x2,z1), (x2,z2), (x1,z2) into
      idx + 3 .. idx + 5; every other slot keeps its value. */
  method WriteCell(vertices: array<Vec3>, idx: nat, x1: real, x2: real, z1: real, z2: real)
    requires idx + 6 <= vertices.Length
    modifies vertices
    ensures vertices[..idx + 6] == old(vertices[..idx]) + CellQuad(x1, x2, z1, z2)
    ensures forall k | idx + 6 <= k < vertices.Length :: vertices[k] == old(vertices[k])
  {
    vertices[idx] := Vec3(x1, 0.0, z1);
    vertices[idx + 1] := Vec3(x2, 0.0, z1);
    vertices[idx + 2] := Vec3(x1, 0.0, z2);
    vertices[idx + 3] := Vec3(x2, 0.0, z1);
    vertices[idx + 4] := Vec3(x2, 0.0, z2);
    vertices[idx + 5] := Vec3(x1, 0.0, z2);
  }

  // ---------------------------------------------------------------
  // The scene object
  // ---------------------------------------------------------------

  datatype RenderingMethod = VertexArrays | ImmediateMode

  /** `sqrt` is the square root `np.linalg.norm` takes, `seededDraws` the
      standard normal draws `np.random.seed(42)` fixes, `cosDeg` and
      `sinDeg` the cosine and sine of `np.radians` of an angle, `rotation`
      the matrix `get_inverse_rotation_matrix` builds for the angle pair
      (ax, az) (the class invariant makes it `InverseRotation`, the product
      `get_rotation_matrix_z(-az) . get_rotation_matrix_x(-ax)`), and
      `shade` the per-vertex lighting of
      `compute_lighting_vectorized`. Angles are whole
      degrees, as every caller passes whole steps, so the memo key
      `(round(angle_x, 2), round(angle_z, 2))` is the angle pair itself. */
  class OptimizedSpecularStreakScene {
    const floorGrid: Grid
    const sqrt: real -> real
    const seededDraws: nat -> real
    const cosDeg: real -> real
    const sinDeg: real -> real
    const rotation: (int, int) -> Mat3
    const shade: (Vec3, Vec3, Lighting) -> Vec3
    const originalCameraPos: Vec3
    var angleX: int
    var angleZ: int
    var originalLightPos: Vec3
    var lightPos: Vec3
    var cameraPos: Vec3
    var shininess: real
    var roughness: real
    var useWard: bool
    var rotationCache: map<(int, int), Mat3>
    var geometryCache: Option<StaticGeometry>
    var useVertexArrays: bool
    var renderingMethod: RenderingMethod
    var floorVertices: seq<Vec3>
    var floorNormals: seq<Vec3>
    var floorColors: seq<Vec3>

    /** The geometry the static generator computes when its cache is empty. */
    function StaticFloor(): (geo: StaticGeometry)
      requires SqrtPositive(sqrt)
      ensures |geo.vertices| == |geo.normals| == 6 * floorGrid.nx * floorGrid.nz
    {
      GridShape(floorGrid);
      StaticGeometry(GridVertices(floorGrid), SeededNormals(sqrt, seededDraws, 6 * floorGrid.nx * floorGrid.nz))
    }

    function CurrentLighting(): Lighting
      reads this
    {
      Lighting(lightPos, cameraPos, shininess, roughness, useWard)
    }

    /** `compute_lighting_vectorized`: one colour per vertex. */
    function Shaded(vs: seq<Vec3>, ns: seq<Vec3>, l: Lighting): (r: seq<Vec3>)
      requires |ns| == |vs|
      ensures |r| == |vs|
    {
      seq(|vs|, (k: int) requires 0 <= k < |vs| => shade(vs[k], ns[k], l))
    }

    /** The view rotation is the inverse rotation the two matrix builders
        multiply out. */
    ghost predicate RotationIsInverse() {
      IsInverseRotation(cosDeg, sinDeg, rotation)
    }

    /** Every memoised matrix is the inverse rotation of its own key. */
    ghost predicate CacheSound()
      reads this
    {
      forall key | key in rotationCache :: rotationCache[key] == rotation(key.0, key.1)
    }

    /** A cached floor is the floor the generator would build. */
    ghost predicate GeometryCacheSound()
      reads this
    {
      SqrtPositive(sqrt) && (geometryCache.Some? ==> geometryCache.value == StaticFloor())
    }

    /** The light and the camera are the originals carried by the inverse
        rotation of the current angles. */
    ghost predicate LightsPlaced()
      reads this
    {
      var m := rotation(angleX, angleZ);
      lightPos == MatVec(m, originalLightPos) && cameraPos == MatVec(m, originalCameraPos)
    }

    /** The stored floor is the static floor lit with the current lighting. */
    ghost predicate FloorLit()
      reads this
    {
      && SqrtPositive(sqrt)
      && floorVertices == StaticFloor().vertices
      && floorNormals == StaticFloor().normals
      && |floorNormals| == |floorVertices|
      && floorColors == Shaded(floorVertices, floorNormals, CurrentLighting())
    }

    /** What holds between frames: both memos sound, the light and the
        camera placed for the current angles, the floor lit for the current
        lighting and the material parameters within their ranges. */
    ghost predicate Valid()
      reads this
    {
      RotationIsInverse() && ValidExceptLights() && LightsPlaced()
    }

    /** Valid, except that the angles may have moved since the light and
        the camera were last placed. */
    ghost predicate ValidExceptLights()
      reads this
    {
      && CacheSound() && GeometryCacheSound() && FloorLit()
      && RoughnessInRange(roughness) && ShininessInRange(shininess)
    }

    constructor (sqrt: real -> real, seededDraws: nat -> real, cosDeg: real -> real, sinDeg: real -> real,
                 rotation: (int, int) -> Mat3, shade: (Vec3, Vec3, Lighting) -> Vec3)
      requires SqrtPositive(sqrt)
      requires IsInverseRotation(cosDeg, sinDeg, rotation)
      ensures Valid()
      ensures floorGrid == OptimizedFloor
      ensures this.sqrt == sqrt && this.seededDraws == seededDraws && this.shade == shade
      ensures this.cosDeg == cosDeg && this.sinDeg == sinDeg && this.rotation == rotation
      ensures cosDeg(0.0) == 1.0 && sinDeg(0.0) == 0.0 ==>
                lightPos == InitialLightPos && cameraPos == InitialCameraPos
      ensures angleX == 0 && angleZ == 0
      ensures originalLightPos == InitialLightPos && originalCameraPos == InitialCameraPos
      ensures shininess == InitialShininess && roughness == InitialRoughness && !useWard
      ensures useVertexArrays && renderingMethod == VertexArrays
      ensures rotationCache == map[(0, 0) := rotation(0, 0)]
      ensures geometryCache == Some(StaticFloor())
    {
      floorGrid := OptimizedFloor;
      this.sqrt := sqrt;
      this.seededDraws := seededDraws;
      this.cosDeg := cosDeg;
      this.sinDeg := sinDeg;
      this.rotation := rotation;
      this.shade := shade;
      lightPos := InitialLightPos;
      cameraPos := InitialCameraPos;
      shininess := InitialShininess;
      roughness := InitialRoughness;
      useWard := false;
      angleX := 0;
      angleZ := 0;
      originalLightPos := InitialLightPos;
      originalCameraPos := InitialCameraPos;
      rotationCache := map[];
      geometryCache := None;
      useVertexArrays := true;
      renderingMethod := VertexArrays;
      if cosDeg(0.0) == 1.0 && sinDeg(0.0) == 0.0 {
        RotationAtRest(cosDeg, sinDeg, rotation, InitialLightPos);
        RotationAtRest(cosDeg, sinDeg, rotation, InitialCameraPos);
      }
      new;
      GenerateFloorGeometry();
    }

    /** `get_inverse_rotation_matrix`: computes and stores the matrix when
        the key is new. Since stored matrices are those of their keys, the
        result is always the inverse rotation of the current angles. */
    method GetInverseRotationMatrix() returns (m: Mat3)
      requires CacheSound()
      modifies this`rotationCache
      ensures CacheSound()
      ensures m == rotation(angleX, angleZ)
      ensures rotationCache == old(rotationCache)[(angleX, angleZ) := m]
    {
      var cacheKey := (angleX, angleZ);
      if cacheKey !in rotationCache {
        rotationCache := rotationCache[cacheKey := rotation(angleX, angleZ)];
      }
      m := rotationCache[cacheKey];
    }

    /** Under the class invariant every memoised matrix is Rz(-az) times
        Rx(-ax) of its key, and the placed light and camera are the
        originals carried by that product for the current angles. */
    lemma CacheIsInverseRotation(key: (int, int))
      requires Valid()
      ensures key in rotationCache ==> rotationCache[key] == InverseRotation(cosDeg, sinDeg, key.0, key.1)
      ensures lightPos == MatVec(InverseRotation(cosDeg, sinDeg, angleX, angleZ), originalLightPos)
      ensures cameraPos == MatVec(InverseRotation(cosDeg, sinDeg, angleX, angleZ), originalCameraPos)
    {
      assert rotation(key.0, key.1) == InverseRotation(cosDeg, sinDeg, key.0, key.1);
      assert rotation(angleX, angleZ) == InverseRotation(cosDeg, sinDeg, angleX, angleZ);
    }

    /** `update_lighting_positions`. */
    method UpdateLightingPositions()
      requires CacheSound()
      modifies this`rotationCache, this`lightPos, this`cameraPos
      ensures CacheSound() && LightsPlaced()
      ensures rotationCache == old(rotationCache)[(angleX, angleZ) := rotation(angleX, angleZ)]
    {
      var invRotation := GetInverseRotationMatrix();
      lightPos := MatVec(invRotation, originalLightPos);
      cameraPos := MatVec(invRotation, originalCameraPos);
    }

    /** `generate_floor_geometry_static`: returns the cached pair when there
        is one, so that repeated calls return the same geometry; otherwise
        fills fresh arrays, normalises the seeded draws and caches both. */
    method GenerateFloorGeometryStatic() returns (geo: StaticGeometry)
      requires GeometryCacheSound()
      modifies this`geometryCache
      ensures GeometryCacheSound()
      ensures geo == StaticFloor() && geometryCache == Some(geo)
      ensures old(geometryCache).Some? ==> geo == old(geometryCache).value
    {
      if geometryCache.Some? {
        return geometryCache.value;
      }
      var numVertices := floorGrid.nx * floorGrid.nz * 2 * 3;
      var vertices := FillFloorVertices(floorGrid);
      assert numVertices == 6 * floorGrid.nx * floorGrid.nz;
      var normals := SeededNormals(sqrt, seededDraws, numVertices);
      geo := StaticGeometry(vertices[..], normals);
      geometryCache := Some(geo);
    }

    /** `generate_floor_geometry`: places the light and the camera, fetches
        the static floor and lights every vertex. */
    method GenerateFloorGeometry()
      requires CacheSound() && GeometryCacheSound()
      modifies this`rotationCache, this`lightPos, this`cameraPos, this`geometryCache
      modifies this`floorVertices, this`floorNormals, this`floorColors
      ensures CacheSound() && GeometryCacheSound() && LightsPlaced() && FloorLit()
      ensures rotationCache == old(rotationCache)[(angleX, angleZ) := rotation(angleX, angleZ)]
      ensures geometryCache == Some(StaticFloor())
    {
      UpdateLightingPositions();
      var geo := GenerateFloorGeometryStatic();
      StoreLitFloor(geo);
    }

    /** The end of `generate_floor_geometry`: every vertex of the static
        floor lit with the current lighting, and the three lists stored. */
    method StoreLitFloor(geo: StaticGeometry)
      requires SqrtPositive(sqrt) && geo == StaticFloor()
      modifies this`floorVertices, this`floorNormals, this`floorColors
      ensures FloorLit()
    {
      var colors := Shaded(geo.vertices, geo.normals, CurrentLighting());
      floorVertices := geo.vertices;
      floorNormals := geo.normals;
      floorColors := colors;
    }

    /** `render_glossy_floor`: vertex arrays while both flags allow them;
        when drawing with them fails, both flags switch to immediate mode
        and that frame is drawn in immediate mode. Nothing here switches
        back. */
    method RenderGlossyFloor(vertexArraysFail: bool) returns (drawnWith: RenderingMethod)
      modifies this`renderingMethod, this`useVertexArrays
      ensures old(renderingMethod == VertexArrays && useVertexArrays) && !vertexArraysFail ==>
                drawnWith == VertexArrays && renderingMethod == VertexArrays && useVertexArrays
      ensures old(renderingMethod == VertexArrays && useVertexArrays) && vertexArraysFail ==>
                drawnWith == ImmediateMode && renderingMethod == ImmediateMode && !useVertexArrays
      ensures !old(renderingMethod == VertexArrays && useVertexArrays) ==>
                drawnWith == ImmediateMode
                && renderingMethod == old(renderingMethod) && useVertexArrays == old(useVertexArrays)
    {
      if renderingMethod == VertexArrays && useVertexArrays {
        if !vertexArraysFail {
          drawnWith := VertexArrays;
        } else {
          renderingMethod := ImmediateMode;
          useVertexArrays := false;
          drawnWith := ImmediateMode;
        }
      } else {
        drawnWith := ImmediateMode;
      }
    }

    /** `render_immediate_mode`: every stored vertex with its colour and
        normal, in order. */
    method RenderImmediateMode() returns (draws: seq<GlVertex>)
      requires Valid()
      ensures |draws| == |floorVertices|
      ensures forall i | 0 <= i < |floorVertices| ::
                draws[i] == GlVertex(floorColors[i], floorNormals[i], floorVertices[i])
    {
      draws := DrawImmediate(floorColors, floorNormals, floorVertices);
    }

    /** `update_lighting_params`: sets only the supplied values, then
        regenerates the lit floor. */
    method UpdateLightingParams(lightHeight: Option<real>, newRoughness: Option<real>, newShininess: Option<real>)
      requires CacheSound() && GeometryCacheSound()
      modifies this`originalLightPos, this`roughness, this`shininess
      modifies this`rotationCache, this`lightPos, this`cameraPos, this`geometryCache
      modifies this`floorVertices, this`floorNormals, this`floorColors
      ensures originalLightPos == (if lightHeight.Some? then old(originalLightPos).(y := lightHeight.value)
                                   else old(originalLightPos))
      ensures roughness == (if newRoughness.Some? then newRoughness.value else old(roughness))
      ensures shininess == (if newShininess.Some? then newShininess.value else old(shininess))
      ensures CacheSound() && GeometryCacheSound() && LightsPlaced() && FloorLit()
      ensures rotationCache == old(rotationCache)[(angleX, angleZ) := rotation(angleX, angleZ)]
    {
      if lightHeight.Some? {
        originalLightPos := originalLightPos.(y := lightHeight.value);
      }
      if newRoughness.Some? {
        roughness := newRoughness.value;
      }
      if newShininess.Some? {
        shininess := newShininess.value;
      }
      GenerateFloorGeometry();
    }

    /** `update_angles`: adds the steps; when an angle changed, drops the
        new key from the memo, re-places the light and the camera and
        relights the cached floor. When neither changed, nothing does. */
    method UpdateAngles(deltaX: int, deltaZ: int)
      requires Valid()
      modifies this`angleX, this`angleZ
      modifies this`rotationCache, this`lightPos, this`cameraPos, this`geometryCache
      modifies this`floorVertices, this`floorNormals, this`floorColors
      ensures Valid()
      ensures angleX == old(angleX) + deltaX && angleZ == old(angleZ) + deltaZ
      ensures deltaX == 0 && deltaZ == 0 ==>
                && rotationCache == old(rotationCache) && geometryCache == old(geometryCache)
                && lightPos == old(lightPos) && cameraPos == old(cameraPos)
                && floorVertices == old(floorVertices) && floorNormals == old(floorNormals)
                && floorColors == old(floorColors)
      ensures (deltaX != 0 || deltaZ != 0) ==>
                rotationCache == old(rotationCache)[(angleX, angleZ) := rotation(angleX, angleZ)]
    {
      var oldAngleX := angleX;
      var oldAngleZ := angleZ;
      angleX := angleX + deltaX;
      angleZ := angleZ + deltaZ;
      if angleX != oldAngleX || angleZ != oldAngleZ {
        Relight();
      }
    }

    /** The changed-angle branch of `update_angles`: forgets the memoised
        matrix of the new key, then re-places the light and the camera and
        relights the cached floor, the same three steps as
        `generate_floor_geometry`. */
    method Relight()
      requires RotationIsInverse() && ValidExceptLights()
      modifies this`rotationCache, this`lightPos, this`cameraPos, this`geometryCache
      modifies this`floorVertices, this`floorNormals, this`floorColors
      ensures Valid()
      ensures rotationCache == old(rotationCache)[(angleX, angleZ) := rotation(angleX, angleZ)]
    {
      var cacheKey := (angleX, angleZ);
      if cacheKey in rotationCache {
        rotationCache := rotationCache - {cacheKey};
        assert rotationCache[cacheKey := rotation(angleX, angleZ)]
            == old(rotationCache)[cacheKey := rotation(angleX, angleZ)];
      }
      GenerateFloorGeometry();
    }

    /** One pass of the key loop. Escape or q ends the loop before any
        other key is looked at; otherwise every key present is handled
        once, in the loop's order: the arrows, the light height (1, 2),
        roughness (3, 4), shininess (5, 6), the light's depth (7, 8), the
        lighting model (w), the drawing path (v) and regeneration (r). */
    method HandleKeys(keys: seq<string>) returns (quit: bool)
      requires Valid()
      modifies this
      ensures quit <==> "escape" in keys || "q" in keys
      ensures quit ==> unchanged(this)
      ensures Valid()
      ensures !quit ==>
                && angleX == old(angleX) - (if "up" in keys then XStep else 0) + (if "down" in keys then XStep else 0)
                && angleZ == old(angleZ) - (if "left" in keys then ZStep else 0) + (if "right" in keys then ZStep else 0)
      ensures !quit ==>
                && originalLightPos.x == old(originalLightPos.x)
                && originalLightPos.y == old(originalLightPos.y) + (if "1" in keys then 2.0 else 0.0)
                                          - (if "2" in keys then 2.0 else 0.0)
                && originalLightPos.z == old(originalLightPos.z) - (if "7" in keys then 5.0 else 0.0)
                                          + (if "8" in keys then 5.0 else 0.0)
      ensures !quit ==>
                && roughness == KeyedRoughness(keys, old(roughness))
                && shininess == KeyedShininess(keys, old(shininess))
      ensures !quit ==> useWard == (old(useWard) != ("w" in keys))
      ensures !quit ==> useVertexArrays == (old(useVertexArrays) != ("v" in keys))
      ensures !quit ==> renderingMethod == if "v" !in keys then old(renderingMethod)
                                           else if useVertexArrays then VertexArrays else ImmediateMode
    {
      if "escape" in keys || "q" in keys {
        return true;
      }
      quit := false;
      RotationKeys(keys);
      LightingKeys(keys);
      ToggleKeys(keys);
    }

    /** The arrow keys: left and right turn about z, up and down about x. */
    method RotationKeys(keys: seq<string>)
      requires Valid()
      modifies this`angleX, this`angleZ
      modifies this`rotationCache, this`lightPos, this`cameraPos, this`geometryCache
      modifies this`floorVertices, this`floorNormals, this`floorColors
      ensures Valid()
      ensures angleX == old(angleX) - (if "up" in keys then XStep else 0) + (if "down" in keys then XStep else 0)
      ensures angleZ == old(angleZ) - (if "left" in keys then ZStep else 0) + (if "right" in keys then ZStep else 0)
    {
      if "left" in keys {
        UpdateAngles(0, -ZStep);
      }
      if "right" in keys {
        UpdateAngles(0, ZStep);
      }
      if "up" in keys {
        UpdateAngles(-XStep, 0);
      }
      if "down" in keys {
        UpdateAngles(XStep, 0);
      }
    }

    /** Keys 1 to 8: the light's height, the clamped material steps and the
        light's depth, each followed by a relit floor. */
    method LightingKeys(keys: seq<string>)
      requires Valid()
      modifies this`originalLightPos, this`roughness, this`shininess
      modifies this`rotationCache, this`lightPos, this`cameraPos, this`geometryCache
      modifies this`floorVertices, this`floorNormals, this`floorColors
      ensures Valid()
      ensures originalLightPos.x == old(originalLightPos.x)
      ensures originalLightPos.y == old(originalLightPos.y) + (if "1" in keys then 2.0 else 0.0)
                                      - (if "2" in keys then 2.0 else 0.0)
      ensures originalLightPos.z == old(originalLightPos.z) - (if "7" in keys then 5.0 else 0.0)
                                      + (if "8" in keys then 5.0 else 0.0)
      ensures roughness == KeyedRoughness(keys, old(roughness))
      ensures shininess == KeyedShininess(keys, old(shininess))
    {
      MaterialKeys(keys);
      if "7" in keys {
        MoveLight(-5.0);
      }
      if "8" in keys {
        MoveLight(5.0);
      }
    }

    /** The light moved along z by `dz`, then a relit floor. */
    method MoveLight(dz: real)
      requires Valid()
      modifies this`originalLightPos
      modifies this`rotationCache, this`lightPos, this`cameraPos, this`geometryCache
      modifies this`floorVertices, this`floorNormals, this`floorColors
      ensures Valid()
      ensures originalLightPos == old(originalLightPos).(z := old(originalLightPos).z + dz)
    {
      originalLightPos := originalLightPos.(z := originalLightPos.z + dz);
      GenerateFloorGeometry();
    }

    /** Keys 1 to 6, each through `update_lighting_params`. */
    method MaterialKeys(keys: seq<string>)
      requires Valid()
      modifies this`originalLightPos, this`roughness, this`shininess
      modifies this`rotationCache, this`lightPos, this`cameraPos, this`geometryCache
      modifies this`floorVertices, this`floorNormals, this`floorColors
      ensures Valid()
      ensures originalLightPos.x == old(originalLightPos.x) && originalLightPos.z == old(originalLightPos.z)
      ensures originalLightPos.y == old(originalLightPos.y) + (if "1" in keys then 2.0 else 0.0)
                                      - (if "2" in keys then 2.0 else 0.0)
      ensures roughness == KeyedRoughness(keys, old(roughness))
      ensures shininess == KeyedShininess(keys, old(shininess))
    {
      HeightKeys(keys);
      RoughnessKeys(keys);
      ShininessKeys(keys);
    }

    /** Keys 1 and 2: the light two units higher or lower. */
    method HeightKeys(keys: seq<string>)
      requires Valid()
      modifies this`originalLightPos, this`roughness, this`shininess
      modifies this`rotationCache, this`lightPos, this`cameraPos, this`geometryCache
      modifies this`floorVertices, this`floorNormals, this`floorColors
      ensures Valid()
      ensures originalLightPos.x == old(originalLightPos.x) && originalLightPos.z == old(originalLightPos.z)
      ensures originalLightPos.y == old(originalLightPos.y) + (if "1" in keys then 2.0 else 0.0)
                                      - (if "2" in keys then 2.0 else 0.0)
      ensures roughness == old(roughness) && shininess == old(shininess)
    {
      if "1" in keys {
        UpdateLightingParams(Some(originalLightPos.y + 2.0), None, None);
      }
      if "2" in keys {
        UpdateLightingParams(Some(originalLightPos.y - 2.0), None, None);
      }
    }

    /** Keys 3 and 4: roughness one clamped step up or down. */
    method RoughnessKeys(keys: seq<string>)
      requires Valid()
      modifies this`originalLightPos, this`roughness, this`shininess
      modifies this`rotationCache, this`lightPos, this`cameraPos, this`geometryCache
      modifies this`floorVertices, this`floorNormals, this`floorColors
      ensures Valid()
      ensures originalLightPos == old(originalLightPos) && shininess == old(shininess)
      ensures roughness == KeyedRoughness(keys, old(roughness))
    {
      if "3" in keys {
        UpdateLightingParams(None, Some(RoughnessUp(roughness)), None);
      }
      if "4" in keys {
        UpdateLightingParams(None, Some(RoughnessDown(roughness)), None);
      }
    }

    /** Keys 5 and 6: shininess one clamped step up or down. */
    method ShininessKeys(keys: seq<string>)
      requires Valid()
      modifies this`originalLightPos, this`roughness, this`shininess
      modifies this`rotationCache, this`lightPos, this`cameraPos, this`geometryCache
      modifies this`floorVertices, this`floorNormals, this`floorColors
      ensures Valid()
      ensures originalLightPos == old(originalLightPos) && roughness == old(roughness)
      ensures shininess == KeyedShininess(keys, old(shininess))
    {
      if "5" in keys {
        UpdateLightingParams(None, None, Some(ShininessUp(shininess)));
      }
      if "6" in keys {
        UpdateLightingParams(None, None, Some(ShininessDown(shininess)));
      }
    }

    /** Keys w, v and r: switch the lighting model and relight, switch the
        drawing path, or drop the cached floor and rebuild it. */
    method ToggleKeys(keys: seq<string>)
      requires Valid()
      modifies this`useWard, this`useVertexArrays, this`renderingMethod
      modifies this`rotationCache, this`lightPos, this`cameraPos, this`geometryCache
      modifies this`floorVertices, this`floorNormals, this`floorColors
      ensures Valid()
      ensures useWard == (old(useWard) != ("w" in keys))
      ensures useVertexArrays == (old(useVertexArrays) != ("v" in keys))
      ensures renderingMethod == if "v" !in keys then old(renderingMethod)
                                 else if useVertexArrays then VertexArrays else ImmediateMode
    {
      WardAndPathKeys(keys);
      if "r" in keys {
        Rebuild();
      }
    }

    /** Keys w and v. */
    method WardAndPathKeys(keys: seq<string>)
      requires Valid()
      modifies this`useWard, this`useVertexArrays, this`renderingMethod
      modifies this`rotationCache, this`lightPos, this`cameraPos, this`geometryCache
      modifies this`floorVertices, this`floorNormals, this`floorColors
      ensures Valid()
      ensures useWard == (old(useWard) != ("w" in keys))
      ensures useVertexArrays == (old(useVertexArrays) != ("v" in keys))
      ensures renderingMethod == if "v" !in keys then old(renderingMethod)
                                 else if useVertexArrays then VertexArrays else ImmediateMode
    {
      if "w" in keys {
        ToggleWard();
      }
      if "v" in keys {
        TogglePath();
      }
    }

    /** Key v: the other drawing path, taken at once. */
    method TogglePath()
      requires Valid()
      modifies this`useVertexArrays, this`renderingMethod
      ensures Valid()
      ensures useVertexArrays == !old(useVertexArrays)
      ensures renderingMethod == if useVertexArrays then VertexArrays else ImmediateMode
    {
      useVertexArrays := !useVertexArrays;
      renderingMethod := if useVertexArrays then VertexArrays else ImmediateMode;
    }

    /** Key w: the other lighting model, and a relit floor. */
    method ToggleWard()
      requires Valid()
      modifies this`useWard
      modifies this`rotationCache, this`lightPos, this`cameraPos, this`geometryCache
      modifies this`floorVertices, this`floorNormals, this`floorColors
      ensures Valid()
      ensures useWard == !old(useWard)
    {
      useWard := !useWard;
      GenerateFloorGeometry();
    }

    /** Key r: the cached floor dropped and built again. */
    method Rebuild()
      requires Valid()
      modifies this`rotationCache, this`lightPos, this`cameraPos, this`geometryCache
      modifies this`floorVertices, this`floorNormals, this`floorColors
      ensures Valid()
    {
      geometryCache := None;
      GenerateFloorGeometry();
    }
  }
}
