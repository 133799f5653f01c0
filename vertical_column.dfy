/** VerticalColumn.py: a light column made of 50 thin vertical slabs
    hanging from the floor plane, stacked in depth from z = -5 to z = -4.2,
    each shifted sideways by its own Gaussian draw, above a finely
    tessellated jittered floor. */
module VerticalColumn {
  import opened Common
  import opened BoxMesh
  import opened FloorGrid

  // ---------------------------------------------------------------
  // Floor
  // ---------------------------------------------------------------

  /** A 40-unit floor of 250 by 250 cells, each 0.16 wide, starting at -20. */
  const VerticalFloor: Grid := Grid(-20.0, -20.0, 0.16, 0.16, 250, 250)

  /** How many Gaussian draws the floor makes: one per vertex. */
  const FloorDraws: nat := 6 * 250 * 250

  /** The floor has 250 * 250 * 6 = 375000 vertices, all at y = 0. */
  lemma FloorShape(g: Grid)
    requires g == VerticalFloor
    ensures |GridVertices(g)| == FloorDraws == 375000
    ensures forall k | 0 <= k < FloorDraws :: GridVertices(g)[k].y == 0.0
  {
    GridShape(g);
  }

  /** The floor has as many normals as vertices, each pointing upwards
      with z-component 0. */
  lemma FloorNormalsShape(g: Grid, sqrt: real -> real, gauss: nat -> real, normals: seq<Vec3>)
    requires g == VerticalFloor && SqrtPositive(sqrt)
    requires normals == VertexwiseNormals(6 * (g.nx * g.nz), (k: nat) => GaussFloorNormal(sqrt, gauss, k))
    ensures |normals| == FloorDraws
    ensures forall k | 0 <= k < |normals| :: normals[k].z == 0.0 && normals[k].y > 0.0
  {
    assert g.nx * g.nz == 62500;
    GaussNormalsUp(sqrt, gauss, FloorDraws, normals);
  }

  // ---------------------------------------------------------------
  // Column
  // ---------------------------------------------------------------

  const ColumnWidth: real := 2.0
  const ColumnHeight: real := 15.0
  const ColumnDepth: real := 0.8
  const Segments: nat := 50

  /** The near edge of segment i of n: -5 + (i / n) * 0.8. */
  function SegmentZ(n: nat, i: nat): real
    requires n > 0
  {
    -5.0 + ((i as real) / (n as real)) * ColumnDepth
  }

  /** Segment i of n with sideways shift xOffset: 2 wide, from y = 0 down
      to y = -15, from its near edge back by 0.8 / n. */
  function Slab(n: nat, i: nat, xOffset: real): Box
    requires n > 0
  {
    Box(-ColumnWidth / 2.0 + xOffset, ColumnWidth / 2.0 + xOffset, 0.0, -ColumnHeight,
        SegmentZ(n, i), SegmentZ(n, i) + ColumnDepth / (n as real))
  }

  /** A slab has front, back, left and right faces but no top or bottom. */
  function SlabVertices(b: Box): seq<Vec3> {
    FaceVertices(Front, b) + FaceVertices(Back, b) + FaceVertices(Left, b) + FaceVertices(Right, b)
  }

  function SlabNormals(): seq<Vec3> {
    Six(FaceNormal(Front)) + Six(FaceNormal(Back)) + Six(FaceNormal(Left)) + Six(FaceNormal(Right))
  }

  /** The slab's 24 vertices are the first four faces of the box: each
      lies on face k / 6 and is a corner; its normals are those faces' normals. */
  lemma SlabFaces(b: Box)
    ensures |SlabVertices(b)| == 24 && |SlabNormals()| == 24
    ensures forall k | 0 <= k < 24 ::
              OnFace(SlabVertices(b)[k], FaceOrder[k / 6], b) && IsCorner(SlabVertices(b)[k], b)
    ensures forall k | 0 <= k < 24 :: SlabNormals()[k] == FaceNormal(FaceOrder[k / 6])
  {
    assert SlabVertices(b) == BoxVertices(b)[..24];
    assert SlabNormals() == BoxNormals()[..24];
  }

  /** The column's vertices once segments 0 .. m - 1 of n are emitted,
      segment i shifted by xOffsets(i): slot 24 * i + c holds vertex c of
      segment i. */
  function ColumnVertices(xOffsets: nat -> real, n: nat, m: nat): (r: seq<Vec3>)
    requires n > 0
    ensures |r| == 24 * m
  {
    seq(24 * m, (k: int) requires 0 <= k => SlabVertices(Slab(n, k / 24, xOffsets(k / 24)))[k % 24])
  }

  /** One more segment appends exactly that segment's slab. */
  lemma ColumnVerticesStep(xOffsets: nat -> real, n: nat, m: nat)
    requires n > 0
    ensures ColumnVertices(xOffsets, n, m + 1)
            == ColumnVertices(xOffsets, n, m) + SlabVertices(Slab(n, m, xOffsets(m)))
  {
    var r := ColumnVertices(xOffsets, n, m) + SlabVertices(Slab(n, m, xOffsets(m)));
    SlabFaces(Slab(n, m, xOffsets(m)));
    forall k | 0 <= k < 24 * (m + 1)
      ensures ColumnVertices(xOffsets, n, m + 1)[k] == r[k]
    {
      if k >= 24 * m {
        assert k / 24 == m && k % 24 == k - 24 * m;
      }
    }
  }

  /** The column's normals once m segments are emitted: the slab's 24
      normals, m times over. */
  function ColumnNormals(m: nat): (r: seq<Vec3>)
    ensures |r| == 24 * m
  {
    seq(24 * m, (k: int) requires 0 <= k => SlabNormals()[k % 24])
  }

  /** One more segment appends exactly one slab's normals. */
  lemma ColumnNormalsStep(m: nat)
    ensures ColumnNormals(m + 1) == ColumnNormals(m) + SlabNormals()
  {
    var slab := SlabNormals();
    assert |slab| == 24;
    var r := ColumnNormals(m) + slab;
    forall k | 0 <= k < 24 * (m + 1)
      ensures ColumnNormals(m + 1)[k] == r[k]
    {
      if k >= 24 * m {
        var c := k - 24 * m;
        assert k % 24 == c;
        assert r[k] == slab[c];
      } else {
        assert r[k] == ColumnNormals(m)[k];
      }
    }
  }

  /** Segment i occupies the 24 slots starting at 24 * i. */
  lemma SegmentAt(xOffsets: nat -> real, n: nat, m: nat, i: nat, c: nat)
    requires n > 0 && i < m && c < 24
    ensures 24 * i + c < |ColumnVertices(xOffsets, n, m)|
    ensures ColumnVertices(xOffsets, n, m)[24 * i + c] == SlabVertices(Slab(n, i, xOffsets(i)))[c]
  {
    var k := 24 * i + c;
    assert k / 24 == i && k % 24 == c;
    SlabFaces(Slab(n, i, xOffsets(i)));
  }

  /** Segment i spans z from -5 + i * 0.016 to -5 + (i + 1) * 0.016, y from
      0 to -15, and is exactly 2 wide whatever its shift. */
  lemma SlabExtent(i: nat, xOffset: real)
    ensures Slab(Segments, i, xOffset).z1 == Offset(-5.0, 0.016, i)
    ensures Slab(Segments, i, xOffset).z2 == Offset(-5.0, 0.016, i + 1)
    ensures Slab(Segments, i, xOffset).yTop == 0.0 && Slab(Segments, i, xOffset).yBottom == -15.0
    ensures Slab(Segments, i, xOffset).x2 - Slab(Segments, i, xOffset).x1 == 2.0
  {
    var r := i as real;
    assert (r / 50.0) * 0.8 == r * 0.016;
    assert ((i + 1) as real) * 0.016 == r * 0.016 + 0.016;
  }

  /** Consecutive slabs abut exactly in z, whatever their shifts. */
  lemma SlabsAbut(i: nat, a: real, b: real)
    ensures Slab(Segments, i, a).z2 == Slab(Segments, i + 1, b).z1
  {
    SlabExtent(i, a);
    SlabExtent(i + 1, b);
  }

  /** Together the 50 slabs cover z from -5 to -4.2 and no further. */
  lemma ColumnDepthRange(i: nat, xOffset: real)
    requires i < Segments
    ensures Slab(Segments, 0, xOffset).z1 == -5.0 && Slab(Segments, Segments - 1, xOffset).z2 == -4.2
    ensures -5.0 <= Slab(Segments, i, xOffset).z1 < Slab(Segments, i, xOffset).z2 <= -4.2
  {
    SlabExtent(0, xOffset);
    SlabExtent(Segments - 1, xOffset);
    SlabExtent(i, xOffset);
    Span(-5.0, 0.016, i, Segments);
  }

  // ---------------------------------------------------------------
  // The scene object
  // ---------------------------------------------------------------

  /** The source's class carries the white-column scene's name. */
  class WhiteColumnScene {
    /** The floor's layout: the constants of `generate_floor_geometry`. */
    const floorGrid: Grid
    /** The number of slabs: the `segments` of `generate_column_geometry`. */
    const segments: nat
    var floorVertices: seq<Vec3>
    var floorNormals: seq<Vec3>
    var columnVertices: seq<Vec3>
    var columnNormals: seq<Vec3>
    var angleX: real
    var angleZ: real

    /** `gauss` is the stream of `random.gauss` values: the floor's normals
        take the first 375000, the column's shifts the next 50. */
    constructor (sqrt: real -> real, gauss: nat -> real)
      requires SqrtPositive(sqrt)
      ensures floorGrid == VerticalFloor && segments == Segments
      ensures floorVertices == GridVertices(floorGrid)
      ensures floorNormals == VertexwiseNormals(6 * (floorGrid.nx * floorGrid.nz),
                                                (k: nat) => GaussFloorNormal(sqrt, gauss, k))
      ensures columnVertices == ColumnVertices((i: nat) => gauss(FloorDraws + i), segments, segments)
      ensures columnNormals == ColumnNormals(segments)
      ensures angleX == 0.0 && angleZ == 0.0
    {
      floorGrid := VerticalFloor;
      segments := Segments;
      new;
      GenerateFloorGeometry(sqrt, gauss);
      GenerateColumnGeometry((i: nat) => gauss(FloorDraws + i));
      angleX := 0.0;
      angleZ := 0.0;
    }

    /** `generate_floor_geometry`: the grid, one jittered normal per vertex. */
    method GenerateFloorGeometry(sqrt: real -> real, gauss: nat -> real)
      requires SqrtPositive(sqrt)
      modifies this
      ensures floorVertices == GridVertices(floorGrid)
      ensures floorNormals == VertexwiseNormals(6 * (floorGrid.nx * floorGrid.nz),
                                                (k: nat) => GaussFloorNormal(sqrt, gauss, k))
      ensures columnVertices == old(columnVertices) && columnNormals == old(columnNormals)
      ensures angleX == old(angleX) && angleZ == old(angleZ)
    {
      floorVertices, floorNormals := EmitJitteredGrid(floorGrid, (k: nat) => GaussFloorNormal(sqrt, gauss, k));
    }

    /** `generate_column_geometry`: four faces per segment, segment after
        segment, segment i shifted by the draw xOffsets(i). */
    method GenerateColumnGeometry(xOffsets: nat -> real)
      requires segments > 0
      modifies this
      ensures columnVertices == ColumnVertices(xOffsets, segments, segments)
      ensures columnNormals == ColumnNormals(segments)
      ensures floorVertices == old(floorVertices) && floorNormals == old(floorNormals)
      ensures angleX == old(angleX) && angleZ == old(angleZ)
    {
      columnVertices := [];
      columnNormals := [];
      for i := 0 to segments
        invariant columnVertices == ColumnVertices(xOffsets, segments, i)
        invariant columnNormals == ColumnNormals(i)
        invariant floorVertices == old(floorVertices) && floorNormals == old(floorNormals)
        invariant angleX == old(angleX) && angleZ == old(angleZ)
      {
        var xOffset := xOffsets(i);
        var zPos := -5.0 + ((i as real) / (segments as real)) * ColumnDepth;
        var x1 := -ColumnWidth / 2.0 + xOffset;
        var x2 := ColumnWidth / 2.0 + xOffset;
        var y1 := 0.0;
        var y2 := -ColumnHeight;
        var z1 := zPos;
        var z2 := zPos + ColumnDepth / (segments as real);
        var b := Box(x1, x2, y1, y2, z1, z2);
        assert b == Slab(segments, i, xOffset);
        AddSlabFaces(b);
        ColumnVerticesStep(xOffsets, segments, i);
        ColumnNormalsStep(i);
      }
    }

    /** The four faces of one segment, each with its six normals, appended
        to the column lists. */
    method AddSlabFaces(b: Box)
      modifies this
      ensures columnVertices == old(columnVertices) + SlabVertices(b)
      ensures columnNormals == old(columnNormals) + SlabNormals()
      ensures floorVertices == old(floorVertices) && floorNormals == old(floorNormals)
      ensures angleX == old(angleX) && angleZ == old(angleZ)
    {
      columnVertices := columnVertices + FaceVertices(Front, b);
      columnNormals := columnNormals + Six(FaceNormal(Front));
      columnVertices := columnVertices + FaceVertices(Back, b);
      columnNormals := columnNormals + Six(FaceNormal(Back));
      columnVertices := columnVertices + FaceVertices(Left, b);
      columnNormals := columnNormals + Six(FaceNormal(Left));
      columnVertices := columnVertices + FaceVertices(Right, b);
      columnNormals := columnNormals + Six(FaceNormal(Right));
    }
  }
}
