/** WhiteColumn.py: a 500-layer column of bricks at z = -20 above a
    jittered floor. A layer is missing, split into two narrower bricks
    either side of the centre line, or one whole brick; every brick has
    its own offsets and brightness. */
module WhiteColumn {
  import opened Common
  import opened BoxMesh
  import opened FloorGrid

  // ---------------------------------------------------------------
  // Floor
  // ---------------------------------------------------------------

  /** A 40-unit floor of 100 by 100 cells, each 0.4 wide, starting at -20. */
  const WhiteFloor: Grid := Grid(-20.0, -20.0, 0.4, 0.4, 100, 100)


  /** The floor has 100 * 100 * 6 = 60000 vertices, all at y = 0. */
  lemma FloorShape(g: Grid)
    requires g == WhiteFloor
    ensures |GridVertices(g)| == 60000
    ensures forall k | 0 <= k < 60000 :: GridVertices(g)[k].y == 0.0
  {
    GridShape(g);
  }

  /** The floor has as many normals as vertices, each pointing upwards
      with z-component 0. */
  lemma FloorNormalsShape(g: Grid, sqrt: real -> real, gauss: nat -> real, normals: seq<Vec3>)
    requires g == WhiteFloor && SqrtPositive(sqrt)
    requires normals == VertexwiseNormals(6 * (g.nx * g.nz), (k: nat) => GaussFloorNormal(sqrt, gauss, k))
    ensures |normals| == 60000
    ensures forall k | 0 <= k < |normals| :: normals[k].z == 0.0 && normals[k].y > 0.0
  {
    assert g.nx * g.nz == 10000;
    GaussNormalsUp(sqrt, gauss, 60000, normals);
  }

  // ---------------------------------------------------------------
  // Column
  // ---------------------------------------------------------------

  const NumBricks: nat := 500
  const BrickHeight: real := 15.0 / 500.0
  const MaxOffset: real := 0.3
  const BrickWidth: real := 1.4
  const BrickDepth: real := 0.6
  const ColumnZPosition: real := -20.0
  const MinBrightness: real := 0.1
  const MaxBrightness: real := 1.0
  const BrightnessVariation: real := 1.0
  const MissingBrickProbability: real := 0.15
  const SplitRowProbability: real := 0.25
  const SplitGap: real := 0.3
  const SplitBrickWidth: real := BrickWidth * 0.7

  /** One brick the layer loop emits: its layer, the centre of its x and z
      extent, its width and its brightness. */
  datatype Placement = Placement(layer: nat, x: real, z: real, width: real, brightness: real)

  /** One `brick_data` entry. */
  datatype BrickData = BrickData(vertices: seq<Vec3>, normals: seq<Vec3>, brightness: real)

  /** A uniform brightness in [1.0 - 1.0, 1.0], floored at 0.1. */
  function Brightness(u: Unit): (r: real)
    ensures MinBrightness <= r <= MaxBrightness
  {
    Max(MinBrightness, Uniform(MaxBrightness - BrightnessVariation, MaxBrightness, u))
  }

  /** Where half s of a split layer is centred before its own jitter:
      gap / 2 + width / 4 to the left of the centre line, or as far to the right. */
  function SplitBase(s: nat): real {
    if s == 0 then -SplitGap / 2.0 - BrickWidth / 4.0 else SplitGap / 2.0 + BrickWidth / 4.0
  }

  /** Half s of split layer i from three draws at k: x jitter within half
      the offset range, z jitter, brightness. */
  function SplitHalf(u: nat -> Unit, i: nat, s: nat, k: nat): Placement {
    Placement(i, SplitBase(s) + Uniform(-MaxOffset / 2.0, MaxOffset / 2.0, u(k)),
              ColumnZPosition + Uniform(-MaxOffset, MaxOffset, u(k + 1)),
              SplitBrickWidth, Brightness(u(k + 2)))
  }

  /** A whole layer i from three draws at k. */
  function WholeLayer(u: nat -> Unit, i: nat, k: nat): Placement {
    Placement(i, Uniform(-MaxOffset, MaxOffset, u(k)),
              ColumnZPosition + Uniform(-MaxOffset, MaxOffset, u(k + 1)),
              BrickWidth, Brightness(u(k + 2)))
  }

  /** The bricks of layers i .. 499 with the stream at draw k: a first
      draw below 0.15 drops the layer; otherwise a second draw below 0.25
      splits it into two halves of three draws each, and a whole brick
      takes three draws. */
  function Layers(u: nat -> Unit, i: nat, k: nat): seq<Placement>
    decreases NumBricks - i
  {
    if i >= NumBricks then []
    else if u(k) < MissingBrickProbability then Layers(u, i + 1, k + 1)
    else if u(k + 1) < SplitRowProbability then
      [SplitHalf(u, i, 0, k + 2), SplitHalf(u, i, 1, k + 5)] + Layers(u, i + 1, k + 8)
    else [WholeLayer(u, i, k + 2)] + Layers(u, i + 1, k + 5)
  }

  function LayerBox(p: Placement): Box {
    Box(p.x - p.width / 2.0, p.x + p.width / 2.0,
        -(p.layer as real) * BrickHeight, -((p.layer + 1) as real) * BrickHeight,
        p.z - BrickDepth / 2.0, p.z + BrickDepth / 2.0)
  }

  function Entry(p: Placement): BrickData {
    BrickData(BoxVertices(LayerBox(p)), BoxNormals(), p.brightness)
  }

  /** What every emitted brick satisfies: a layer of the column, a
      brightness in [0.1, 1.0], a z-centre within 0.3 of z = -20, and the
      whole width or the 0.7 split width. */
  predicate WellPlaced(p: Placement, i: nat) {
    && i <= p.layer < NumBricks
    && MinBrightness <= p.brightness <= MaxBrightness
    && ColumnZPosition - MaxOffset <= p.z <= ColumnZPosition + MaxOffset
    && (p.width == BrickWidth || p.width == SplitBrickWidth)
  }

  /** At most two bricks per remaining layer (so at most 1000 in all), in
      non-decreasing layer order, each well placed. */
  lemma {:induction false} LayersShape(u: nat -> Unit, i: nat, k: nat)
    requires i <= NumBricks
    ensures |Layers(u, i, k)| <= 2 * (NumBricks - i)
    ensures forall m | 0 <= m < |Layers(u, i, k)| :: WellPlaced(Layers(u, i, k)[m], i)
    ensures forall m, n | 0 <= m < n < |Layers(u, i, k)| ::
              Layers(u, i, k)[m].layer <= Layers(u, i, k)[n].layer
    decreases NumBricks - i
  {
    if i < NumBricks {
      if u(k) < MissingBrickProbability {
        LayersShape(u, i + 1, k + 1);
      } else if u(k + 1) < SplitRowProbability {
        LayersShape(u, i + 1, k + 8);
      } else {
        LayersShape(u, i + 1, k + 5);
      }
    }
  }

  /** The two halves of a split layer sit at mirror-image base offsets
      -0.5 and +0.5, each jittered by at most 0.15, with width 0.98. */
  lemma SplitHalves(u: nat -> Unit, i: nat, k: nat)
    ensures SplitBase(0) == -SplitBase(1) == -0.5
    ensures SplitHalf(u, i, 0, k).width == SplitHalf(u, i, 1, k).width == 0.98
    ensures forall s | 0 <= s < 2 ::
              SplitBase(s) - MaxOffset / 2.0 <= SplitHalf(u, i, s, k).x <= SplitBase(s) + MaxOffset / 2.0
  {
  }

  lemma LayerStep(i: nat, h: real)
    requires h > 0.0
    ensures -(i as real) * h - (-((i + 1) as real) * h) == h
  {
    var p := (i as real) * h;
    assert ((i + 1) as real) * h == p + h;
  }

  /** Every entry holds 36 vertices and 36 normals, the box of its layer
      spanning y from -layer * h down to -(layer + 1) * h, h = 15 / 500. */
  lemma EntryShape(p: Placement)
    ensures |Entry(p).vertices| == 36 && |Entry(p).normals| == 36
    ensures LayerBox(p).yTop == -(p.layer as real) * BrickHeight
    ensures LayerBox(p).yTop - LayerBox(p).yBottom == 15.0 / 500.0
    ensures LayerBox(p).x2 - LayerBox(p).x1 == p.width
    ensures (LayerBox(p).z1 + LayerBox(p).z2) / 2.0 == p.z
  {
    LayerStep(p.layer, BrickHeight);
  }

  /** A whole layer contributes one brick and five draws. */
  lemma WholeStep(u: nat -> Unit, i: nat, k: nat, done: seq<Placement>)
    requires i < NumBricks && u(k) >= MissingBrickProbability && u(k + 1) >= SplitRowProbability
    ensures done + Layers(u, i, k) == (done + [WholeLayer(u, i, k + 2)]) + Layers(u, i + 1, k + 5)
  {
  }

  /** A split layer contributes its two halves and eight draws. */
  lemma SplitStep(u: nat -> Unit, i: nat, k: nat, done: seq<Placement>)
    requires i < NumBricks && u(k) >= MissingBrickProbability && u(k + 1) < SplitRowProbability
    ensures done + Layers(u, i, k)
         == (done + [SplitHalf(u, i, 0, k + 2), SplitHalf(u, i, 1, k + 5)]) + Layers(u, i + 1, k + 8)
  {
  }

  /** The entries of the first n halves of a split layer i whose draws
      start at k. */
  function HalfEntries(u: nat -> Unit, i: nat, k: nat, n: nat): seq<BrickData> {
    if n == 0 then []
    else
      var m := n - 1;
      HalfEntries(u, i, k, m) + [Entry(SplitHalf(u, i, m, k + 3 * m))]
  }

  lemma HalfEntriesPair(u: nat -> Unit, i: nat, k: nat)
    ensures HalfEntries(u, i, k, 2) == [Entry(SplitHalf(u, i, 0, k)), Entry(SplitHalf(u, i, 1, k + 3))]
  {
    assert HalfEntries(u, i, k, 1) == [Entry(SplitHalf(u, i, 0, k))];
  }

  // ---------------------------------------------------------------
  // The scene object
  // ---------------------------------------------------------------

  class WhiteColumnScene {
    /** The floor's layout: the constants of `generate_floor_geometry`. */
    const floorGrid: Grid
    var floorVertices: seq<Vec3>
    var floorNormals: seq<Vec3>
    var columnVertices: seq<Vec3>
    var columnNormals: seq<Vec3>
    var brickData: seq<BrickData>
    var angleX: real
    var angleZ: real

    /** `gauss` is the stream of `random.gauss(0, 0.05)` values the floor
        draws, `u` the stream of `random.random()` values the column draws. */
    constructor (sqrt: real -> real, gauss: nat -> real, u: nat -> Unit)
      requires SqrtPositive(sqrt)
      ensures floorGrid == WhiteFloor
      ensures floorVertices == GridVertices(floorGrid)
      ensures floorNormals == VertexwiseNormals(6 * (floorGrid.nx * floorGrid.nz),
                                                (k: nat) => GaussFloorNormal(sqrt, gauss, k))
      ensures brickData == MapSeq(Entry, Layers(u, 0, 0))
      ensures columnVertices == [] && columnNormals == []
      ensures angleX == 0.0 && angleZ == 0.0
    {
      floorGrid := WhiteFloor;
      new;
      GenerateFloorGeometry(sqrt, gauss);
      GenerateColumnGeometry(u);
      angleX := 0.0;
      angleZ := 0.0;
    }

    /** `generate_floor_geometry`: the grid, one jittered normal per vertex. */
    method GenerateFloorGeometry(sqrt: real -> real, gauss: nat -> real)
      requires SqrtPositive(sqrt)
      modifies this
      ensures floorVertices == GridVertices(floorGrid)
      ensures floorNormals == VertexwiseNormals(6 * (floorGrid.nx * floorGrid.nz),
                                                (k: nat) => GaussFloorNormal(sqrt, gauss, k))
      ensures columnVertices == old(columnVertices) && columnNormals == old(columnNormals)
      ensures brickData == old(brickData) && angleX == old(angleX) && angleZ == old(angleZ)
    {
      floorVertices, floorNormals := EmitJitteredGrid(floorGrid, (k: nat) => GaussFloorNormal(sqrt, gauss, k));
    }

    /** One brick's faces, emitted into fresh lists, centred at
        (brickX, brickZ) with the given width. */
    static method BrickEntry(brickI: nat, brickX: real, brickZ: real, width: real, brightness: real)
      returns (entry: BrickData)
      ensures entry == Entry(Placement(brickI, brickX, brickZ, width, brightness))
    {
      var yTop := -(brickI as real) * BrickHeight;
      var yBottom := -((brickI + 1) as real) * BrickHeight;
      var x1 := brickX - width / 2.0;
      var x2 := brickX + width / 2.0;
      var z1 := brickZ - BrickDepth / 2.0;
      var z2 := brickZ + BrickDepth / 2.0;
      ghost var p := Placement(brickI, brickX, brickZ, width, brightness);
      assert Box(x1, x2, yTop, yBottom, z1, z2) == LayerBox(p);
      var lists := new MeshLists();
      lists.AddBrickFaces(x1, x2, yTop, yBottom, z1, z2);
      assert lists.vertices == [] + BoxVertices(LayerBox(p)) == BoxVertices(LayerBox(p));
      assert lists.normals == [] + BoxNormals() == BoxNormals();
      entry := BrickData(lists.vertices, lists.normals, brightness);
    }

    /** The two halves of a split layer, left then right, each from three
        draws starting at k. */
    static method SplitLayer(u: nat -> Unit, brickI: nat, k: nat) returns (entries: seq<BrickData>)
      ensures entries == [Entry(SplitHalf(u, brickI, 0, k)), Entry(SplitHalf(u, brickI, 1, k + 3))]
    {
      entries := [];
      var j := k;
      for splitI := 0 to 2
        invariant j == k + 3 * splitI
        invariant entries == HalfEntries(u, brickI, k, splitI)
      {
        var entry := SplitHalfEntry(u, brickI, splitI, j);
        j := j + 3;
        entries := entries + [entry];
      }
      HalfEntriesPair(u, brickI, k);
    }

    /** One pass of the loop over the two halves: half splitI of layer
        brickI from the three draws starting at j. */
    static method SplitHalfEntry(u: nat -> Unit, brickI: nat, splitI: nat, j: nat) returns (entry: BrickData)
      requires splitI < 2
      ensures entry == Entry(SplitHalf(u, brickI, splitI, j))
    {
      var baseXOffset := if splitI == 0 then -SplitGap / 2.0 - BrickWidth / 4.0
                         else SplitGap / 2.0 + BrickWidth / 4.0;
      var xOffset := baseXOffset + Uniform(-MaxOffset / 2.0, MaxOffset / 2.0, u(j));
      var zOffset := Uniform(-MaxOffset, MaxOffset, u(j + 1));
      var brightness := Uniform(MaxBrightness - BrightnessVariation, MaxBrightness, u(j + 2));
      brightness := Max(MinBrightness, brightness);
      entry := BrickEntry(brickI, xOffset, ColumnZPosition + zOffset, SplitBrickWidth, brightness);
    }

    /** `generate_column_geometry`: 0, 1 or 2 `brick_data` entries per
        layer, from the top layer down. */
    method GenerateColumnGeometry(u: nat -> Unit)
      modifies this`columnVertices, this`columnNormals, this`brickData
      ensures brickData == MapSeq(Entry, Layers(u, 0, 0))
      ensures columnVertices == [] && columnNormals == []
      ensures floorVertices == old(floorVertices) && floorNormals == old(floorNormals)
      ensures angleX == old(angleX) && angleZ == old(angleZ)
    {
      columnVertices := [];
      columnNormals := [];
      brickData := [];
      var k := 0;
      ghost var done: seq<Placement> := [];
      for brickI := 0 to NumBricks
        invariant done + Layers(u, brickI, k) == Layers(u, 0, 0)
        invariant brickData == MapSeq(Entry, done)
        invariant columnVertices == [] && columnNormals == []
      {
        if u(k) < MissingBrickProbability {
          k := k + 1;
          continue;
        }
        if u(k + 1) < SplitRowProbability {
          SplitStep(u, brickI, k, done);
          ghost var h0, h1 := SplitHalf(u, brickI, 0, k + 2), SplitHalf(u, brickI, 1, k + 5);
          var entries := SplitLayer(u, brickI, k + 2);
          MapSeqSnocPair(Entry, done, h0, h1);
          k := k + 8;
          brickData := brickData + entries;
          done := done + [h0, h1];
        } else {
          WholeStep(u, brickI, k, done);
          var xOffset := Uniform(-MaxOffset, MaxOffset, u(k + 2));
          var zOffset := Uniform(-MaxOffset, MaxOffset, u(k + 3));
          var brightness := Uniform(MaxBrightness - BrightnessVariation, MaxBrightness, u(k + 4));
          brightness := Max(MinBrightness, brightness);
          ghost var p := WholeLayer(u, brickI, k + 2);
          k := k + 5;
          var entry := BrickEntry(brickI, xOffset, ColumnZPosition + zOffset, BrickWidth, brightness);
          brickData := brickData + [entry];
          MapSeqSnoc(Entry, done, p);
          done := done + [p];
        }
      }
      assert Layers(u, NumBricks, k) == [];
    }
  }
}
