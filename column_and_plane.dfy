/** ModernGL/ColumnAndPlane.py: a brick column of one physical size seen at
    several distances along a fixed viewing line, scaled so that it keeps
    its visual angle, standing beside a checkerboard floor whose white
    squares are the only ones drawn and from which the strip the columns
    stand in is removed. */
module ColumnAndPlane {
  import opened Common
  import opened BoxMesh
  import opened FloorGrid

  /** The distances along the viewing line at which a column is built. */
  const GoodDistances: seq<real> := [3.0, 25.0]

  /** The distance at which a column has its base size. */
  const ReferenceDistance: real := 15.0

  const CameraPos: Vec3 := Vec3(0.0, 3.0, 0.0)
  const LookAtPoint: Vec3 := Vec3(0.0, 3.0, -15.0)

  /** `calculate_size_for_distance`: the scale factor of a column at
      distance d, which is 1 at the reference distance. */
  function SizeForDistance(d: real): (r: real)
    ensures r * ReferenceDistance == d
    ensures d == ReferenceDistance ==> r == 1.0
  {
    d / ReferenceDistance
  }

  // ---------------------------------------------------------------
  // Square size
  // ---------------------------------------------------------------

  /** The larger of the column's total width and total depth at distance d,
      each counted with the maximum offset on both sides. */
  function Footprint(d: real): real {
    var sf := SizeForDistance(d);
    var maxOffset := 0.04 * sf;
    Max(0.8 * sf + 2.0 * maxOffset, 0.08 * sf + 2.0 * maxOffset)
  }

  /** The running maximum of the footprints, starting from 0. */
  function MaxFootprint(ds: seq<real>): (r: real)
    ensures r >= 0.0
    ensures forall k | 0 <= k < |ds| :: Footprint(ds[k]) <= r
    ensures r == 0.0 || exists k | 0 <= k < |ds| :: r == Footprint(ds[k])
  {
    if ds == [] then 0.0 else Max(MaxFootprint(ds[..|ds| - 1]), Footprint(ds[|ds| - 1]))
  }

  /** Three footprints, rounded up to the next multiple of 0.5. */
  function NiceSize(m: real): real {
    (Ceil(m * 3.0 * 2.0) as real) / 2.0
  }

  lemma NiceSizeBounds(m: real)
    ensures 3.0 * m <= NiceSize(m) < 3.0 * m + 0.5
    ensures (2.0 * NiceSize(m)).Floor as real == 2.0 * NiceSize(m)
  {
  }

  /** `calculate_required_square_size`: the loop keeps the running maximum
      footprint; the result is three of them rounded up to a multiple of 0.5. */
  method RequiredSquareSize(ds: seq<real>) returns (size: real)
    ensures size == NiceSize(MaxFootprint(ds))
    ensures 3.0 * MaxFootprint(ds) <= size < 3.0 * MaxFootprint(ds) + 0.5
    ensures (2.0 * size).Floor as real == 2.0 * size
  {
    var maxColumnWidth := 0.0;
    for k := 0 to |ds|
      invariant maxColumnWidth == MaxFootprint(ds[..k])
    {
      var maxDimension := ColumnFootprint(ds[k]);
      MaxFootprintStep(ds, k);
      maxColumnWidth := Max(maxColumnWidth, maxDimension);
    }
    assert ds[..|ds|] == ds;
    var requiredSize := maxColumnWidth * 3.0;
    size := (Ceil(requiredSize * 2.0) as real) / 2.0;
    NiceSizeBounds(maxColumnWidth);
  }

  /** The body of the loop over distances: the larger of the column's
      total width and depth at distance d. */
  method ColumnFootprint(d: real) returns (maxDimension: real)
    ensures maxDimension == Footprint(d)
  {
    var sizeFactor := SizeForDistance(d);
    var columnWidth := 0.8 * sizeFactor;
    var columnDepth := 0.08 * sizeFactor;
    var maxOffset := 0.04 * sizeFactor;
    var totalWidth := columnWidth + 2.0 * maxOffset;
    var totalDepth := columnDepth + 2.0 * maxOffset;
    maxDimension := Max(totalWidth, totalDepth);
  }

  lemma MaxFootprintStep(ds: seq<real>, k: nat)
    requires k < |ds|
    ensures MaxFootprint(ds[..k + 1]) == Max(MaxFootprint(ds[..k]), Footprint(ds[k]))
  {
    assert ds[..k + 1][..k] == ds[..k];
  }

  /** For the distances 3 and 25 the widest footprint is 22/15 and the
      squares come out 4.5 wide. */
  lemma DefaultSquareSize()
    ensures MaxFootprint(GoodDistances) == 22.0 / 15.0
    ensures NiceSize(MaxFootprint(GoodDistances)) == 4.5
  {
    assert GoodDistances[..1] == [3.0];
    assert [3.0][..0] == [];
    assert Footprint(3.0) == 0.176;
    assert Footprint(25.0) == 22.0 / 15.0;
    assert MaxFootprint([3.0]) == 0.176;
    assert Ceil(22.0 / 15.0 * 3.0 * 2.0) == 9;
  }

  // ---------------------------------------------------------------
  // Checkerboard floor
  // ---------------------------------------------------------------

  /** The layout of the board: the first square's corner after alignment,
      the square size, n squares per side, the reference point the grid
      indices are counted from and the index of the column corridor. */
  datatype Board = Board(startX: real, startZ: real, size: real, n: nat,
                         refX: real, refZ: real, corridor: int)

  /** The set-up part of `generate_checkerboard_floor`: a 60-unit floor of
      int(60 / size) + 4 squares per side, centred on the reference point
      and shifted so that the reference point lies on a square's centre. */
  function BoardLayout(size: real, refZ: real): (b: Board)
    requires size > 0.0
    ensures b.size == size && b.refX == 0.0 && b.refZ == refZ
    ensures b.n >= 4
    ensures b.corridor == 0
  {
    var q := 60.0 / size;
    assert q > 0.0;
    var n := q.Floor + 4;
    var half := (n as real) * size / 2.0;
    var startX := 0.0 - half;
    var startZ := refZ - half;
    var offsetX := FMod(0.0 - startX, size) - size / 2.0;
    var offsetZ := FMod(refZ - startZ, size) - size / 2.0;
    Board(startX + offsetX, startZ + offsetZ, size, n, 0.0, refZ, Round((0.0 - 0.0) / size))
  }

  function SquareX1(b: Board, i: nat): real {
    Offset(b.startX, b.size, i)
  }

  function SquareZ1(b: Board, j: nat): real {
    Offset(b.startZ, b.size, j)
  }

  /** The grid index of column i: its centre's distance from the reference
      point in squares, rounded. */
  function GridI(b: Board, i: nat): int
    requires b.size > 0.0
  {
    var x1 := SquareX1(b, i);
    var x2 := x1 + b.size;
    Round(((x1 + x2) / 2.0 - b.refX) / b.size)
  }

  function GridJ(b: Board, j: nat): int
    requires b.size > 0.0
  {
    var z1 := SquareZ1(b, j);
    var z2 := z1 + b.size;
    Round(((z1 + z2) / 2.0 - b.refZ) / b.size)
  }

  /** Squares in the strip the columns stand in are never drawn. */
  predicate InCorridor(b: Board, i: nat)
    requires b.size > 0.0
  {
    GridI(b, i) == b.corridor
  }

  predicate IsWhite(b: Board, i: nat, j: nat)
    requires b.size > 0.0
  {
    (GridI(b, i) + GridJ(b, j)) % 2 == 1
  }

  /** The corridor test comes first and overrides the colour test. */
  predicate Emitted(b: Board, i: nat, j: nat)
    requires b.size > 0.0
  {
    !InCorridor(b, i) && IsWhite(b, i, j)
  }

  function Square(b: Board, i: nat, j: nat): seq<Vec3> {
    var x1 := SquareX1(b, i);
    var z1 := SquareZ1(b, j);
    CellQuad(x1, x1 + b.size, z1, z1 + b.size)
  }

  /** The squares the inner loop emits for row i before reaching column j. */
  function RowCells(b: Board, i: nat, j: nat): seq<(nat, nat)>
    requires b.size > 0.0
  {
    if j == 0 then []
    else RowCells(b, i, j - 1) + (if Emitted(b, i, j - 1) then [(i, j - 1)] else [])
  }

  /** The squares the loops emit in rows 0 .. i - 1. */
  function BoardCells(b: Board, i: nat): seq<(nat, nat)>
    requires b.size > 0.0
  {
    if i == 0 then [] else BoardCells(b, i - 1) + RowCells(b, i - 1, b.n)
  }

  function Cells(b: Board): seq<(nat, nat)>
    requires b.size > 0.0
  {
    BoardCells(b, b.n)
  }

  /** The vertices of the given squares, six each, in the given order. */
  function Squares(b: Board, cells: seq<(nat, nat)>): seq<Vec3> {
    if cells == [] then []
    else
      var c := cells[|cells| - 1];
      Squares(b, cells[..|cells| - 1]) + Square(b, c.0, c.1)
  }

  /** k copies of the upward normal. */
  function Ups(k: nat): seq<Vec3> {
    seq(k, _ => Up)
  }

  lemma {:induction false} RowCellsExact(b: Board, i: nat, j: nat)
    requires b.size > 0.0
    ensures forall c :: c in RowCells(b, i, j) <==> c.0 == i && c.1 < j && Emitted(b, i, c.1)
  {
    if j > 0 {
      RowCellsExact(b, i, j - 1);
    }
  }

  lemma {:induction false} BoardCellsExact(b: Board, i: nat)
    requires b.size > 0.0
    ensures forall c :: c in BoardCells(b, i) <==> c.0 < i && c.1 < b.n && Emitted(b, c.0, c.1)
  {
    if i > 0 {
      BoardCellsExact(b, i - 1);
      RowCellsExact(b, i - 1, b.n);
    }
  }

  /** A square is drawn exactly when it is inside the board, outside the
      column corridor and white: no drawn square lies in the corridor, and
      every drawn square has an odd index sum. */
  lemma CellsExact(b: Board, i: nat, j: nat)
    requires b.size > 0.0
    ensures (i, j) in Cells(b) <==> i < b.n && j < b.n && GridI(b, i) != b.corridor
                                    && (GridI(b, i) + GridJ(b, j)) % 2 == 1
  {
    BoardCellsExact(b, b.n);
  }

  /** Every square contributes six vertices, all at y = 0. */
  lemma {:induction false} SquaresShape(b: Board, cells: seq<(nat, nat)>)
    ensures |Squares(b, cells)| == 6 * |cells|
    ensures forall v | v in Squares(b, cells) :: v.y == 0.0
  {
    if cells != [] {
      SquaresShape(b, cells[..|cells| - 1]);
    }
  }

  /** Square k of the list occupies the six slots starting at 6 * k. */
  lemma {:induction false} SquareAt(b: Board, cells: seq<(nat, nat)>, k: nat, c: nat)
    requires k < |cells| && c < 6
    ensures 6 * k + c < |Squares(b, cells)|
    ensures Squares(b, cells)[6 * k + c] == Square(b, cells[k].0, cells[k].1)[c]
  {
    var init := cells[..|cells| - 1];
    SquaresShape(b, init);
    SquaresShape(b, cells);
    if k < |cells| - 1 {
      SquareAt(b, init, k, c);
    }
  }

  // ---------------------------------------------------------------
  // Columns
  // ---------------------------------------------------------------

  const NumBricks: nat := 80
  const MissingBrickProbability: real := 0.1

  /** Brick i of a column at `pos` with scale `sf`, from its two offset draws. */
  function BrickBox(pos: Vec3, sf: real, i: nat, ux: Unit, uz: Unit): Box {
    var totalHeight := 4.0 * sf;
    var brickWidth := 0.8 * sf;
    var brickDepth := 0.08 * sf;
    var maxOffset := 0.04 * sf;
    var brickHeight := totalHeight / (NumBricks as real);
    var yTop := -(i as real) * brickHeight;
    var yBottom := -((i + 1) as real) * brickHeight;
    var xOffset := Uniform(-maxOffset, maxOffset, ux);
    var zOffset := Uniform(-maxOffset, maxOffset, uz);
    var brickX := xOffset + pos.x;
    var brickZ := zOffset + pos.z;
    Box(brickX - brickWidth / 2.0, brickX + brickWidth / 2.0, yTop + pos.y, yBottom + pos.y,
        brickZ - brickDepth / 2.0, brickZ + brickDepth / 2.0)
  }

  /** The bricks of layers i .. 79, the stream being at draw k: a draw
      below 0.1 drops the layer, otherwise two more draws place the brick. */
  function ColumnBricks(pos: Vec3, sf: real, u: nat -> Unit, i: nat, k: nat): seq<Box>
    decreases NumBricks - i
  {
    if i >= NumBricks then []
    else if u(k) < MissingBrickProbability then ColumnBricks(pos, sf, u, i + 1, k + 1)
    else [BrickBox(pos, sf, i, u(k + 1), u(k + 2))] + ColumnBricks(pos, sf, u, i + 1, k + 3)
  }

  /** A column's brick: 4·sf / 80 high, 0.8·sf wide, 0.08·sf deep, its
      centre within 0.04·sf of the column position in x and z. */
  predicate BrickShaped(b: Box, pos: Vec3, sf: real) {
    && b.yTop - b.yBottom == 4.0 * sf / 80.0
    && b.x2 - b.x1 == 0.8 * sf
    && b.z2 - b.z1 == 0.08 * sf
    && pos.x - 0.04 * sf <= (b.x1 + b.x2) / 2.0 <= pos.x + 0.04 * sf
    && pos.z - 0.04 * sf <= (b.z1 + b.z2) / 2.0 <= pos.z + 0.04 * sf
  }

  lemma LayerHeight(i: nat, h: real)
    ensures -(i as real) * h - (-((i + 1) as real) * h) == h
  {
    var p := (i as real) * h;
    assert ((i + 1) as real) * h == p + h;
  }

  lemma BrickBoxShaped(pos: Vec3, sf: real, i: nat, ux: Unit, uz: Unit)
    requires sf >= 0.0
    ensures BrickShaped(BrickBox(pos, sf, i, ux, uz), pos, sf)
  {
    LayerHeight(i, 4.0 * sf / 80.0);
  }

  /** At most one brick per remaining layer, each of the column's shape. */
  lemma {:induction false} ColumnBricksShaped(pos: Vec3, sf: real, u: nat -> Unit, i: nat, k: nat)
    requires sf >= 0.0
    requires i <= NumBricks
    ensures |ColumnBricks(pos, sf, u, i, k)| <= NumBricks - i
    ensures forall b | b in ColumnBricks(pos, sf, u, i, k) :: BrickShaped(b, pos, sf)
    decreases NumBricks - i
  {
    if i < NumBricks {
      if u(k) < MissingBrickProbability {
        ColumnBricksShaped(pos, sf, u, i + 1, k + 1);
      } else {
        ColumnBricksShaped(pos, sf, u, i + 1, k + 3);
        BrickBoxShaped(pos, sf, i, u(k + 1), u(k + 2));
      }
    }
  }

  /** One column's geometry: its vertex and normal lists and its position. */
  datatype ColumnGeometry = ColumnGeometry(vertices: seq<Vec3>, normals: seq<Vec3>, position: Vec3)

  /** The distances among `ds` that have a buffer, in the order of `ds`. */
  function DrawOrder(ds: seq<real>, present: set<real>): (r: seq<real>)
    ensures |r| <= |ds|
    ensures forall d :: d in r <==> d in ds && d in present
  {
    if ds == [] then []
    else
      var last := ds[|ds| - 1];
      assert ds == ds[..|ds| - 1] + [last];
      DrawOrder(ds[..|ds| - 1], present) + (if last in present then [last] else [])
  }

  // ---------------------------------------------------------------
  // The renderer
  // ---------------------------------------------------------------

  /** One pass of the outer loop of `generate_checkerboard_floor`: the
      white squares of row i, none in the column corridor. */
  method EmitBoardRow(b: Board, i: nat, vertices0: seq<Vec3>, normals0: seq<Vec3>)
    returns (vertices: seq<Vec3>, normals: seq<Vec3>)
    requires b.size > 0.0
    requires vertices0 == Squares(b, BoardCells(b, i))
    requires normals0 == Ups(6 * |BoardCells(b, i)|)
    ensures vertices == Squares(b, BoardCells(b, i + 1))
    ensures normals == Ups(6 * |BoardCells(b, i + 1)|)
  {
    vertices, normals := vertices0, normals0;
    ghost var cells := BoardCells(b, i);
    for j := 0 to b.n
      invariant cells == BoardCells(b, i) + RowCells(b, i, j)
      invariant vertices == Squares(b, cells)
      invariant normals == Ups(6 * |cells|)
    {
      if InCorridor(b, i) {
        continue;
      }
      if IsWhite(b, i, j) {
        var cells' := cells + [(i, j)];
        assert cells'[..|cells'| - 1] == cells;
        vertices := vertices + Square(b, i, j);
        normals := normals + Ups(6);
        cells := cells';
      }
    }
  }

  /** The scene object. `seeded` is the stream `random.random()` produces
      after `random.seed(42)`, the state every column generation starts from. */
  class ColumnRenderer {
    const viewingVector: Vec3
    const seeded: nat -> Unit
    var checkerboardSquareSize: real
    var floorVertices: seq<Vec3>
    var floorNormals: seq<Vec3>
    var columnGeometries: map<real, ColumnGeometry>
    /** Whether the floor has a vertex array object. */
    var floorVao: bool
    /** The distances that have a column vertex array object. */
    var columnVaos: set<real>

    /** `calculate_position_along_vector`: the point d units along the
        viewing vector from the camera. */
    function PositionAlongVector(d: real): (r: Vec3)
      ensures d == 0.0 ==> r == CameraPos
    {
      Add(CameraPos, Scale(d, viewingVector))
    }

    /** Moving d1 + d2 along the line is moving d2 further from the point at d1. */
    lemma PositionAdditive(d1: real, d2: real)
      ensures PositionAlongVector(d1 + d2) == Add(PositionAlongVector(d1), Scale(d2, viewingVector))
    {
      var v := viewingVector;
      assert (d1 + d2) * v.x == d1 * v.x + d2 * v.x;
      assert (d1 + d2) * v.y == d1 * v.y + d2 * v.y;
      assert (d1 + d2) * v.z == d1 * v.z + d2 * v.z;
    }

    /** The checkerboard's layout for the current square size, aligned on
        the first column's position. */
    function FloorBoard(): Board
      requires checkerboardSquareSize > 0.0
      reads this
    {
      BoardLayout(checkerboardSquareSize, PositionAlongVector(GoodDistances[0]).z)
    }

    /** The geometry `generate_column_geometry_for_distance` returns for d. */
    function ColumnSpec(d: real): ColumnGeometry {
      var pos := PositionAlongVector(d);
      var bricks := ColumnBricks(pos, SizeForDistance(d), seeded, 0, 0);
      ColumnGeometry(Mesh(bricks), MeshNormals(|bricks|), pos)
    }

    /** A column has 36 vertices and 36 normals per brick and at most 80 bricks. */
    lemma ColumnSpecShape(d: real)
      requires d >= 0.0
      ensures |ColumnSpec(d).vertices| % 36 == 0
      ensures |ColumnSpec(d).vertices| <= 36 * NumBricks
      ensures |ColumnSpec(d).normals| == |ColumnSpec(d).vertices|
    {
      var pos := PositionAlongVector(d);
      var bricks := ColumnBricks(pos, SizeForDistance(d), seeded, 0, 0);
      ColumnBricksShaped(pos, SizeForDistance(d), seeded, 0, 0);
      MeshShape(bricks);
    }

    constructor (sqrt: real -> real, seeded: nat -> Unit)
      requires forall x :: x > 0.0 ==> sqrt(x) > 0.0
      ensures this.seeded == seeded
      ensures checkerboardSquareSize == 4.5
      ensures floorVertices == Squares(FloorBoard(), Cells(FloorBoard()))
      ensures floorNormals == Ups(6 * |Cells(FloorBoard())|)
      ensures columnGeometries.Keys == set d | d in GoodDistances
      ensures forall d | d in columnGeometries :: columnGeometries[d] == ColumnSpec(d)
      ensures floorVao == (|floorVertices| > 0)
      ensures columnVaos == set d | d in columnGeometries && |columnGeometries[d].vertices| > 0
    {
      var vx, vy, vz := 0.0, -3.0, -15.0;
      var length := sqrt(vx * vx + vy * vy + vz * vz);
      viewingVector := Vec3(vx / length, vy / length, vz / length);
      this.seeded := seeded;
      new;
      checkerboardSquareSize := RequiredSquareSize(GoodDistances);
      DefaultSquareSize();
      GenerateCheckerboardFloor();
      GenerateAllColumnGeometries();
      CreateVaos();
    }

    /** `generate_checkerboard_floor`: visits every square row by row and
        emits the drawn ones, six vertices and six upward normals each. */
    method GenerateCheckerboardFloor()
      requires checkerboardSquareSize > 0.0
      modifies this`floorVertices, this`floorNormals
      ensures checkerboardSquareSize == old(checkerboardSquareSize)
      ensures floorVertices == Squares(FloorBoard(), Cells(FloorBoard()))
      ensures floorNormals == Ups(6 * |Cells(FloorBoard())|)
      ensures columnGeometries == old(columnGeometries)
      ensures floorVao == old(floorVao) && columnVaos == old(columnVaos)
    {
      var b := FloorBoard();
      var vertices: seq<Vec3> := [];
      var normals: seq<Vec3> := [];
      for i := 0 to b.n
        invariant vertices == Squares(b, BoardCells(b, i))
        invariant normals == Ups(6 * |BoardCells(b, i)|)
      {
        vertices, normals := EmitBoardRow(b, i, vertices, normals);
      }
      floorVertices := vertices;
      floorNormals := normals;
    }

    /** `generate_column_geometry_for_distance`: the stream restarts at the
        seeded state, so the result depends on d alone and every call with
        the same d returns the same geometry. */
    method GenerateColumnGeometryForDistance(d: real) returns (g: ColumnGeometry)
      ensures g == ColumnSpec(d)
    {
      var lists := new MeshLists();
      var position := PositionAlongVector(d);
      var sizeFactor := SizeForDistance(d);
      var k := 0;
      ghost var done: seq<Box> := [];
      for brickI := 0 to NumBricks
        invariant done + ColumnBricks(position, sizeFactor, seeded, brickI, k)
               == ColumnBricks(position, sizeFactor, seeded, 0, 0)
        invariant lists.vertices == Mesh(done)
        invariant lists.normals == MeshNormals(|done|)
      {
        if seeded(k) < MissingBrickProbability {
          k := k + 1;
          continue;
        }
        var b := BrickBox(position, sizeFactor, brickI, seeded(k + 1), seeded(k + 2));
        k := k + 3;
        lists.AddBrickFaces(b.x1, b.x2, b.yTop, b.yBottom, b.z1, b.z2);
        assert (done + [b])[..|done|] == done;
        done := done + [b];
      }
      assert ColumnBricks(position, sizeFactor, seeded, NumBricks, k) == [];
      assert done == ColumnBricks(position, sizeFactor, seeded, 0, 0);
      g := ColumnGeometry(lists.vertices, lists.normals, position);
    }

    /** `generate_all_column_geometries`: one geometry per good distance. */
    method GenerateAllColumnGeometries()
      modifies this
      ensures columnGeometries.Keys == set d | d in GoodDistances
      ensures forall d | d in columnGeometries :: columnGeometries[d] == ColumnSpec(d)
      ensures checkerboardSquareSize == old(checkerboardSquareSize)
      ensures floorVertices == old(floorVertices) && floorNormals == old(floorNormals)
      ensures floorVao == old(floorVao) && columnVaos == old(columnVaos)
    {
      columnGeometries := map[];
      for k := 0 to |GoodDistances|
        invariant columnGeometries.Keys == set d | d in GoodDistances[..k]
        invariant forall d | d in columnGeometries :: columnGeometries[d] == ColumnSpec(d)
        invariant checkerboardSquareSize == old(checkerboardSquareSize)
        invariant floorVertices == old(floorVertices) && floorNormals == old(floorNormals)
        invariant floorVao == old(floorVao) && columnVaos == old(columnVaos)
      {
        assert GoodDistances[..k + 1] == GoodDistances[..k] + [GoodDistances[k]];
        var geometry := GenerateColumnGeometryForDistance(GoodDistances[k]);
        columnGeometries := columnGeometries[GoodDistances[k] := geometry];
      }
      assert GoodDistances[..|GoodDistances|] == GoodDistances;
    }

    /** The bookkeeping of `create_vaos`: the floor gets a buffer when it has
        vertices, and a column gets one exactly when its geometry is non-empty. */
    method CreateVaos()
      modifies this
      ensures floorVao == (|floorVertices| > 0)
      ensures columnVaos == set d | d in columnGeometries && |columnGeometries[d].vertices| > 0
      ensures checkerboardSquareSize == old(checkerboardSquareSize)
      ensures floorVertices == old(floorVertices) && floorNormals == old(floorNormals)
      ensures columnGeometries == old(columnGeometries)
    {
      floorVao := |floorVertices| > 0;
      var geometries := columnGeometries;
      var vaos: set<real> := {};
      var remaining := geometries.Keys;
      while remaining != {}
        invariant remaining <= geometries.Keys
        invariant vaos == set e | e in geometries.Keys - remaining && |geometries[e].vertices| > 0
        decreases |remaining|
      {
        if forall e :: e !in remaining {
          assert false;
        }
        var d :| d in remaining;
        if |geometries[d].vertices| > 0 {
          vaos := vaos + {d};
        }
        remaining := remaining - {d};
      }
      columnVaos := vaos;
    }

    /** The draw decisions of `render_frame`: the floor if it has a buffer,
        then the good distances that have one, in order. */
    method RenderFrame() returns (floorDrawn: bool, drawn: seq<real>)
      ensures floorDrawn == floorVao
      ensures drawn == DrawOrder(GoodDistances, columnVaos)
    {
      floorDrawn := floorVao;
      drawn := [];
      for k := 0 to |GoodDistances|
        invariant drawn == DrawOrder(GoodDistances[..k], columnVaos)
      {
        assert GoodDistances[..k + 1][..k] == GoodDistances[..k];
        if GoodDistances[k] in columnVaos {
          drawn := drawn + [GoodDistances[k]];
        }
      }
      assert GoodDistances[..|GoodDistances|] == GoodDistances;
    }
  }
}
