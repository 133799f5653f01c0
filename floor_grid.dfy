/** The plain tessellated floor that most scenes build: a rectangle cut
    into nx by nz square cells, each emitted as two triangles at y = 0,
    cells visited row by row (outer index i along x, inner index j along z). */
module FloorGrid {
  import opened Common

  /** Cell (i, j) spans x0 + i*stepX .. + stepX and z0 + j*stepZ .. + stepZ. */
  datatype Grid = Grid(x0: real, z0: real, stepX: real, stepZ: real, nx: nat, nz: nat)

  /** The start of the i-th of a run of equal steps beginning at a. */
  function Offset(a: real, step: real, i: nat): real {
    a + (i as real) * step
  }

  function CellX1(g: Grid, i: nat): real {
    Offset(g.x0, g.stepX, i)
  }

  function CellZ1(g: Grid, j: nat): real {
    Offset(g.z0, g.stepZ, j)
  }

  /** The two triangles of one cell, in the corner order every floor
      generator lists: (x1,z1), (x2,z1), (x1,z2), then (x2,z1), (x2,z2), (x1,z2). */
  function CellQuad(x1: real, x2: real, z1: real, z2: real): seq<Vec3> {
    [Vec3(x1, 0.0, z1), Vec3(x2, 0.0, z1), Vec3(x1, 0.0, z2),
     Vec3(x2, 0.0, z1), Vec3(x2, 0.0, z2), Vec3(x1, 0.0, z2)]
  }

  function Cell(g: Grid, i: nat, j: nat): seq<Vec3> {
    var x1 := CellX1(g, i);
    var z1 := CellZ1(g, j);
    CellQuad(x1, x1 + g.stepX, z1, z1 + g.stepZ)
  }

  /** The vertices of cells (i, 0) .. (i, j - 1). */
  function RowPrefix(g: Grid, i: nat, j: nat): seq<Vec3> {
    if j == 0 then [] else RowPrefix(g, i, j - 1) + Cell(g, i, j - 1)
  }

  /** The vertices of the complete rows 0 .. i - 1. */
  function Rows(g: Grid, i: nat): seq<Vec3> {
    if i == 0 then [] else Rows(g, i - 1) + RowPrefix(g, i - 1, g.nz)
  }

  /** The whole floor: slot k holds corner k % 6 of cell number k / 6 in
      visiting order, that is of cell (k / 6 / nz, k / 6 % nz).
      `RowsAreGrid` shows that the nested loops emit exactly this list. */
  function GridVertices(g: Grid): (r: seq<Vec3>)
    ensures |r| == 6 * g.nx * g.nz
  {
    seq(6 * g.nx * g.nz, (k: int) requires 0 <= k < 6 * g.nx * g.nz =>
      Cell(g, k / 6 / g.nz, k / 6 % g.nz)[k % 6])
  }

  /** The floor's vertices in the order the loops emit them once they have
      reached cell (i, j). */
  function EmittedUpTo(g: Grid, i: nat, j: nat): seq<Vec3> {
    Rows(g, i) + RowPrefix(g, i, j)
  }

  lemma {:induction false} RowPrefixLength(g: Grid, i: nat, j: nat)
    ensures |RowPrefix(g, i, j)| == 6 * j
  {
    if j > 0 {
      RowPrefixLength(g, i, j - 1);
    }
  }

  lemma {:induction false} RowsLength(g: Grid, i: nat)
    ensures |Rows(g, i)| == 6 * i * g.nz
  {
    if i > 0 {
      RowsLength(g, i - 1);
      RowPrefixLength(g, i - 1, g.nz);
      assert 6 * i * g.nz == 6 * (i - 1) * g.nz + 6 * g.nz;
    }
  }

  lemma {:induction false} RowPrefixIsPrefix(g: Grid, i: nat, j: nat, m: nat)
    requires j <= m
    ensures RowPrefix(g, i, j) <= RowPrefix(g, i, m)
    decreases m - j
  {
    if j < m {
      RowPrefixIsPrefix(g, i, j, m - 1);
    }
  }

  lemma {:induction false} RowsIsPrefix(g: Grid, i: nat, m: nat)
    requires i <= m
    ensures Rows(g, i) <= Rows(g, m)
    decreases m - i
  {
    if i < m {
      RowsIsPrefix(g, i, m - 1);
    }
  }

  /** The loops put corner c of cell (i, j) into slot 6 * (i * nz + j) + c. */
  lemma RowsAt(g: Grid, i: nat, j: nat, c: nat)
    requires i < g.nx && j < g.nz && c < 6
    ensures 6 * (i * g.nz + j) + c < |Rows(g, g.nx)|
    ensures Rows(g, g.nx)[6 * (i * g.nz + j) + c] == Cell(g, i, j)[c]
  {
    var front := Rows(g, i) + RowPrefix(g, i, j);
    CellInRows(g, i, j);
    RowsLength(g, i);
    RowPrefixLength(g, i, j);
    assert |front| == 6 * (i * g.nz + j);
    assert (front + Cell(g, i, j))[|front| + c] == Cell(g, i, j)[c];
    RowsLength(g, g.nx);
    SlotBound(i, j, c, g.nx, g.nz);
  }

  /** Cell (i, j) follows the cells visited before it in the whole floor. */
  lemma CellInRows(g: Grid, i: nat, j: nat)
    requires i < g.nx && j < g.nz
    ensures Rows(g, i) + RowPrefix(g, i, j) + Cell(g, i, j) <= Rows(g, g.nx)
  {
    CellInRow(g, i, j);
    RowsIsPrefix(g, i + 1, g.nx);
    PrefixTrans(Rows(g, i) + RowPrefix(g, i, j) + Cell(g, i, j), Rows(g, i + 1), Rows(g, g.nx));
  }

  /** ... and in its own row. */
  lemma CellInRow(g: Grid, i: nat, j: nat)
    requires j < g.nz
    ensures Rows(g, i) + RowPrefix(g, i, j) + Cell(g, i, j) <= Rows(g, i + 1)
  {
    RowPrefixIsPrefix(g, i, j + 1, g.nz);
    var pre, cell := RowPrefix(g, i, j), Cell(g, i, j);
    assert RowPrefix(g, i, j + 1) == pre + cell;
    assert Rows(g, i + 1) == Rows(g, i) + RowPrefix(g, i, g.nz);
    PrefixAfter(Rows(g, i), pre, cell, RowPrefix(g, i, g.nz));
  }

  lemma PrefixAfter<T>(front: seq<T>, pre: seq<T>, cell: seq<T>, row: seq<T>)
    requires pre + cell <= row
    ensures front + pre + cell <= front + row
  {
    assert (front + row)[..|front + pre + cell|] == front + pre + cell;
  }

  lemma PrefixTrans<T>(a: seq<T>, b: seq<T>, c: seq<T>)
    requires a <= b && b <= c
    ensures a <= c
  {
    assert c[..|a|] == b[..|a|];
  }

  lemma SlotBound(i: nat, j: nat, c: nat, nx: nat, nz: nat)
    requires i < nx && j < nz && c < 6
    ensures 6 * (i * nz + j) + c < 6 * nx * nz
  {
    MulMonoNat(i + 1, nx, nz);
    assert (i + 1) * nz == i * nz + nz;
  }

  /** Slot k of the floor belongs to cell (i, j) = (k / 6 / nz, k / 6 % nz),
      a cell of the grid, and sits at 6 * (i * nz + j) + k % 6. */
  lemma SlotCell(g: Grid, k: nat) returns (i: nat, j: nat)
    requires k < 6 * g.nx * g.nz
    ensures i < g.nx && j < g.nz
    ensures i == k / 6 / g.nz && j == k / 6 % g.nz
    ensures k == 6 * (i * g.nz + j) + k % 6
  {
    assert g.nz > 0;
    var q := k / 6;
    i := q / g.nz;
    j := q % g.nz;
    assert q < g.nx * g.nz;
    if i >= g.nx {
      MulMonoNat(g.nx, i, g.nz);
      assert false;
    }
  }

  /** The nested loops emit exactly the floor. */
  lemma RowsAreGrid(g: Grid)
    ensures Rows(g, g.nx) == GridVertices(g)
  {
    RowsLength(g, g.nx);
    forall k | 0 <= k < 6 * g.nx * g.nz
      ensures Rows(g, g.nx)[k] == GridVertices(g)[k]
    {
      var i, j := SlotCell(g, k);
      RowsAt(g, i, j, k % 6);
    }
  }

  /** Cell (i, j) occupies the six slots starting at 6 * (i * nz + j). */
  lemma CellAt(g: Grid, i: nat, j: nat, c: nat)
    requires i < g.nx && j < g.nz && c < 6
    ensures 6 * (i * g.nz + j) + c < |GridVertices(g)|
    ensures GridVertices(g)[6 * (i * g.nz + j) + c] == Cell(g, i, j)[c]
  {
    RowsAt(g, i, j, c);
    RowsAreGrid(g);
  }

  /** The floor has six vertices per cell, all at y = 0. */
  lemma GridShape(g: Grid)
    ensures |GridVertices(g)| == 6 * g.nx * g.nz
    ensures forall k | 0 <= k < |GridVertices(g)| :: GridVertices(g)[k].y == 0.0
  {
  }

  lemma MulMonoNat(a: nat, b: nat, c: nat)
    requires a <= b
    ensures a * c <= b * c
  {
  }

  /** v lies within the rectangle the grid covers. */
  predicate InRectangle(v: Vec3, g: Grid) {
    && g.x0 <= v.x <= Offset(g.x0, g.stepX, g.nx)
    && g.z0 <= v.z <= Offset(g.z0, g.stepZ, g.nz)
  }

  lemma MulMonoReal(a: nat, b: nat, s: real)
    requires a <= b && s >= 0.0
    ensures (a as real) * s <= (b as real) * s
  {
    var d := (b - a) as real;
    var p := d * s;
    assert p >= 0.0;
    assert (b as real) * s == (a as real) * s + p;
  }

  /** Step i of n steps of width s starting at a stays within a .. a + n*s. */
  lemma Span(a: real, s: real, i: nat, n: nat)
    requires i < n && s >= 0.0
    ensures a <= Offset(a, s, i)
    ensures Offset(a, s, i) + s <= Offset(a, s, n)
  {
    var p := (i as real) * s;
    var q := ((i + 1) as real) * s;
    MulMonoReal(0, i, s);
    MulMonoReal(i + 1, n, s);
    assert q == p + s;
  }

  lemma CellInRectangle(g: Grid, i: nat, j: nat)
    requires i < g.nx && j < g.nz && g.stepX >= 0.0 && g.stepZ >= 0.0
    ensures forall v | v in Cell(g, i, j) :: InRectangle(v, g)
  {
    Span(g.x0, g.stepX, i, g.nx);
    Span(g.z0, g.stepZ, j, g.nz);
  }

  /** Every floor vertex lies within the rectangle the grid covers. */
  lemma GridInRectangle(g: Grid)
    requires g.stepX >= 0.0 && g.stepZ >= 0.0
    ensures forall k | 0 <= k < |GridVertices(g)| :: InRectangle(GridVertices(g)[k], g)
  {
    forall k | 0 <= k < |GridVertices(g)|
      ensures InRectangle(GridVertices(g)[k], g)
    {
      var i, j := SlotCell(g, k);
      CellInRectangle(g, i, j);
      assert GridVertices(g)[k] in Cell(g, i, j);
    }
  }

  /** The upward normal, for every cell. */
  function UpNormal(c: nat): Vec3 {
    Up
  }

  /** The normal list of a floor whose c-th cell, in visiting order, has
      normal `normal(c)` on all six of its vertices. */
  function CellwiseNormals(cells: nat, normal: nat -> Vec3): seq<Vec3> {
    seq(6 * cells, (k: int) requires 0 <= k => normal(k / 6))
  }

  lemma CellwiseNormalsAt(cells: nat, normal: nat -> Vec3, k: nat)
    requires k < 6 * cells
    ensures CellwiseNormals(cells, normal)[k] == normal(k / 6)
  {
  }

  lemma CellwiseNormalsStep(m: nat, normal: nat -> Vec3)
    ensures CellwiseNormals(m + 1, normal) == CellwiseNormals(m, normal) + Six(normal(m))
  {
    var a := CellwiseNormals(m + 1, normal);
    var b := CellwiseNormals(m, normal) + Six(normal(m));
    assert |a| == |b|;
    forall k | 0 <= k < |a|
      ensures a[k] == b[k]
    {
      if k >= 6 * m {
        assert k / 6 == m;
      }
    }
  }

  /** Cell (i, j) is cell number i * nz + j in visiting order, and its six
      normal slots hold that cell's normal. */
  lemma CellNormalAt(g: Grid, normal: nat -> Vec3, i: nat, j: nat, c: nat)
    requires i < g.nx && j < g.nz && c < 6
    ensures 6 * (i * g.nz + j) + c < |CellwiseNormals(g.nx * g.nz, normal)|
    ensures CellwiseNormals(g.nx * g.nz, normal)[6 * (i * g.nz + j) + c] == normal(i * g.nz + j)
  {
    MulMonoNat(i + 1, g.nx, g.nz);
    var m := i * g.nz + j;
    assert (6 * m + c) / 6 == m;
  }

  /** The nested loop every list-based floor generator runs: for each cell,
      its two triangles and six copies of its normal. */
  method EmitGrid(g: Grid, normal: nat -> Vec3) returns (vertices: seq<Vec3>, normals: seq<Vec3>)
    ensures vertices == GridVertices(g)
    ensures normals == CellwiseNormals(g.nx * g.nz, normal)
  {
    vertices := [];
    normals := [];
    for i := 0 to g.nx
      invariant vertices == Rows(g, i)
      invariant normals == CellwiseNormals(i * g.nz, normal)
    {
      vertices, normals := EmitGridRow(g, normal, i, i * g.nz, vertices, normals);
      assert i * g.nz + g.nz == (i + 1) * g.nz;
    }
    RowsAreGrid(g);
  }

  /** One pass of the outer loop: the cells of row i, whose first cell is
      the base-th visited. */
  method EmitGridRow(g: Grid, normal: nat -> Vec3, i: nat, base: nat, vertices0: seq<Vec3>, normals0: seq<Vec3>)
    returns (vertices: seq<Vec3>, normals: seq<Vec3>)
    requires vertices0 == Rows(g, i)
    requires normals0 == CellwiseNormals(base, normal)
    ensures vertices == Rows(g, i + 1)
    ensures normals == CellwiseNormals(base + g.nz, normal)
  {
    vertices, normals := vertices0, normals0;
    for j := 0 to g.nz
      invariant vertices == Rows(g, i) + RowPrefix(g, i, j)
      invariant normals == CellwiseNormals(base + j, normal)
    {
      vertices, normals := EmitGridCell(g, normal, i, j, base + j, vertices, normals);
      assert Rows(g, i) + RowPrefix(g, i, j + 1) == Rows(g, i) + RowPrefix(g, i, j) + Cell(g, i, j);
    }
  }

  /** The body of the inner loop: cell (i, j), the m-th visited, and six
      copies of its normal. */
  method EmitGridCell(g: Grid, normal: nat -> Vec3, i: nat, j: nat, m: nat,
                      vertices0: seq<Vec3>, normals0: seq<Vec3>)
    returns (vertices: seq<Vec3>, normals: seq<Vec3>)
    requires normals0 == CellwiseNormals(m, normal)
    ensures vertices == vertices0 + Cell(g, i, j)
    ensures normals == CellwiseNormals(m + 1, normal)
  {
    var x1 := CellX1(g, i);
    var x2 := x1 + g.stepX;
    var z1 := CellZ1(g, j);
    var z2 := z1 + g.stepZ;
    var n := normal(m);
    var triangle1 := [Vec3(x1, 0.0, z1), Vec3(x2, 0.0, z1), Vec3(x1, 0.0, z2)];
    var triangle2 := [Vec3(x2, 0.0, z1), Vec3(x2, 0.0, z2), Vec3(x1, 0.0, z2)];
    vertices := vertices0 + triangle1 + triangle2;
    CellwiseNormalsStep(m, normal);
    normals := normals0 + [n, n, n] + [n, n, n];
  }

  /** The normal list of a floor whose k-th vertex, in emission order,
      carries its own normal `normal(k)`: one jittered draw per vertex. */
  function VertexwiseNormals(count: nat, normal: nat -> Vec3): seq<Vec3> {
    seq(count, (k: int) requires 0 <= k => normal(k))
  }

  lemma VertexwiseNormalsStep(m: nat, normal: nat -> Vec3)
    ensures VertexwiseNormals(6 * (m + 1), normal)
         == VertexwiseNormals(6 * m, normal)
            + [normal(6 * m), normal(6 * m + 1), normal(6 * m + 2)]
            + [normal(6 * m + 3), normal(6 * m + 4), normal(6 * m + 5)]
  {
    var a := VertexwiseNormals(6 * (m + 1), normal);
    var b := VertexwiseNormals(6 * m, normal)
            + [normal(6 * m), normal(6 * m + 1), normal(6 * m + 2)]
            + [normal(6 * m + 3), normal(6 * m + 4), normal(6 * m + 5)];
    assert |a| == |b|;
    forall k | 0 <= k < |a|
      ensures a[k] == b[k]
    {
    }
  }

  /** `jittered_normal` of the white-column and vertical-column floors:
      (nx, 1, 0) scaled to unit length, nx a Gaussian draw. It points
      upwards, has no z-component and keeps the direction of (nx, 1, 0). */
  function GaussJitteredNormal(sqrt: real -> real, nx: real): (n: Vec3)
    requires SqrtPositive(sqrt)
    ensures n.y > 0.0 && n.z == 0.0
    ensures n.x == nx * n.y
  {
    SquarePlusOne(nx, 0.0);
    var length := sqrt(nx * nx + 1.0);
    Vec3(nx / length, 1.0 / length, 0.0)
  }

  /** The `jittered_normal` of the specular floors: (nx, 1, nz) divided by
      its length, the square root of nx² + 1 + nz². It points upwards and
      keeps the direction of (nx, 1, nz). */
  function UnitNormal(sqrt: real -> real, nx: real, nz: real): (n: Vec3)
    requires SqrtPositive(sqrt)
    ensures n.y > 0.0
    ensures n.x == nx * n.y && n.z == nz * n.y
  {
    SquarePlusOne(nx, nz);
    var length := sqrt(nx * nx + 1.0 + nz * nz);
    Vec3(nx / length, 1.0 / length, nz / length)
  }

  /** The normal of the k-th vertex of a Gaussian-jittered floor: the k-th
      draw made unit. */
  function GaussFloorNormal(sqrt: real -> real, gauss: nat -> real, k: nat): Vec3
    requires SqrtPositive(sqrt)
  {
    GaussJitteredNormal(sqrt, gauss(k))
  }

  /** Every normal of a Gaussian-jittered floor points upwards and has no
      z-component. */
  lemma GaussNormalsUp(sqrt: real -> real, gauss: nat -> real, count: nat, normals: seq<Vec3>)
    requires SqrtPositive(sqrt)
    requires normals == VertexwiseNormals(count, (k: nat) => GaussFloorNormal(sqrt, gauss, k))
    ensures |normals| == count
    ensures forall k | 0 <= k < |normals| :: normals[k].z == 0.0 && normals[k].y > 0.0
  {
  }

  /** The nested loop of the jittered floors: each triangle's three
      vertices, then three fresh normals for them, for every cell in turn. */
  method EmitJitteredGrid(g: Grid, normal: nat -> Vec3) returns (vertices: seq<Vec3>, normals: seq<Vec3>)
    ensures vertices == GridVertices(g)
    ensures normals == VertexwiseNormals(6 * (g.nx * g.nz), normal)
  {
    vertices := [];
    normals := [];
    for i := 0 to g.nx
      invariant vertices == Rows(g, i)
      invariant normals == VertexwiseNormals(6 * (i * g.nz), normal)
    {
      vertices, normals := EmitJitteredRow(g, normal, i, i * g.nz, vertices, normals);
      assert i * g.nz + g.nz == (i + 1) * g.nz;
    }
    RowsAreGrid(g);
  }

  /** One pass of the outer loop: the cells of row i, whose first cell is
      the base-th visited. */
  method EmitJitteredRow(g: Grid, normal: nat -> Vec3, i: nat, base: nat, vertices0: seq<Vec3>, normals0: seq<Vec3>)
    returns (vertices: seq<Vec3>, normals: seq<Vec3>)
    requires vertices0 == Rows(g, i)
    requires normals0 == VertexwiseNormals(6 * base, normal)
    ensures vertices == Rows(g, i + 1)
    ensures normals == VertexwiseNormals(6 * (base + g.nz), normal)
  {
    vertices, normals := vertices0, normals0;
    for j := 0 to g.nz
      invariant vertices == Rows(g, i) + RowPrefix(g, i, j)
      invariant normals == VertexwiseNormals(6 * (base + j), normal)
    {
      vertices, normals := EmitJitteredCell(g, normal, i, j, base + j, vertices, normals);
      assert Rows(g, i) + RowPrefix(g, i, j + 1) == Rows(g, i) + RowPrefix(g, i, j) + Cell(g, i, j);
    }
  }

  /** The body of the inner loop: cell (i, j), the m-th visited, each
      triangle's vertices followed by three fresh normals. */
  method EmitJitteredCell(g: Grid, normal: nat -> Vec3, i: nat, j: nat, m: nat,
                          vertices0: seq<Vec3>, normals0: seq<Vec3>)
    returns (vertices: seq<Vec3>, normals: seq<Vec3>)
    requires normals0 == VertexwiseNormals(6 * m, normal)
    ensures vertices == vertices0 + Cell(g, i, j)
    ensures normals == VertexwiseNormals(6 * (m + 1), normal)
  {
    var x1 := CellX1(g, i);
    var x2 := x1 + g.stepX;
    var z1 := CellZ1(g, j);
    var z2 := z1 + g.stepZ;
    var k := 6 * m;
    var triangle1Vertices := [Vec3(x1, 0.0, z1), Vec3(x2, 0.0, z1), Vec3(x1, 0.0, z2)];
    var triangle1Normals := [normal(k), normal(k + 1), normal(k + 2)];
    var triangle2Vertices := [Vec3(x2, 0.0, z1), Vec3(x2, 0.0, z2), Vec3(x1, 0.0, z2)];
    var triangle2Normals := [normal(k + 3), normal(k + 4), normal(k + 5)];
    vertices := vertices0 + triangle1Vertices + triangle2Vertices;
    VertexwiseNormalsStep(m, normal);
    normals := normals0 + triangle1Normals + triangle2Normals;
  }
}
