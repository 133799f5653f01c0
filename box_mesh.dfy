/** The brick mesh every column scene emits: an axis-aligned box written
    as six faces of two triangles each, with one fixed normal per face.
    `add_brick_faces` (ModernGL/ColumnAndPlane.py, AnaglyphColumnExperiment.py)
    and `add_brick_face_to_lists` (WhiteColumn.py) are the same code. */
module BoxMesh {
  import opened Common

  /** The faces of a brick, in the order the source emits them. */
  datatype Face = Front | Back | Left | Right | Top | Bottom

  const FaceOrder: seq<Face> := [Front, Back, Left, Right, Top, Bottom]

  /** The box spanned by x1..x2, yBottom..yTop and z1..z2. */
  datatype Box = Box(x1: real, x2: real, yTop: real, yBottom: real, z1: real, z2: real)

  /** The normal a face carries: fixed by the face, not computed from
      its vertices. */
  function FaceNormal(f: Face): Vec3 {
    match f
    case Front => Vec3(0.0, 0.0, 1.0)
    case Back => Vec3(0.0, 0.0, -1.0)
    case Left => Vec3(-1.0, 0.0, 0.0)
    case Right => Vec3(1.0, 0.0, 0.0)
    case Top => Vec3(0.0, 1.0, 0.0)
    case Bottom => Vec3(0.0, -1.0, 0.0)
  }

  /** The two triangles of a face, corner by corner as the source lists them. */
  function FaceVertices(f: Face, b: Box): (r: seq<Vec3>)
    ensures |r| == 6
    ensures forall k | 0 <= k < 6 :: OnFace(r[k], f, b) && IsCorner(r[k], b)
  {
    var (x1, x2, yt, yb, z1, z2) := (b.x1, b.x2, b.yTop, b.yBottom, b.z1, b.z2);
    match f
    case Front =>
      [Vec3(x1, yt, z1), Vec3(x2, yt, z1), Vec3(x2, yb, z1),
       Vec3(x1, yt, z1), Vec3(x2, yb, z1), Vec3(x1, yb, z1)]
    case Back =>
      [Vec3(x2, yt, z2), Vec3(x1, yt, z2), Vec3(x1, yb, z2),
       Vec3(x2, yt, z2), Vec3(x1, yb, z2), Vec3(x2, yb, z2)]
    case Left =>
      [Vec3(x1, yt, z2), Vec3(x1, yt, z1), Vec3(x1, yb, z1),
       Vec3(x1, yt, z2), Vec3(x1, yb, z1), Vec3(x1, yb, z2)]
    case Right =>
      [Vec3(x2, yt, z1), Vec3(x2, yt, z2), Vec3(x2, yb, z2),
       Vec3(x2, yt, z1), Vec3(x2, yb, z2), Vec3(x2, yb, z1)]
    case Top =>
      [Vec3(x1, yt, z1), Vec3(x1, yt, z2), Vec3(x2, yt, z2),
       Vec3(x1, yt, z1), Vec3(x2, yt, z2), Vec3(x2, yt, z1)]
    case Bottom =>
      [Vec3(x1, yb, z2), Vec3(x1, yb, z1), Vec3(x2, yb, z1),
       Vec3(x1, yb, z2), Vec3(x2, yb, z1), Vec3(x2, yb, z2)]
  }

  /** v lies in the plane of face f of box b. */
  predicate OnFace(v: Vec3, f: Face, b: Box) {
    match f
    case Front => v.z == b.z1
    case Back => v.z == b.z2
    case Left => v.x == b.x1
    case Right => v.x == b.x2
    case Top => v.y == b.yTop
    case Bottom => v.y == b.yBottom
  }

  /** v is one of the eight corners of b. */
  predicate IsCorner(v: Vec3, b: Box) {
    && (v.x == b.x1 || v.x == b.x2)
    && (v.y == b.yTop || v.y == b.yBottom)
    && (v.z == b.z1 || v.z == b.z2)
  }

  /** All 36 vertices of a brick: the six faces in source order. Vertex k
      is a corner of the box lying on face k / 6. */
  function BoxVertices(b: Box): (r: seq<Vec3>)
    ensures |r| == 36
    ensures forall k | 0 <= k < 36 :: OnFace(r[k], FaceOrder[k / 6], b) && IsCorner(r[k], b)
  {
    FaceVertices(Front, b) + FaceVertices(Back, b) + FaceVertices(Left, b)
    + FaceVertices(Right, b) + FaceVertices(Top, b) + FaceVertices(Bottom, b)
  }

  /** The 36 normals of a brick: each block of six is the normal of face k / 6. */
  function BoxNormals(): (r: seq<Vec3>)
    ensures |r| == 36
    ensures forall k | 0 <= k < 36 :: r[k] == FaceNormal(FaceOrder[k / 6])
  {
    Six(FaceNormal(Front)) + Six(FaceNormal(Back)) + Six(FaceNormal(Left))
    + Six(FaceNormal(Right)) + Six(FaceNormal(Top)) + Six(FaceNormal(Bottom))
  }

  /** The vertex list produced by emitting the bricks one after another
      into one pair of lists. */
  function Mesh(bricks: seq<Box>): seq<Vec3> {
    if bricks == [] then [] else Mesh(bricks[..|bricks| - 1]) + BoxVertices(bricks[|bricks| - 1])
  }

  /** The matching normal list for n bricks. */
  function MeshNormals(n: nat): seq<Vec3> {
    if n == 0 then [] else MeshNormals(n - 1) + BoxNormals()
  }

  /** A list of bricks becomes exactly 36 vertices and 36 normals per brick. */
  lemma {:induction false} MeshShape(bricks: seq<Box>)
    ensures |Mesh(bricks)| == 36 * |bricks|
    ensures |MeshNormals(|bricks|)| == 36 * |bricks|
  {
    if bricks != [] {
      MeshShape(bricks[..|bricks| - 1]);
    }
  }

  /** Brick k occupies the 36 slots starting at 36 * k, face by face. */
  lemma {:induction false} MeshAt(bricks: seq<Box>, k: nat, c: nat)
    requires k < |bricks| && c < 36
    ensures 36 * k + c < |Mesh(bricks)|
    ensures Mesh(bricks)[36 * k + c] == BoxVertices(bricks[k])[c]
  {
    var init := bricks[..|bricks| - 1];
    MeshShape(init);
    if k < |bricks| - 1 {
      MeshAt(init, k, c);
    }
  }

  /** Six appends one after another add their concatenation. */
  lemma AppendSix<T>(v: seq<T>, a: seq<T>, b: seq<T>, c: seq<T>, d: seq<T>, e: seq<T>, f: seq<T>)
    ensures v + a + b + c + d + e + f == v + (a + b + c + d + e + f)
  {
  }

  /** A pair of vertex and normal lists that the caller owns and that
      brick emission extends in place. */
  class MeshLists {
    var vertices: seq<Vec3>
    var normals: seq<Vec3>

    constructor ()
      ensures vertices == [] && normals == []
    {
      vertices := [];
      normals := [];
    }

    /** `add_brick_faces`: appends the six faces of the box, 36 vertices
        and 36 normals, after whatever the lists already hold. */
    method AddBrickFaces(x1: real, x2: real, yTop: real, yBottom: real, z1: real, z2: real)
      modifies this
      ensures vertices == old(vertices) + BoxVertices(Box(x1, x2, yTop, yBottom, z1, z2))
      ensures normals == old(normals) + BoxNormals()
    {
      var b := Box(x1, x2, yTop, yBottom, z1, z2);
      ghost var v0, n0 := vertices, normals;
      AddFace(Front, b);
      AddFace(Back, b);
      AddFace(Left, b);
      AddFace(Right, b);
      AddFace(Top, b);
      AddFace(Bottom, b);
      AppendSix(v0, FaceVertices(Front, b), FaceVertices(Back, b), FaceVertices(Left, b),
                FaceVertices(Right, b), FaceVertices(Top, b), FaceVertices(Bottom, b));
      AppendSix(n0, Six(FaceNormal(Front)), Six(FaceNormal(Back)), Six(FaceNormal(Left)),
                Six(FaceNormal(Right)), Six(FaceNormal(Top)), Six(FaceNormal(Bottom)));
    }

    /** One face: its six corners and six copies of its normal. */
    method AddFace(f: Face, b: Box)
      modifies this
      ensures vertices == old(vertices) + FaceVertices(f, b)
      ensures normals == old(normals) + Six(FaceNormal(f))
    {
      vertices := vertices + FaceVertices(f, b);
      normals := normals + Six(FaceNormal(f));
    }
  }
}
