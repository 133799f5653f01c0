/** What the two custom-lit specular scenes share: the rotation matrices
    that carry the light and the camera into the floor's frame, the
    material parameters the lighting reads and the key bindings that
    change them within fixed bounds. */
module SceneLighting {
  import opened Common

  // ---------------------------------------------------------------
  // 3 x 3 matrices
  // ---------------------------------------------------------------

  /** A 3 x 3 matrix, row by row. */
  datatype Mat3 = Mat3(r0: Vec3, r1: Vec3, r2: Vec3)

  function Dot(a: Vec3, b: Vec3): real {
    a.x * b.x + a.y * b.y + a.z * b.z
  }

  /** `np.dot` of a matrix and a vector. */
  function MatVec(m: Mat3, v: Vec3): Vec3 {
    Vec3(Dot(m.r0, v), Dot(m.r1, v), Dot(m.r2, v))
  }

  function Col0(m: Mat3): Vec3 { Vec3(m.r0.x, m.r1.x, m.r2.x) }
  function Col1(m: Mat3): Vec3 { Vec3(m.r0.y, m.r1.y, m.r2.y) }
  function Col2(m: Mat3): Vec3 { Vec3(m.r0.z, m.r1.z, m.r2.z) }

  /** `np.dot` of two matrices. */
  function MatMul(a: Mat3, b: Mat3): Mat3 {
    Mat3(Vec3(Dot(a.r0, Col0(b)), Dot(a.r0, Col1(b)), Dot(a.r0, Col2(b))),
         Vec3(Dot(a.r1, Col0(b)), Dot(a.r1, Col1(b)), Dot(a.r1, Col2(b))),
         Vec3(Dot(a.r2, Col0(b)), Dot(a.r2, Col1(b)), Dot(a.r2, Col2(b))))
  }

  const Identity: Mat3 := Mat3(Vec3(1.0, 0.0, 0.0), Vec3(0.0, 1.0, 0.0), Vec3(0.0, 0.0, 1.0))

  // ---------------------------------------------------------------
  // Rotations
  // ---------------------------------------------------------------

  /** `get_rotation_matrix_x`, given the cosine and sine of the angle. */
  function RotX(c: real, s: real): Mat3 {
    Mat3(Vec3(1.0, 0.0, 0.0), Vec3(0.0, c, -s), Vec3(0.0, s, c))
  }

  /** `get_rotation_matrix_z`, given the cosine and sine of the angle. */
  function RotZ(c: real, s: real): Mat3 {
    Mat3(Vec3(c, -s, 0.0), Vec3(s, c, 0.0), Vec3(0.0, 0.0, 1.0))
  }

  /** `get_inverse_rotation_matrix` for the angles (in degrees) angleX and
      angleZ: Rz(-angleZ) times Rx(-angleX). `cosDeg` and `sinDeg` are the
      cosine and sine of an angle in degrees. */
  function InverseRotation(cosDeg: real -> real, sinDeg: real -> real, angleX: int, angleZ: int): Mat3 {
    var az := -(angleZ as real);
    var ax := -(angleX as real);
    MatMul(RotZ(cosDeg(az), sinDeg(az)), RotX(cosDeg(ax), sinDeg(ax)))
  }

  /** A rotation about x keeps x and, for a true cosine-sine pair, the
      squared length. */
  lemma RotXPreserves(c: real, s: real, v: Vec3)
    requires c * c + s * s == 1.0
    ensures MatVec(RotX(c, s), v).x == v.x
    ensures Dot(MatVec(RotX(c, s), v), MatVec(RotX(c, s), v)) == Dot(v, v)
  {
    var y := c * v.y - s * v.z;
    var z := s * v.y + c * v.z;
    assert y * y + z * z == (c * c + s * s) * (v.y * v.y + v.z * v.z);
  }

  /** A rotation about z keeps z and, for a true cosine-sine pair, the
      squared length. */
  lemma RotZPreserves(c: real, s: real, v: Vec3)
    requires c * c + s * s == 1.0
    ensures MatVec(RotZ(c, s), v).z == v.z
    ensures Dot(MatVec(RotZ(c, s), v), MatVec(RotZ(c, s), v)) == Dot(v, v)
  {
    var x := c * v.x - s * v.y;
    var y := s * v.x + c * v.y;
    assert x * x + y * y == (c * c + s * s) * (v.x * v.x + v.y * v.y);
  }

  /** With the angles at rest the inverse rotation is the identity, so the
      light and the camera stay where they were put. */
  lemma InverseRotationAtRest(cosDeg: real -> real, sinDeg: real -> real, v: Vec3)
    requires cosDeg(0.0) == 1.0 && sinDeg(0.0) == 0.0
    ensures InverseRotation(cosDeg, sinDeg, 0, 0) == Identity
    ensures MatVec(InverseRotation(cosDeg, sinDeg, 0, 0), v) == v
  {
    RestRotations(cosDeg(-(0 as real)), sinDeg(-(0 as real)));
    IdentityKeeps(v);
  }

  /** `rotation` is `get_inverse_rotation_matrix` for every angle pair. */
  ghost predicate IsInverseRotation(cosDeg: real -> real, sinDeg: real -> real, rotation: (int, int) -> Mat3) {
    forall ax: int, az: int {:trigger InverseRotation(cosDeg, sinDeg, ax, az)} ::
      rotation(ax, az) == InverseRotation(cosDeg, sinDeg, ax, az)
  }

  /** Such a rotation leaves every point where it is at angles 0. */
  lemma RotationAtRest(cosDeg: real -> real, sinDeg: real -> real, rotation: (int, int) -> Mat3, v: Vec3)
    requires IsInverseRotation(cosDeg, sinDeg, rotation)
    requires cosDeg(0.0) == 1.0 && sinDeg(0.0) == 0.0
    ensures MatVec(rotation(0, 0), v) == v
  {
    assert rotation(0, 0) == InverseRotation(cosDeg, sinDeg, 0, 0);
    InverseRotationAtRest(cosDeg, sinDeg, v);
  }

  lemma RestRotations(c: real, s: real)
    requires c == 1.0 && s == 0.0
    ensures MatMul(RotZ(c, s), RotX(c, s)) == Identity
  {
    assert RotZ(c, s) == Identity;
    assert RotX(c, s) == Identity;
  }

  lemma IdentityKeeps(v: Vec3)
    ensures MatVec(Identity, v) == v
  {
  }

  // ---------------------------------------------------------------
  // Lighting parameters and their keys
  // ---------------------------------------------------------------

  /** What the per-vertex lighting reads: the rotated light and camera
      positions, the material's shininess and roughness, and the model. */
  datatype Lighting = Lighting(lightPos: Vec3, cameraPos: Vec3, shininess: real, roughness: real, useWard: bool)

  const InitialLightPos: Vec3 := Vec3(0.0, 1.0, -100.0)
  const InitialCameraPos: Vec3 := Vec3(0.0, 1.5, 0.0)
  const InitialShininess: real := 128.0
  const InitialRoughness: real := 0.05

  const MinRoughness: real := 0.01
  const MaxRoughness: real := 0.2
  const MinShininess: real := 10.0
  const MaxShininess: real := 500.0

  predicate RoughnessInRange(r: real) {
    MinRoughness <= r <= MaxRoughness
  }

  predicate ShininessInRange(s: real) {
    MinShininess <= s <= MaxShininess
  }

  /** Key 3: roughness up by 0.01, capped at 0.2. */
  function RoughnessUp(r: real): (r': real)
    ensures RoughnessInRange(r) ==> RoughnessInRange(r') && r <= r'
    ensures r' <= MaxRoughness
    ensures r + 0.01 <= MaxRoughness ==> r' == r + 0.01
  {
    Min(0.2, r + 0.01)
  }

  /** Key 4: roughness down by 0.01, floored at 0.01. */
  function RoughnessDown(r: real): (r': real)
    ensures RoughnessInRange(r) ==> RoughnessInRange(r') && r' <= r
    ensures MinRoughness <= r'
    ensures MinRoughness <= r - 0.01 ==> r' == r - 0.01
  {
    Max(0.01, r - 0.01)
  }

  /** Key 5: shininess up by 20, capped at 500. */
  function ShininessUp(s: real): (s': real)
    ensures ShininessInRange(s) ==> ShininessInRange(s') && s <= s'
    ensures s' <= MaxShininess
    ensures s + 20.0 <= MaxShininess ==> s' == s + 20.0
  {
    Min(500.0, s + 20.0)
  }

  /** Key 6: shininess down by 20, floored at 10. */
  function ShininessDown(s: real): (s': real)
    ensures ShininessInRange(s) ==> ShininessInRange(s') && s' <= s
    ensures MinShininess <= s'
    ensures MinShininess <= s - 20.0 ==> s' == s - 20.0
  {
    Max(10.0, s - 20.0)
  }

  /** Stepping roughness up and back down returns to the start whenever
      neither step is clipped. */
  lemma RoughnessStepsCancel(r: real)
    requires MinRoughness <= r && r + 0.01 <= MaxRoughness
    ensures RoughnessDown(RoughnessUp(r)) == r
  {
  }

  lemma ShininessStepsCancel(s: real)
    requires MinShininess <= s && s + 20.0 <= MaxShininess
    ensures ShininessDown(ShininessUp(s)) == s
  {
  }

  /** The roughness after one pass of the key loop: key 3 is tested before
      key 4. It stays in range, and pressing both keys together leaves an
      unclipped value where it was. */
  function KeyedRoughness(keys: seq<string>, r: real): (r': real)
    ensures RoughnessInRange(r) ==> RoughnessInRange(r')
    ensures "3" !in keys && "4" !in keys ==> r' == r
    ensures RoughnessInRange(r) && "3" in keys && "4" !in keys ==> r <= r'
    ensures RoughnessInRange(r) && "4" in keys && "3" !in keys ==> r' <= r
    ensures "3" in keys && "4" in keys && MinRoughness <= r && r + 0.01 <= MaxRoughness ==> r' == r
  {
    var up := if "3" in keys then RoughnessUp(r) else r;
    if "4" in keys then RoughnessDown(up) else up
  }

  /** The shininess after one pass of the key loop: key 5, then key 6. */
  function KeyedShininess(keys: seq<string>, s: real): (s': real)
    ensures ShininessInRange(s) ==> ShininessInRange(s')
    ensures "5" !in keys && "6" !in keys ==> s' == s
    ensures ShininessInRange(s) && "5" in keys && "6" !in keys ==> s <= s'
    ensures ShininessInRange(s) && "6" in keys && "5" !in keys ==> s' <= s
    ensures "5" in keys && "6" in keys && MinShininess <= s && s + 20.0 <= MaxShininess ==> s' == s
  {
    var up := if "5" in keys then ShininessUp(s) else s;
    if "6" in keys then ShininessDown(up) else up
  }

  /** The angle steps of the arrow keys: left and right turn about z by 10
      degrees, up and down tilt about x by 1 degree. */
  const ZStep: int := 10
  const XStep: int := 1

  // ---------------------------------------------------------------
  // Immediate-mode drawing
  // ---------------------------------------------------------------

  /** One vertex as immediate mode sends it: colour, normal, position. */
  datatype GlVertex = GlVertex(colour: Vec3, normal: Vec3, position: Vec3)

  /** The loop of `render_immediate_mode` and `render_glossy_floor`: vertex
      i is sent with colour i and normal i, in list order, and the lists
      themselves are only read. */
  method DrawImmediate(colours: seq<Vec3>, normals: seq<Vec3>, vertices: seq<Vec3>) returns (draws: seq<GlVertex>)
    requires |colours| == |vertices| && |normals| == |vertices|
    ensures |draws| == |vertices|
    ensures forall i | 0 <= i < |vertices| :: draws[i] == GlVertex(colours[i], normals[i], vertices[i])
  {
    draws := [];
    for i := 0 to |vertices|
      invariant |draws| == i
      invariant forall k | 0 <= k < i :: draws[k] == GlVertex(colours[k], normals[k], vertices[k])
    {
      draws := draws + [GlVertex(colours[i], normals[i], vertices[i])];
    }
  }
}
