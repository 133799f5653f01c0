/** RotationInPlaneNoNewRandom.py: the jittered specular floor lit by the
    fixed-function pipeline. The floor and its normals are drawn once, when
    the scene is built; the arrow keys only change the two view angles, so
    no key ever draws new random numbers. */
module RotationInPlaneNoNewRandom {
  import opened Common
  import opened FloorGrid
  import opened SceneLighting

  /** 100 by 100 cells of 0.4 by 0.4, from (-20, -20). */
  const PlaneFloor: Grid := Grid(-20.0, -20.0, 0.4, 0.4, 100, 100)

  /** `jittered_normal` reading the uniform draws 2k and 2k + 1:
      `uniform(-0.7, 0.7)` for x, 1 for y, `uniform(-0.05, 0.05)` for z,
      divided by the length. */
  function PlaneNormal(sqrt: real -> real, u: nat -> Unit, k: nat): Vec3
    requires SqrtPositive(sqrt)
  {
    UnitNormal(sqrt, Uniform(-0.7, 0.7, u(2 * k)), Uniform(-0.05, 0.05, u(2 * k + 1)))
  }

  /** Every jittered normal points upwards and leans at most 0.7 units
      sideways in x and 0.05 in z per unit of height. */
  lemma PlaneNormalTilt(sqrt: real -> real, u: nat -> Unit, k: nat)
    requires SqrtPositive(sqrt)
    ensures PlaneNormal(sqrt, u, k).y > 0.0
    ensures -0.7 * PlaneNormal(sqrt, u, k).y <= PlaneNormal(sqrt, u, k).x <= 0.7 * PlaneNormal(sqrt, u, k).y
    ensures -0.05 * PlaneNormal(sqrt, u, k).y <= PlaneNormal(sqrt, u, k).z <= 0.05 * PlaneNormal(sqrt, u, k).y
  {
    var nx := Uniform(-0.7, 0.7, u(2 * k));
    var nz := Uniform(-0.05, 0.05, u(2 * k + 1));
    var n := UnitNormal(sqrt, nx, nz);
    assert -0.7 <= nx <= 0.7 && -0.05 <= nz <= 0.05;
    BoundedLean(nx, 0.7, n.y);
    BoundedLean(nz, 0.05, n.y);
    assert n.x == nx * n.y && n.z == nz * n.y;
  }

  lemma BoundedLean(a: real, bound: real, y: real)
    requires -bound <= a <= bound && y > 0.0
    ensures -bound * y <= a * y <= bound * y
  {
    var d := bound - a;
    var e := a + bound;
    assert d * y >= 0.0 && e * y >= 0.0;
  }

  /** The white the floor is drawn in: `glColor3f(1, 1, 1)` before the
      loop, so every vertex carries it. */
  const White: Vec3 := Vec3(1.0, 1.0, 1.0)

  /** `sqrt` is the `** 0.5` of `jittered_normal` and `uniforms` the
      stream of `random.random()` draws `random.uniform` scales. */
  class SpecularStreakScene {
    const floorGrid: Grid
    const sqrt: real -> real
    const uniforms: nat -> Unit
    var angleX: int
    var angleZ: int
    var floorVertices: seq<Vec3>
    var floorNormals: seq<Vec3>

    /** The floor built once: the grid, and normal k from draws 2k, 2k + 1. */
    ghost predicate Valid()
      reads this
    {
      && SqrtPositive(sqrt)
      && floorVertices == GridVertices(floorGrid)
      && floorNormals == VertexwiseNormals(6 * (floorGrid.nx * floorGrid.nz),
                                           (k: nat) => PlaneNormal(sqrt, uniforms, k))
    }

    /** Builds the floor first, then sets both angles to 0. */
    constructor (sqrt: real -> real, uniforms: nat -> Unit)
      requires SqrtPositive(sqrt)
      ensures Valid()
      ensures floorGrid == PlaneFloor && this.sqrt == sqrt && this.uniforms == uniforms
      ensures angleX == 0 && angleZ == 0
    {
      floorGrid := PlaneFloor;
      this.sqrt := sqrt;
      this.uniforms := uniforms;
      new;
      GenerateFloorGeometry();
      angleX := 0;
      angleZ := 0;
    }

    /** `generate_floor_geometry`: both lists rebuilt by the jittered
        nested loop, three normals drawn after each triangle's vertices. */
    method GenerateFloorGeometry()
      requires SqrtPositive(sqrt)
      modifies this`floorVertices, this`floorNormals
      ensures Valid()
    {
      floorVertices, floorNormals := EmitJitteredGrid(floorGrid, (k: nat) => PlaneNormal(sqrt, uniforms, k));
    }

    /** `render_glossy_floor`: white, then every stored vertex with its
        normal, in order; nothing is changed. */
    method RenderGlossyFloor() returns (draws: seq<GlVertex>)
      requires Valid()
      ensures |draws| == |floorVertices|
      ensures forall i | 0 <= i < |floorVertices| ::
                draws[i] == GlVertex(White, floorNormals[i], floorVertices[i])
    {
      GridShape(floorGrid);
      var colours := seq(|floorVertices|, _ => White);
      draws := DrawImmediate(colours, floorNormals, floorVertices);
    }

    /** One pass of the key loop. Escape or q ends it; otherwise each arrow
        key turns one angle by a degree, and the floor is never rebuilt. */
    method HandleKeys(keys: seq<string>) returns (quit: bool)
      requires Valid()
      modifies this`angleX, this`angleZ
      ensures Valid()
      ensures quit <==> "escape" in keys || "q" in keys
      ensures quit ==> angleX == old(angleX) && angleZ == old(angleZ)
      ensures !quit ==>
                && angleZ == old(angleZ) - (if "left" in keys then 1 else 0) + (if "right" in keys then 1 else 0)
                && angleX == old(angleX) - (if "up" in keys then 1 else 0) + (if "down" in keys then 1 else 0)
    {
      if "escape" in keys || "q" in keys {
        return true;
      }
      quit := false;
      if "left" in keys {
        angleZ := angleZ - 1;
      }
      if "right" in keys {
        angleZ := angleZ + 1;
      }
      if "up" in keys {
        angleX := angleX - 1;
      }
      if "down" in keys {
        angleX := angleX + 1;
      }
    }
  }

  /** Every normal of the stored floor points upwards within the jitter's
      lean, and the floor lies flat in [-20, 20] by [-20, 20]. */
  lemma SceneFloorShape(s: SpecularStreakScene)
    requires s.Valid() && s.floorGrid == PlaneFloor
    ensures |s.floorVertices| == |s.floorNormals| == 60000
    ensures forall k | 0 <= k < 60000 ::
              && s.floorVertices[k].y == 0.0
              && -20.0 <= s.floorVertices[k].x <= 20.0
              && -20.0 <= s.floorVertices[k].z <= 20.0
    ensures forall k | 0 <= k < 60000 ::
              && s.floorNormals[k].y > 0.0
              && -0.7 * s.floorNormals[k].y <= s.floorNormals[k].x <= 0.7 * s.floorNormals[k].y
  {
    GridShape(PlaneFloor);
    GridInRectangle(PlaneFloor);
    assert Offset(-20.0, 0.4, 100) == 20.0;
    forall k | 0 <= k < 60000
      ensures && s.floorNormals[k].y > 0.0
              && -0.7 * s.floorNormals[k].y <= s.floorNormals[k].x <= 0.7 * s.floorNormals[k].y
    {
      PlaneNormalTilt(s.sqrt, s.uniforms, k);
    }
  }
}
