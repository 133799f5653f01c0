/** AnaglyphColumnExperiment.py: a column of jittered bricks above a plain
    floor, drawn twice per frame (a red pass for the left eye, a cyan pass
    for the right eye) from two viewpoints whose separation carries the
    trial's disparity; a trial list crosses nine disparities with three
    column distances, three times each, in shuffled order. */
module AnaglyphColumn {
  import opened Common
  import opened BoxMesh
  import opened FloorGrid

  // ---------------------------------------------------------------
  // Floor and column
  // ---------------------------------------------------------------

  /** A 40-unit floor of 50 by 50 cells, each 0.8 wide, starting at -20. */
  const AnaglyphFloor: Grid := Grid(-20.0, -20.0, 0.8, 0.8, 50, 50)

  /** The floor has 50 * 50 * 6 = 15000 vertices at y = 0, each with the
      upward normal. */
  lemma FloorShape(g: Grid)
    requires g == AnaglyphFloor
    ensures |GridVertices(g)| == 15000
    ensures forall k | 0 <= k < 15000 :: GridVertices(g)[k].y == 0.0
    ensures |CellwiseNormals(g.nx * g.nz, UpNormal)| == 15000
    ensures forall k | 0 <= k < 15000 :: CellwiseNormals(g.nx * g.nz, UpNormal)[k] == Up
  {
    GridShape(g);
    assert g.nx * g.nz == 2500;
    forall k | 0 <= k < 15000
      ensures CellwiseNormals(g.nx * g.nz, UpNormal)[k] == Up
    {
      CellwiseNormalsAt(g.nx * g.nz, UpNormal, k);
    }
  }

  const NumBricks: nat := 300
  const BrickHeight: real := 15.0 / 300.0
  const MaxOffset: real := 0.08
  const BrickWidth: real := 1.0
  const BrickDepth: real := 0.08
  const MissingBrickProbability: real := 0.15

  /** What the draws decide for one kept layer. */
  datatype Placement = Placement(layer: nat, xOffset: real, zOffset: real, brightness: real)

  /** One `brick_data` entry. */
  datatype BrickData = BrickData(vertices: seq<Vec3>, normals: seq<Vec3>, brightness: real, baseZ: real)

  /** Bricks darken linearly by up to 0.3 from the top layer to the bottom
      one, are jittered by up to 0.1, and are clamped to [0.4, 1.0]. */
  function LayerBrightness(i: nat, u: Unit): (r: real)
    ensures 0.4 <= r <= 1.0
  {
    var positionFactor := (i as real) / ((NumBricks - 1) as real);
    var baseBrightness := 1.0 - positionFactor * 0.3;
    var brightness := baseBrightness + Uniform(-0.1, 0.1, u);
    Max(0.4, Min(1.0, brightness))
  }

  /** The kept layers from layer i on, the stream being at draw k: a draw
      below 0.15 drops the layer, otherwise three more draws give the x and
      z offsets and the brightness jitter. */
  function Placements(u: nat -> Unit, i: nat, k: nat): seq<Placement>
    decreases NumBricks - i
  {
    if i >= NumBricks then []
    else if u(k) < MissingBrickProbability then Placements(u, i + 1, k + 1)
    else
      var p := Placement(i, Uniform(-MaxOffset, MaxOffset, u(k + 1)),
                         Uniform(-MaxOffset, MaxOffset, u(k + 2)), LayerBrightness(i, u(k + 3)));
      [p] + Placements(u, i + 1, k + 4)
  }

  /** A kept layer contributes its placement and moves the stream on by four draws. */
  lemma KeptLayer(u: nat -> Unit, i: nat, k: nat, done: seq<Placement>, p: Placement)
    requires i < NumBricks && u(k) >= MissingBrickProbability
    requires p == Placement(i, Uniform(-MaxOffset, MaxOffset, u(k + 1)),
                            Uniform(-MaxOffset, MaxOffset, u(k + 2)), LayerBrightness(i, u(k + 3)))
    ensures done + Placements(u, i, k) == (done + [p]) + Placements(u, i + 1, k + 4)
  {
  }

  function LayerBox(p: Placement): Box {
    Box(p.xOffset - BrickWidth / 2.0, p.xOffset + BrickWidth / 2.0,
        -(p.layer as real) * BrickHeight, -((p.layer + 1) as real) * BrickHeight,
        p.zOffset - BrickDepth / 2.0, p.zOffset + BrickDepth / 2.0)
  }

  function Entry(p: Placement): BrickData {
    BrickData(BoxVertices(LayerBox(p)), BoxNormals(), p.brightness, p.zOffset)
  }

  /** At most one brick per remaining layer, in strictly increasing layer
      order, each with its brightness in [0.4, 1.0]. */
  lemma {:induction false} PlacementsShape(u: nat -> Unit, i: nat, k: nat)
    requires i <= NumBricks
    ensures |Placements(u, i, k)| <= NumBricks - i
    ensures forall m | 0 <= m < |Placements(u, i, k)| ::
              i <= Placements(u, i, k)[m].layer < NumBricks
              && 0.4 <= Placements(u, i, k)[m].brightness <= 1.0
    ensures forall m, n | 0 <= m < n < |Placements(u, i, k)| ::
              Placements(u, i, k)[m].layer < Placements(u, i, k)[n].layer
    decreases NumBricks - i
  {
    if i < NumBricks {
      if u(k) < MissingBrickProbability {
        PlacementsShape(u, i + 1, k + 1);
      } else {
        PlacementsShape(u, i + 1, k + 4);
      }
    }
  }

  lemma LayerStep(i: nat, h: real)
    requires h > 0.0
    ensures -(i as real) * h - (-((i + 1) as real) * h) == h
    ensures -(i as real) * h > -((i + 1) as real) * h
  {
    var p := (i as real) * h;
    assert ((i + 1) as real) * h == p + h;
  }

  /** Every entry holds the 36 vertices and normals of a box with
      y_top = -layer * h above y_bottom = -(layer + 1) * h, h = 15 / 300. */
  lemma EntryShape(p: Placement)
    ensures |Entry(p).vertices| == 36 && |Entry(p).normals| == 36
    ensures LayerBox(p).yTop == -(p.layer as real) * BrickHeight
    ensures LayerBox(p).yBottom == -((p.layer + 1) as real) * BrickHeight
    ensures LayerBox(p).yTop - LayerBox(p).yBottom == 15.0 / 300.0
    ensures LayerBox(p).yTop > LayerBox(p).yBottom
  {
    LayerStep(p.layer, BrickHeight);
  }

  // ---------------------------------------------------------------
  // Trial list
  // ---------------------------------------------------------------

  const Disparities: seq<real> := [-0.8, -0.4, -0.2, -0.1, 0.0, 0.1, 0.2, 0.4, 0.8]
  const Distances: seq<real> := [-15.0, -20.0, -25.0]

  datatype Trial = Trial(disparityDegrees: real, columnDistance: real, trialId: nat, presentationTime: real)

  /** The trial the triple loop appends n-th: disparity n / 9, distance
      (n / 3) % 3, repeat n % 3, numbered from 1. */
  function TrialAt(n: nat): Trial
    requires n < 81
  {
    Trial(Disparities[n / 9], Distances[n / 3 % 3], n + 1, 2.0)
  }

  function DefaultTrials(): seq<Trial> {
    seq(81, (n: int) requires 0 <= n < 81 => TrialAt(n))
  }

  function ConditionOf(t: Trial): (real, real) {
    (t.disparityDegrees, t.columnDistance)
  }

  function TrialIdOf(t: Trial): int {
    t.trialId
  }

  lemma IndexSplit(a: nat, b: nat, r: nat)
    requires a < 9 && b < 3 && r < 3
    ensures (9 * a + 3 * b + r) / 9 == a
    ensures (9 * a + 3 * b + r) / 3 % 3 == b
  {
    var n := 9 * a + 3 * b + r;
    assert 9 * a <= n < 9 * a + 9;
    assert n / 3 == 3 * a + b;
  }

  lemma Decompose(n: nat)
    requires n < 81
    ensures n == 9 * (n / 9) + 3 * (n / 3 % 3) + n % 3
    ensures n / 9 < 9 && n / 3 % 3 < 3
  {
    var q := n / 9;
    var r := n % 9;
    assert n == 9 * q + r;
    assert n / 3 == 3 * q + r / 3;
  }

  lemma Distinct()
    ensures forall i, j | 0 <= i < j < 9 :: Disparities[i] < Disparities[j]
    ensures forall i, j | 0 <= i < j < 3 :: Distances[i] > Distances[j]
  {
  }

  /** How many of the first n trials have condition block s = 9a + 3b. */
  function Clamp3(m: int): nat {
    if m <= 0 then 0 else if m >= 3 then 3 else m
  }

  lemma {:induction false} ConditionCountPrefix(n: nat, a: nat, b: nat)
    requires n <= 81 && a < 9 && b < 3
    ensures multiset(MapSeq(ConditionOf, DefaultTrials()[..n]))[(Disparities[a], Distances[b])]
            == Clamp3(n - (9 * a + 3 * b))
  {
    if n > 0 {
      var m := n - 1;
      ConditionCountPrefix(m, a, b);
      MapCountStep(ConditionOf, DefaultTrials(), m, (Disparities[a], Distances[b]));
      ConditionBlock(m, a, b);
    }
  }

  /** Trial m has condition (a, b) exactly when it is one of the three
      repeats of block 9a + 3b. */
  lemma ConditionBlock(m: nat, a: nat, b: nat)
    requires m < 81 && a < 9 && b < 3
    ensures ConditionOf(DefaultTrials()[m]) == (Disparities[a], Distances[b]) <==> 9 * a + 3 * b <= m < 9 * a + 3 * b + 3
  {
    Decompose(m);
    Distinct();
    var c := ConditionOf(DefaultTrials()[m]);
    assert c == (Disparities[m / 9], Distances[m / 3 % 3]);
    if 9 * a + 3 * b <= m < 9 * a + 3 * b + 3 {
      assert m / 9 == a && m / 3 % 3 == b;
    } else {
      assert m / 9 != a || m / 3 % 3 != b;
    }
  }

  /** A list numbered 1, 2, 3, ... in order holds each of the first n
      numbers exactly once in its first n entries. */
  lemma {:induction false} IdCountPrefix(all: seq<Trial>, n: nat, id: int)
    requires n <= |all|
    requires forall m | 0 <= m < |all| :: all[m].trialId == m + 1
    ensures multiset(MapSeq(TrialIdOf, all[..n]))[id] == if 1 <= id <= n then 1 else 0
  {
    if n > 0 {
      var m := n - 1;
      IdCountPrefix(all, m, id);
      assert TrialIdOf(all[m]) == m + 1;
      MapCountStep(TrialIdOf, all, m, id);
    }
  }

  /** The triple loop of `create_default_conditions` before the shuffle:
      disparity outermost, then distance, then repeat, each trial numbered
      by the length of the list so far plus one. */
  method DefaultConditionList() returns (list: seq<Trial>)
    ensures list == DefaultTrials()
  {
    list := [];
    for a := 0 to |Disparities|
      invariant list == DefaultTrials()[..9 * a]
    {
      for b := 0 to |Distances|
        invariant list == DefaultTrials()[..9 * a + 3 * b]
      {
        for repeat := 0 to 3
          invariant list == DefaultTrials()[..9 * a + 3 * b + repeat]
        {
          var n := 9 * a + 3 * b + repeat;
          IndexSplit(a, b, repeat);
          TrialsPrefixStep(n);
          list := list + [Trial(Disparities[a], Distances[b], |list| + 1, 2.0)];
        }
      }
    }
    assert DefaultTrials()[..81] == DefaultTrials();
  }

  lemma TrialsPrefixStep(n: nat)
    requires n < 81
    ensures |DefaultTrials()[..n]| == n
    ensures DefaultTrials()[..n + 1] == DefaultTrials()[..n] + [TrialAt(n)]
  {
  }

  lemma DefaultTrialsShape(all: seq<Trial>)
    requires all == DefaultTrials()
    ensures |all| == 81
    ensures forall m | 0 <= m < |all| :: all[m].trialId == m + 1 && all[m].presentationTime == 2.0
  {
  }

  /** Any rearrangement of the default list has 81 trials: each
      (disparity, distance) pair exactly three times, each id 1 .. 81
      exactly once and a presentation time of 2.0 throughout. */
  lemma ShuffledTrials(trials: seq<Trial>, all: seq<Trial>)
    requires all == DefaultTrials() && multiset(trials) == multiset(all)
    ensures |trials| == 81
    ensures forall a, b | 0 <= a < 9 && 0 <= b < 3 ::
              multiset(MapSeq(ConditionOf, trials))[(Disparities[a], Distances[b])] == 3
    ensures forall id | 1 <= id <= 81 :: multiset(MapSeq(TrialIdOf, trials))[id] == 1
    ensures forall t | t in trials :: t.presentationTime == 2.0
  {
    DefaultTrialsShape(all);
    assert |trials| == |multiset(trials)| == |multiset(all)| == 81;
    ShuffledConditions(trials, all);
    ShuffledIds(trials, all);
    ShuffledTimes(trials, all);
  }

  lemma ShuffledTimes(trials: seq<Trial>, all: seq<Trial>)
    requires multiset(trials) == multiset(all)
    requires forall m | 0 <= m < |all| :: all[m].presentationTime == 2.0
    ensures forall t | t in trials :: t.presentationTime == 2.0
  {
    forall t | t in trials
      ensures t.presentationTime == 2.0
    {
      assert t in multiset(all);
      var m :| 0 <= m < |all| && all[m] == t;
    }
  }

  lemma ShuffledConditions(trials: seq<Trial>, all: seq<Trial>)
    requires all == DefaultTrials() && multiset(trials) == multiset(all)
    ensures forall a, b | 0 <= a < 9 && 0 <= b < 3 ::
              multiset(MapSeq(ConditionOf, trials))[(Disparities[a], Distances[b])] == 3
  {
    assert all[..81] == all;
    MapSeqMultiset(ConditionOf, trials, all);
    forall a, b | 0 <= a < 9 && 0 <= b < 3
      ensures multiset(MapSeq(ConditionOf, trials))[(Disparities[a], Distances[b])] == 3
    {
      ConditionCountPrefix(81, a, b);
    }
  }

  lemma ShuffledIds(trials: seq<Trial>, all: seq<Trial>)
    requires all == DefaultTrials() && multiset(trials) == multiset(all)
    ensures forall id | 1 <= id <= 81 :: multiset(MapSeq(TrialIdOf, trials))[id] == 1
  {
    DefaultTrialsShape(all);
    assert all[..81] == all;
    MapSeqMultiset(TrialIdOf, trials, all);
    forall id | 1 <= id <= 81
      ensures multiset(MapSeq(TrialIdOf, trials))[id] == 1
    {
      IdCountPrefix(all, 81, id);
    }
  }

  // ---------------------------------------------------------------
  // Stereo viewpoints
  // ---------------------------------------------------------------

  /** `eye_separation`, an average interpupillary distance in metres. */
  const EyeSeparation: real := 0.065

  datatype Camera = Camera(eye: Vec3, lookAt: Vec3)

  const RedFilter: Vec3 := Vec3(1.0, 0.0, 0.0)
  const CyanFilter: Vec3 := Vec3(0.0, 1.0, 1.0)

  function EyeOffset(eye: string): real {
    if eye == "left" then -EyeSeparation / 2.0 else EyeSeparation / 2.0
  }

  /** The viewpoint arithmetic of `setup_anaglyph_camera`: the disparity
      shifts eye and look-at point alike, so the eye stays half a separation
      to the side of where it looks, whatever the disparity. */
  function AnaglyphCamera(eye: string, disparityPixels: real): (c: Camera)
    ensures c.eye.x - c.lookAt.x == (if eye == "left" then -EyeSeparation / 2.0 else EyeSeparation / 2.0)
    ensures c.lookAt.x == disparityPixels * 0.01
    ensures c.eye.y == 1.5 && c.eye.z == 0.0 && c.lookAt.y == 1.0 && c.lookAt.z == -10.0
  {
    var eyeOffset := EyeOffset(eye);
    var disparityOffset := disparityPixels * 0.01;
    Camera(Vec3(eyeOffset + disparityOffset, 1.5, 0.0), Vec3(disparityOffset, 1.0, -10.0))
  }

  /** Degrees of disparity to pixels, at 60 pixels per degree of a
      `width`-pixel window divided by 60. */
  function DisparityPixels(disparity: real, width: real): real {
    disparity * (width / 60.0)
  }

  datatype EyePass = EyePass(camera: Camera, filter: Vec3)
  datatype Frame = Frame(left: EyePass, right: EyePass)

  /** The two passes of `render_anaglyph_frame`: the left eye through the
      red filter at -dp/2, the right eye through the cyan filter at +dp/2.
      The look-at points mirror each other about x = 0 and the eyes are one
      separation plus 0.01 * dp apart. */
  function AnaglyphFrame(disparity: real, width: real): (f: Frame)
    ensures f.left.camera.lookAt.x == -f.right.camera.lookAt.x
    ensures f.right.camera.eye.x - f.left.camera.eye.x
            == EyeSeparation + 0.01 * DisparityPixels(disparity, width)
    ensures f.left.filter == RedFilter && f.right.filter == CyanFilter
  {
    var dp := DisparityPixels(disparity, width);
    Frame(EyePass(AnaglyphCamera("left", -dp / 2.0), RedFilter),
          EyePass(AnaglyphCamera("right", dp / 2.0), CyanFilter))
  }

  // ---------------------------------------------------------------
  // What each pass draws
  // ---------------------------------------------------------------

  datatype DrawnVertex = DrawnVertex(position: Vec3, normal: Vec3, colour: Vec3)

  function PositionOf(d: DrawnVertex): Vec3 {
    d.position
  }

  function ShiftZ(v: Vec3, dz: real): Vec3 {
    Vec3(v.x, v.y, v.z + dz)
  }

  /** The vertices drawn for one brick: moved back by the column distance,
      with the brick's normals, coloured brightness times filter. */
  function BrickDraws(b: BrickData, columnDistance: real, filter: Vec3): seq<DrawnVertex>
    requires |b.normals| >= |b.vertices|
  {
    seq(|b.vertices|, (i: int) requires 0 <= i < |b.vertices| =>
      DrawnVertex(ShiftZ(b.vertices[i], columnDistance), b.normals[i], Scale(b.brightness, filter)))
  }

  predicate WellFormed(data: seq<BrickData>) {
    forall m | 0 <= m < |data| :: |data[m].normals| >= |data[m].vertices|
  }

  function ColumnDraws(data: seq<BrickData>, columnDistance: real, filter: Vec3): seq<DrawnVertex>
    requires WellFormed(data)
  {
    if data == [] then []
    else ColumnDraws(data[..|data| - 1], columnDistance, filter)
         + BrickDraws(data[|data| - 1], columnDistance, filter)
  }

  /** All brick vertices, brick after brick, moved back by dz. */
  function ShiftedVertices(data: seq<BrickData>, dz: real): seq<Vec3> {
    if data == [] then []
    else
      var vs := data[|data| - 1].vertices;
      ShiftedVertices(data[..|data| - 1], dz) + seq(|vs|, (i: int) requires 0 <= i < |vs| => ShiftZ(vs[i], dz))
  }

  /** Whatever the filter, a column pass draws the same vertices in the
      same order, the stored ones moved back in z by the column distance:
      the two eyes see the same geometry. */
  lemma {:induction false} ColumnDrawsPositions(data: seq<BrickData>, columnDistance: real, filter: Vec3)
    requires WellFormed(data)
    ensures MapSeq(PositionOf, ColumnDraws(data, columnDistance, filter)) == ShiftedVertices(data, columnDistance)
  {
    if data != [] {
      var init := data[..|data| - 1];
      var last := data[|data| - 1];
      ColumnDrawsPositions(init, columnDistance, filter);
      MapSeqAppend(PositionOf, ColumnDraws(init, columnDistance, filter), BrickDraws(last, columnDistance, filter));
    }
  }

  /** The floor pass: the stored floor, unmoved, in 0.3 times the filter. */
  function FloorDraws(vertices: seq<Vec3>, normals: seq<Vec3>, filter: Vec3): seq<DrawnVertex>
    requires |normals| >= |vertices|
  {
    seq(|vertices|, (i: int) requires 0 <= i < |vertices| =>
      DrawnVertex(vertices[i], normals[i], Scale(0.3, filter)))
  }

  // ---------------------------------------------------------------
  // Responses
  // ---------------------------------------------------------------

  function UpperChar(c: char): char {
    if 'a' <= c <= 'z' then (c as int - 32) as char else c
  }

  /** ASCII upper-casing, which is what `str.upper` does to the response keys. */
  function Upper(s: string): (r: string)
    ensures |r| == |s|
    ensures forall i | 0 <= i < |s| :: r[i] == UpperChar(s[i])
  {
    if s == [] then [] else [UpperChar(s[0])] + Upper(s[1..])
  }

  lemma ResponseLetters()
    ensures Upper("c") == "C" && Upper("f") == "F" && Upper("s") == "S"
  {
  }

  datatype Record = Record(trialId: nat, disparityDegrees: real, columnDistance: real,
                           response: string, responseTime: real, timestamp: string)

  // ---------------------------------------------------------------
  // The experiment object
  // ---------------------------------------------------------------

  class AnaglyphColumnExperiment {
    /** The floor's layout: the constants of `generate_floor_geometry`. */
    const floorGrid: Grid
    var floorVertices: seq<Vec3>
    var floorNormals: seq<Vec3>
    var columnVertices: seq<Vec3>
    var columnNormals: seq<Vec3>
    var brickData: seq<BrickData>
    var trials: seq<Trial>
    var currentTrial: nat
    var responses: seq<string>
    var experimentData: seq<Record>

    /** `u` is the stream of `random.random()` values the column draws. */
    constructor (u: nat -> Unit)
      ensures floorGrid == AnaglyphFloor
      ensures floorVertices == GridVertices(floorGrid)
      ensures floorNormals == CellwiseNormals(floorGrid.nx * floorGrid.nz, UpNormal)
      ensures brickData == MapSeq(Entry, Placements(u, 0, 0))
      ensures columnVertices == [] && columnNormals == []
      ensures trials == [] && currentTrial == 0 && responses == [] && experimentData == []
    {
      floorGrid := AnaglyphFloor;
      new;
      GenerateFloorGeometry();
      GenerateColumnGeometry(u);
      trials := [];
      currentTrial := 0;
      responses := [];
      experimentData := [];
    }

    /** `generate_floor_geometry`. */
    method GenerateFloorGeometry()
      modifies this`floorVertices, this`floorNormals
      ensures floorVertices == GridVertices(floorGrid)
      ensures floorNormals == CellwiseNormals(floorGrid.nx * floorGrid.nz, UpNormal)
    {
      floorVertices, floorNormals := EmitGrid(floorGrid, UpNormal);
    }

    /** The body of the layer loop once a layer is kept: the brick's
        extent around its offsets, its faces emitted into fresh lists. */
    static method BrickEntry(brickI: nat, xOffset: real, zOffset: real, brightness: real)
      returns (entry: BrickData)
      ensures entry == Entry(Placement(brickI, xOffset, zOffset, brightness))
    {
      var yTop := -(brickI as real) * BrickHeight;
      var yBottom := -((brickI + 1) as real) * BrickHeight;
      var brickX := xOffset;
      var brickZ := zOffset;
      var x1 := brickX - BrickWidth / 2.0;
      var x2 := brickX + BrickWidth / 2.0;
      var z1 := brickZ - BrickDepth / 2.0;
      var z2 := brickZ + BrickDepth / 2.0;
      ghost var p := Placement(brickI, xOffset, zOffset, brightness);
      assert Box(x1, x2, yTop, yBottom, z1, z2) == LayerBox(p);
      var lists := new MeshLists();
      lists.AddBrickFaces(x1, x2, yTop, yBottom, z1, z2);
      assert lists.vertices == [] + BoxVertices(LayerBox(p)) == BoxVertices(LayerBox(p));
      assert lists.normals == [] + BoxNormals() == BoxNormals();
      entry := BrickData(lists.vertices, lists.normals, brightness, brickZ);
    }

    /** `generate_column_geometry`: one `brick_data` entry per kept layer,
        from the top layer down. */
    method GenerateColumnGeometry(u: nat -> Unit)
      modifies this`columnVertices, this`columnNormals, this`brickData
      ensures brickData == MapSeq(Entry, Placements(u, 0, 0))
      ensures columnVertices == [] && columnNormals == []
    {
      columnVertices := [];
      columnNormals := [];
      brickData := [];
      var k := 0;
      ghost var done: seq<Placement> := [];
      for brickI := 0 to NumBricks
        invariant done + Placements(u, brickI, k) == Placements(u, 0, 0)
        invariant brickData == MapSeq(Entry, done)
        invariant columnVertices == [] && columnNormals == []
      {
        if u(k) < MissingBrickProbability {
          k := k + 1;
          continue;
        }
        var xOffset := Uniform(-MaxOffset, MaxOffset, u(k + 1));
        var zOffset := Uniform(-MaxOffset, MaxOffset, u(k + 2));
        var brightness := LayerBrightness(brickI, u(k + 3));
        ghost var p := Placement(brickI, xOffset, zOffset, brightness);
        KeptLayer(u, brickI, k, done, p);
        k := k + 4;
        var entry := BrickEntry(brickI, xOffset, zOffset, brightness);
        brickData := brickData + [entry];
        MapSeqAppend(Entry, done, [p]);
        done := done + [p];
      }
      assert Placements(u, NumBricks, k) == [];
    }

    /** `create_default_conditions`: 9 disparities x 3 distances x 3 repeats,
        numbered in loop order, then shuffled with the given draws. */
    method CreateDefaultConditions(draws: seq<nat>)
      requires ShuffleDraws(81, draws)
      modifies this`trials
      ensures multiset(trials) == multiset(DefaultTrials())
    {
      var list := DefaultConditionList();
      trials := Shuffle(list, draws);
    }

    /** The column pass of `render_column`, as the sequence of vertices it
        hands to the GPU. */
    method RenderColumn(columnDistance: real, filter: Vec3) returns (draws: seq<DrawnVertex>)
      requires WellFormed(brickData)
      ensures draws == ColumnDraws(brickData, columnDistance, filter)
    {
      draws := [];
      for m := 0 to |brickData|
        invariant draws == ColumnDraws(brickData[..m], columnDistance, filter)
      {
        var brick := brickData[m];
        assert brickData[..m + 1][..m] == brickData[..m];
        var colour := Scale(brick.brightness, filter);
        ghost var all := BrickDraws(brick, columnDistance, filter);
        ghost var before := draws;
        for i := 0 to |brick.vertices|
          invariant draws == before + all[..i]
        {
          var v := brick.vertices[i];
          draws := draws + [DrawnVertex(Vec3(v.x, v.y, v.z + columnDistance), brick.normals[i], colour)];
          assert all[..i + 1] == all[..i] + [all[i]];
        }
        assert all[..|brick.vertices|] == all;
      }
      assert brickData[..|brickData|] == brickData;
    }

    /** The floor pass of `render_floor`. */
    method RenderFloor(filter: Vec3) returns (draws: seq<DrawnVertex>)
      requires |floorNormals| >= |floorVertices|
      ensures draws == FloorDraws(floorVertices, floorNormals, filter)
    {
      draws := [];
      for i := 0 to |floorVertices|
        invariant draws == FloorDraws(floorVertices[..i], floorNormals, filter)
      {
        draws := draws + [DrawnVertex(floorVertices[i], floorNormals[i], Scale(0.3, filter))];
      }
      assert floorVertices[..|floorVertices|] == floorVertices;
    }

    /** `render_anaglyph_frame`: for each eye its camera, then the column
        pass and the floor pass through that eye's filter. */
    method RenderAnaglyphFrame(trial: Trial, width: real)
      returns (frame: Frame, left: seq<DrawnVertex>, right: seq<DrawnVertex>)
      requires WellFormed(brickData) && |floorNormals| >= |floorVertices|
      ensures frame == AnaglyphFrame(trial.disparityDegrees, width)
      ensures left == ColumnDraws(brickData, trial.columnDistance, RedFilter)
                      + FloorDraws(floorVertices, floorNormals, RedFilter)
      ensures right == ColumnDraws(brickData, trial.columnDistance, CyanFilter)
                       + FloorDraws(floorVertices, floorNormals, CyanFilter)
    {
      var disparityPixels := DisparityPixels(trial.disparityDegrees, width);
      var leftCamera := AnaglyphCamera("left", -disparityPixels / 2.0);
      var leftColumn := RenderColumn(trial.columnDistance, RedFilter);
      var leftFloor := RenderFloor(RedFilter);
      var rightCamera := AnaglyphCamera("right", disparityPixels / 2.0);
      var rightColumn := RenderColumn(trial.columnDistance, CyanFilter);
      var rightFloor := RenderFloor(CyanFilter);
      frame := Frame(EyePass(leftCamera, RedFilter), EyePass(rightCamera, CyanFilter));
      left := leftColumn + leftFloor;
      right := rightColumn + rightFloor;
    }

    /** The record keeping of `collect_response`, given the keys pressed
        (never empty), the response time and the time stamp. */
    method CollectResponse(trial: Trial, keys: seq<string>, responseTime: real, timestamp: string)
      returns (response: Option<string>)
      requires |keys| > 0
      modifies this`experimentData
      ensures "escape" in keys ==> response == None && experimentData == old(experimentData)
      ensures "escape" !in keys ==>
                response == Some(Upper(keys[0]))
                && experimentData == old(experimentData)
                   + [Record(trial.trialId, trial.disparityDegrees, trial.columnDistance,
                             Upper(keys[0]), responseTime, timestamp)]
    {
      if "escape" in keys {
        return None;
      }
      var r := Upper(keys[0]);
      var trialRecord := Record(trial.trialId, trial.disparityDegrees, trial.columnDistance,
                                r, responseTime, timestamp);
      experimentData := experimentData + [trialRecord];
      response := Some(r);
    }
  }
}
