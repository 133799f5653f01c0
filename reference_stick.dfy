/** RoughStreak/ReferenceStick.py: a white reference stick is drawn on the
    left of both eye windows, tilted by half the reference angle one way
    for the left eye and the other way for the right, beside the two eye
    views of a streak condition. */
module ReferenceStick {
  import opened Common
  import opened StimulusFiles

  const StickLength: real := 300.0

  /** `reference_theta`, in degrees. */
  const ReferenceTheta: real := 2.0

  const RepetitionsPerComparison: nat := 2

  datatype Point = Point(x: real, y: real)

  datatype Stick = Stick(start: Point, end: Point)

  function Midpoint(s: Stick): Point {
    Point((s.start.x + s.end.x) / 2.0, (s.start.y + s.end.y) / 2.0)
  }

  /** `create_stick_coords`: a stick of the given length through
      (center_x, center_y - 150), leaning `angle` degrees from the
      vertical. `sinDeg` and `cosDeg` are `np.sin(np.radians(a))` and
      `np.cos(np.radians(a))`. */
  function StickCoords(cx: real, cy: real, angle: real, length: real,
                       sinDeg: real -> real, cosDeg: real -> real): (s: Stick)
    ensures Midpoint(s) == Point(cx, cy - 150.0)
    ensures s.end.x - Midpoint(s).x == Midpoint(s).x - s.start.x
    ensures s.end.y - Midpoint(s).y == Midpoint(s).y - s.start.y
    ensures s.end.x - s.start.x == length * sinDeg(angle)
    ensures s.end.y - s.start.y == length * cosDeg(angle)
  {
    var half := length / 2.0;
    var y := cy - 150.0;
    Stick(Point(cx - half * sinDeg(angle), y - half * cosDeg(angle)),
          Point(cx + half * sinDeg(angle), y + half * cosDeg(angle)))
  }

  /** With sin and cos squared summing to one, the stick is exactly as
      long as asked. */
  lemma StickLengthIs(cx: real, cy: real, angle: real, length: real,
                      sinDeg: real -> real, cosDeg: real -> real)
    requires sinDeg(angle) * sinDeg(angle) + cosDeg(angle) * cosDeg(angle) == 1.0
    ensures var s := StickCoords(cx, cy, angle, length, sinDeg, cosDeg);
            (s.end.x - s.start.x) * (s.end.x - s.start.x) + (s.end.y - s.start.y) * (s.end.y - s.start.y)
            == length * length
  {
    var s, c := sinDeg(angle), cosDeg(angle);
    calc {
      (length * s) * (length * s) + (length * c) * (length * c);
      length * length * (s * s + c * c);
    }
  }

  /** `create_reference_stick`: the left window's stick leans by -theta/2,
      the right window's by theta/2, both around x = -window_width/4. */
  function ReferenceSticks(theta: real, sinDeg: real -> real, cosDeg: real -> real): (sticks: (Stick, Stick))
    ensures Midpoint(sticks.0) == Point(-185.0, -150.0)
    ensures Midpoint(sticks.1) == Point(-185.0, -150.0)
    ensures sticks.0.end.x - sticks.0.start.x == StickLength * sinDeg(-theta / 2.0)
    ensures sticks.1.end.x - sticks.1.start.x == StickLength * sinDeg(theta / 2.0)
    ensures sticks.0.end.y - sticks.0.start.y == StickLength * cosDeg(-theta / 2.0)
    ensures sticks.1.end.y - sticks.1.start.y == StickLength * cosDeg(theta / 2.0)
  {
    var centreX := -WindowWidth / 4.0;
    (StickCoords(centreX, 0.0, -theta / 2.0, StickLength, sinDeg, cosDeg),
     StickCoords(centreX, 0.0, theta / 2.0, StickLength, sinDeg, cosDeg))
  }

  /** With an odd sine and an even cosine the right eye's stick is the
      left eye's mirrored in the vertical line x = -185: the two eyes see
      the same stick tilted apart by theta. */
  lemma ReferenceSticksMirror(theta: real, sinDeg: real -> real, cosDeg: real -> real)
    requires sinDeg(-theta / 2.0) == -sinDeg(theta / 2.0)
    requires cosDeg(-theta / 2.0) == cosDeg(theta / 2.0)
    ensures var (left, right) := ReferenceSticks(theta, sinDeg, cosDeg);
            && left.start.x + 185.0 == -(right.start.x + 185.0)
            && left.end.x + 185.0 == -(right.end.x + 185.0)
            && left.start.y == right.start.y
            && left.end.y == right.end.y
  {
    var h := StickLength / 2.0;
    var s := sinDeg(theta / 2.0);
    assert h * sinDeg(-theta / 2.0) == -(h * s);
  }

  /** `load_and_crop_image`: half the image's width, its full height, and
      always at x = window_width/4, whatever side is asked for. */
  function LoadBesideStick(theta: string, roughness: string, eye: string, cropSide: string,
                           size: (real, real)): (p: Placement)
    ensures p.path == ImagePath(EyeFileName(Underscored(theta), Underscored(roughness), eye))
    ensures p.width == size.0 / 2.0 && p.height == size.1
    ensures p.x == 185.0
  {
    var name := EyeFileName(Underscored(theta), Underscored(roughness), eye);
    Placement(ImagePath(name), size.0 / 2.0, size.1, WindowWidth / 4.0)
  }

  /** The trial list before the shuffle: each condition twice in a row. */
  function Doubled(pairs: seq<Condition>): (r: seq<Condition>)
    ensures |r| == 2 * |pairs|
    ensures forall k | 0 <= k < |r| :: r[k] == pairs[k / 2]
  {
    if pairs == [] then []
    else
      var last := pairs[|pairs| - 1];
      Doubled(pairs[..|pairs| - 1]) + [last, last]
  }

  lemma {:induction false} DoubledCount(pairs: seq<Condition>, c: Condition)
    ensures multiset(Doubled(pairs))[c] == 2 * multiset(pairs)[c]
    decreases |pairs|
  {
    if pairs != [] {
      var init, last := pairs[..|pairs| - 1], pairs[|pairs| - 1];
      assert pairs == init + [last];
      DoubledCount(init, c);
    }
  }

  /** The append loop of `create_trial_list`. */
  method AppendTrials(pairs: seq<Condition>) returns (trials: seq<Condition>)
    ensures trials == Doubled(pairs)
  {
    trials := [];
    for n := 0 to |pairs|
      invariant trials == Doubled(pairs[..n])
    {
      for rep := 0 to RepetitionsPerComparison
        invariant trials == Doubled(pairs[..n]) + seq(rep, _ => pairs[n])
      {
        trials := trials + [pairs[n]];
      }
      assert pairs[..n + 1][..n] == pairs[..n];
    }
    assert pairs[..|pairs|] == pairs;
  }

  /** `create_trial_list`: an error without a folder or without a
      condition; otherwise every found condition twice, shuffled with the
      draws `drawsFor(n)` a list of n trials takes. */
  method CreateTrialList(folder: Option<seq<string>>, drawsFor: nat -> seq<nat>)
    returns (r: Result<seq<Condition>>)
    requires forall n :: ShuffleDraws(n, drawsFor(n))
    ensures folder.None? ==> r == Error(FolderMissing)
    ensures folder.Some? && ImagePairs(folder.value, folder.value) == {} ==> r == Error(NoImagePairs)
    ensures folder.Some? && ImagePairs(folder.value, folder.value) != {} ==> r.Success?
    ensures r.Success? ==>
              && folder.Some?
              && |r.value| == 2 * |ImagePairs(folder.value, folder.value)|
              && forall c :: multiset(r.value)[c] == if c in ImagePairs(folder.value, folder.value) then 2 else 0
  {
    var scanned := GetImagePairs(folder);
    if scanned.Error? {
      return Error(scanned.failure);
    }
    var pairs := scanned.value;
    ghost var found := ImagePairs(folder.value, folder.value);
    if |pairs| == 0 {
      assert forall c :: c !in found;
      return Error(NoImagePairs);
    }
    var trials := AppendTrials(pairs);
    var shuffled := Shuffle(trials, drawsFor(|trials|));
    DistinctCardinality(pairs, found);
    forall c
      ensures multiset(shuffled)[c] == if c in found then 2 else 0
    {
      DoubledCount(pairs, c);
      DistinctCount(pairs, c);
    }
    r := Success(shuffled);
  }
}
