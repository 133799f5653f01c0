/** SmoothStreak/Reference/ReferenceStreak.py: every trial pairs one fixed
    reference condition, shown on the left, with a comparison condition,
    twice per condition found in the image folder. */
module ReferenceStreak {
  import opened Common
  import opened StimulusFiles

  /** `reference_image`, the left eye view of the reference condition. */
  const ReferenceImage: string := "theta_0_0_roughness_0_000_left_eye.png"

  /** `repetitions_per_comparison`. */
  const RepetitionsPerComparison: nat := 2

  type Trial = (Condition, Condition)

  /** `parse_reference_image`: the two groups of a left eye view's name,
      '.'-spelled; a name the pattern does not match at its start is a
      ValueError. */
  function ParseReferenceImage(name: string): (r: Result<Condition>)
    ensures r.Error? ==> r.failure == NameMismatch(name)
    ensures r.Success? ==> IsDecimal(r.value.0) && IsDecimal(r.value.1)
  {
    match MatchLeftEye(name)
    case None => Error(NameMismatch(name))
    case Some(groups) =>
      MatchLeftEyeSound(name);
      DottedRoundTrip(groups.0);
      DottedRoundTrip(groups.1);
      Success((Dotted(groups.0), Dotted(groups.1)))
  }

  /** A name parses exactly when it starts with the left eye file of two
      number groups, and then it parses to those groups. */
  lemma ParseReferenceExactly(name: string, t: string, r: string)
    requires IsNumberGroup(t) && IsNumberGroup(r)
    ensures StartsWith(name, EyeFileName(t, r, "left")) ==>
              ParseReferenceImage(name) == Success((Dotted(t), Dotted(r)))
    ensures ParseReferenceImage(name) == Success((Dotted(t), Dotted(r))) ==>
              StartsWith(name, EyeFileName(t, r, "left"))
  {
    var left := EyeFileName(t, r, "left");
    if StartsWith(name, left) {
      assert name == left + name[|left|..];
      MatchLeftEyeComplete(t, r, name[|left|..]);
    }
    if ParseReferenceImage(name) == Success((Dotted(t), Dotted(r))) {
      MatchLeftEyeSound(name);
      var groups := MatchLeftEye(name).value;
      DottedRoundTrip(groups.0);
      DottedRoundTrip(groups.1);
      DottedRoundTrip(t);
      DottedRoundTrip(r);
      assert groups == (t, r);
    }
  }

  /** A name that does not start with a left eye file is refused. */
  lemma ParseReferenceRefuses(name: string)
    requires forall t, r | IsNumberGroup(t) && IsNumberGroup(r) :: !StartsWith(name, EyeFileName(t, r, "left"))
    ensures ParseReferenceImage(name) == Error(NameMismatch(name))
  {
    if MatchLeftEye(name).Some? {
      MatchLeftEyeSound(name);
    }
  }

  /** The file `load_and_crop_image` loads for the left eye of a condition
      parses back to that condition. */
  lemma LoadedNameRoundTrip(theta: string, roughness: string, cropSide: string, size: (real, real))
    requires IsDecimal(theta) && IsDecimal(roughness)
    ensures ParseReferenceImage(LoadAndCrop(theta, roughness, "left", cropSide, size).path[|ImageFolder| + 1..])
            == Success((theta, roughness))
  {
    var name := EyeFileName(Underscored(theta), Underscored(roughness), "left");
    assert ImagePath(name)[|ImageFolder| + 1..] == name;
    UnderscoredRoundTrip(theta);
    UnderscoredRoundTrip(roughness);
    DropPrefixOf(name, []);
    assert name + [] == name;
    ParseReferenceExactly(name, Underscored(theta), Underscored(roughness));
  }

  /** The reference the script ships with is angle 0.0, roughness 0.000. */
  lemma DefaultReference()
    ensures ParseReferenceImage(ReferenceImage) == Success(("0.0", "0.000"))
  {
    DefaultGroups();
    DefaultReferenceName();
    DropPrefixOf(ReferenceImage, []);
    assert ReferenceImage + [] == ReferenceImage;
    ParseReferenceExactly(ReferenceImage, "0_0", "0_000");
  }

  /** The `.`-spelled groups of the default reference, and their file
      spelling. */
  lemma DefaultGroups()
    ensures IsNumberGroup("0_0") && IsNumberGroup("0_000")
    ensures Dotted("0_0") == "0.0" && Dotted("0_000") == "0.000"
  {
    assert SplitsAt("0.0", 1, '.');
    assert SplitsAt("0.000", 1, '.');
    assert Underscored("0.0") == "0_0";
    assert Underscored("0.000") == "0_000";
    UnderscoredRoundTrip("0.0");
    UnderscoredRoundTrip("0.000");
  }

  lemma DefaultReferenceName()
    ensures ReferenceImage == EyeFileName("0_0", "0_000", "left")
  {
  }

  /** The trial list before the shuffle: the reference against each
      condition in turn, twice in a row. */
  function ReferenceTrials(reference: Condition, pairs: seq<Condition>): (r: seq<Trial>)
    ensures |r| == 2 * |pairs|
    ensures forall k | 0 <= k < |r| :: r[k] == (reference, pairs[k / 2])
  {
    if pairs == [] then []
    else
      var last := pairs[|pairs| - 1];
      ReferenceTrials(reference, pairs[..|pairs| - 1]) + [(reference, last), (reference, last)]
  }

  /** Every trial has the reference on the left, and each condition is the
      comparison of exactly two trials for each time it is listed. */
  lemma {:induction false} ReferenceTrialsCount(reference: Condition, pairs: seq<Condition>, t: Trial)
    ensures multiset(ReferenceTrials(reference, pairs))[t] ==
            if t.0 == reference then 2 * multiset(pairs)[t.1] else 0
    decreases |pairs|
  {
    if pairs != [] {
      var init, last := pairs[..|pairs| - 1], pairs[|pairs| - 1];
      assert pairs == init + [last];
      ReferenceTrialsCount(reference, init, t);
    }
  }

  /** The conditions of a folder that exists. */
  function Found(folder: Option<seq<string>>): set<Condition>
    requires folder.Some?
  {
    ImagePairs(folder.value, folder.value)
  }

  /** The trials of a successful `create_trial_list`, as a multiset: the
      reference against every found condition, twice each. */
  ghost predicate TrialsAgainst(trials: seq<Trial>, reference: Condition, found: set<Condition>) {
    && (forall k | 0 <= k < |trials| :: trials[k].0 == reference)
    && (forall c :: multiset(trials)[(reference, c)] == if c in found then 2 else 0)
  }

  /** `create_trial_list`. `reference` is `reference_image` (`None` takes
      the first condition found), and `drawsFor(n)` the draws the shuffle
      of a list of n trials makes.
      - no folder: FileNotFoundError; no condition: ValueError;
      - a reference that does not parse, that is not a found condition, or
        whose left eye file is not listed: the matching error;
      - otherwise 2 trials per found condition, all against the reference,
        shuffled. */
  method CreateTrialList(folder: Option<seq<string>>, reference: Option<string>, drawsFor: nat -> seq<nat>)
    returns (r: Result<(seq<Trial>, Condition)>)
    requires forall n :: ShuffleDraws(n, drawsFor(n))
    ensures folder.None? ==> r == Error(FolderMissing)
    ensures folder.Some? && Found(folder) == {} ==> r == Error(NoImagePairs)
    ensures folder.Some? && Found(folder) != {} && reference.Some? ==>
              match ParseReferenceImage(reference.value)
              case Error(f) => r == Error(f)
              case Success(c) =>
                if c !in Found(folder) then r == Error(ReferenceNotPaired(c))
                else if reference.value !in folder.value then r == Error(FileMissing(ImagePath(reference.value)))
                else r.Success? && r.value.1 == c
    ensures folder.Some? && Found(folder) != {} && reference.None? ==> r.Success? && r.value.1 in Found(folder)
    ensures r.Success? ==>
              && folder.Some?
              && |r.value.0| == 2 * |Found(folder)|
              && TrialsAgainst(r.value.0, r.value.1, Found(folder))
  {
    var scanned := GetImagePairs(folder);
    if scanned.Error? {
      return Error(scanned.failure);
    }
    var pairs := scanned.value;
    var listing := folder.value;
    assert Distinct(pairs) && forall c :: c in pairs <==> c in Found(folder);
    if |pairs| == 0 {
      assert forall c :: c !in Found(folder);
      return Error(NoImagePairs);
    }
    assert pairs[0] in Found(folder);
    var ref: Condition;
    if reference.Some? {
      var parsed := ParseReferenceImage(reference.value);
      if parsed.Error? {
        return Error(parsed.failure);
      }
      ref := parsed.value;
      if ref !in pairs {
        return Error(ReferenceNotPaired(ref));
      }
      if reference.value !in listing {
        return Error(FileMissing(ImagePath(reference.value)));
      }
      // The right eye check of the script always passes: the scan found
      // the reference through that very file.
      FoundHasBothViews(listing, ref);
      assert EyeFileName(Underscored(ref.0), Underscored(ref.1), "right") in listing;
    } else {
      ref := pairs[0];
    }
    var trials := AppendTrials(ref, pairs);
    var shuffled := Shuffle(trials, drawsFor(|trials|));
    ShuffledTrials(shuffled, ref, pairs, Found(folder));
    r := Success((shuffled, ref));
  }

  /** The nested append loop of `create_trial_list`, before the shuffle. */
  method AppendTrials(ref: Condition, pairs: seq<Condition>) returns (trials: seq<Trial>)
    ensures trials == ReferenceTrials(ref, pairs)
  {
    trials := [];
    for n := 0 to |pairs|
      invariant trials == ReferenceTrials(ref, pairs[..n])
    {
      for rep := 0 to RepetitionsPerComparison
        invariant trials == ReferenceTrials(ref, pairs[..n]) + seq(rep, _ => (ref, pairs[n]))
      {
        trials := trials + [(ref, pairs[n])];
      }
      assert pairs[..n + 1][..n] == pairs[..n];
    }
    assert pairs[..|pairs|] == pairs;
  }

  /** A rearrangement of the trial list keeps its length and its trials. */
  lemma ShuffledTrials(shuffled: seq<Trial>, reference: Condition, pairs: seq<Condition>, found: set<Condition>)
    requires Distinct(pairs) && forall c :: c in pairs <==> c in found
    requires multiset(shuffled) == multiset(ReferenceTrials(reference, pairs))
    ensures |shuffled| == 2 * |found|
    ensures TrialsAgainst(shuffled, reference, found)
  {
    var trials := ReferenceTrials(reference, pairs);
    assert |shuffled| == |multiset(shuffled)| == |trials|;
    DistinctCardinality(pairs, found);
    forall k | 0 <= k < |shuffled|
      ensures shuffled[k].0 == reference
    {
      assert shuffled[k] in multiset(trials);
      ReferenceTrialsCount(reference, pairs, shuffled[k]);
    }
    forall c
      ensures multiset(shuffled)[(reference, c)] == if c in found then 2 else 0
    {
      ReferenceTrialsCount(reference, pairs, (reference, c));
      DistinctCount(pairs, c);
    }
  }
}
