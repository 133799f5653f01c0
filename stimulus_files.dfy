/** The stereo image files the three FinalExperiments scripts share: the
    name of one rendered eye view, the pattern their `get_image_pairs` and
    `parse_reference_image` match, the '.' / '_' spelling of a condition,
    and the scan of a folder listing for conditions whose two eye views
    are both present. */
module StimulusFiles {
  import opened Common

  // ---------------------------------------------------------------
  // Characters and the number groups of a file name
  // ---------------------------------------------------------------

  predicate IsDigit(c: char) {
    '0' <= c <= '9'
  }

  predicate AllDigits(s: string) {
    forall k | 0 <= k < |s| :: IsDigit(s[k])
  }

  /** `s[..a]` is a run of one or more digits, `s[a]` is the underscore
      and the rest one or more digits. */
  predicate SplitsAt(s: string, a: int, sep: char)
    requires 0 <= a < |s|
  {
    AllDigits(s[..a]) && s[a] == sep && AllDigits(s[a + 1..])
  }

  /** What `\d+_\d+` matches when the next character is not a digit:
      digits, one underscore, digits. A file name spells angle and
      roughness this way ("0_000"). */
  predicate IsNumberGroup(g: string) {
    exists a | 0 < a < |g| - 1 :: SplitsAt(g, a, '_')
  }

  /** A condition as the scripts print and store it ("0.000"). */
  predicate IsDecimal(t: string) {
    exists a | 0 < a < |t| - 1 :: SplitsAt(t, a, '.')
  }

  /** The number of digits `s` starts with. */
  function LeadingDigits(s: string): (n: nat)
    ensures n <= |s| && AllDigits(s[..n])
    ensures n < |s| ==> !IsDigit(s[n])
  {
    if s == [] || !IsDigit(s[0]) then 0
    else
      var n := 1 + LeadingDigits(s[1..]);
      assert s[..n] == [s[0]] + s[1..][..n - 1];
      n
  }

  lemma {:induction false} LeadingDigitsOf(x: string, rest: string)
    requires AllDigits(x)
    requires rest == [] || !IsDigit(rest[0])
    ensures LeadingDigits(x + rest) == |x|
    decreases |x|
  {
    if x == [] {
      assert x + rest == rest;
    } else {
      assert (x + rest)[1..] == x[1..] + rest;
      LeadingDigitsOf(x[1..], rest);
    }
  }

  /** The length of the `\d+_\d+` group `s` starts with, 0 if there is none.
      A digit run is always taken whole: the character that follows the
      group in the pattern is an underscore, which no digit is. */
  function GroupLength(s: string): (n: nat)
    ensures n <= |s|
  {
    var a := LeadingDigits(s);
    if 0 < a < |s| && s[a] == '_' && LeadingDigits(s[a + 1..]) > 0
    then a + 1 + LeadingDigits(s[a + 1..])
    else 0
  }

  /** A group found by `GroupLength` is a number group, and it stops where
      the digits stop. */
  lemma GroupLengthSound(s: string)
    requires GroupLength(s) > 0
    ensures IsNumberGroup(s[..GroupLength(s)])
    ensures GroupLength(s) < |s| ==> !IsDigit(s[GroupLength(s)])
  {
    var a := LeadingDigits(s);
    var b := LeadingDigits(s[a + 1..]);
    var g := s[..a + 1 + b];
    assert g[..a] == s[..a];
    assert g[a + 1..] == s[a + 1..][..b];
    assert SplitsAt(g, a, '_');
    if a + 1 + b < |s| {
      assert s[a + 1 + b] == s[a + 1..][b];
    }
  }

  /** A number group followed by anything but a digit is found whole. */
  lemma GroupLengthComplete(g: string, rest: string)
    requires IsNumberGroup(g)
    requires rest == [] || !IsDigit(rest[0])
    ensures GroupLength(g + rest) == |g|
  {
    var a :| 0 < a < |g| - 1 && SplitsAt(g, a, '_');
    ConcatAt(g, rest, a);
    LeadingDigitsOf(g[..a], g[a..] + rest);
    LeadingDigitsOf(g[a + 1..], rest);
  }

  /** How a concatenation looks on either side of position a of its first part. */
  lemma ConcatAt<T>(g: seq<T>, rest: seq<T>, a: nat)
    requires a < |g|
    ensures g + rest == g[..a] + (g[a..] + rest)
    ensures (g + rest)[a] == (g[a..] + rest)[0] == g[a]
    ensures (g + rest)[a + 1..] == g[a + 1..] + rest
  {
    assert g[..a] + g[a..] == g;
  }

  // ---------------------------------------------------------------
  // File names
  // ---------------------------------------------------------------

  predicate StartsWith(s: string, p: string) {
    |p| <= |s| && s[..|p|] == p
  }

  /** What is left of `s` after the prefix `p`, if `s` starts with it. */
  function DropPrefix(s: string, p: string): (r: Option<string>)
    ensures r.Some? <==> StartsWith(s, p)
    ensures r.Some? ==> s == p + r.value
  {
    if StartsWith(s, p) then
      assert s == s[..|p|] + s[|p|..];
      Some(s[|p|..])
    else None
  }

  lemma DropPrefixOf(p: string, rest: string)
    ensures DropPrefix(p + rest, p) == Some(rest)
  {
    assert (p + rest)[..|p|] == p;
    assert (p + rest)[|p|..] == rest;
  }

  lemma SplitAt(s: string, n: nat)
    requires n <= |s|
    ensures s == s[..n] + s[n..]
  {
  }

  lemma Regroup(a: string, b: string, c: string, d: string, e: string, f: string)
    ensures a + (b + (c + ((d + e) + f))) == (a + (b + (c + (d + e)))) + f
  {
    assert (d + e) + f == d + (e + f);
    assert c + (d + (e + f)) == (c + (d + e)) + f;
    assert b + ((c + (d + e)) + f) == (b + (c + (d + e))) + f;
  }

  /** `_<eye>_eye.png`, how an eye view's name ends. */
  function EyeTail(eye: string): string {
    "_" + eye + "_eye.png"
  }

  /** `theta_<angle>_roughness_<roughness>_<eye>_eye.png`, the name of one
      eye view. */
  function EyeFileName(theta: string, roughness: string, eye: string): string {
    "theta_" + (theta + ("_roughness_" + (roughness + EyeTail(eye))))
  }

  /** The second group and the end of the pattern, after `_roughness_`. */
  function MatchRoughness(s: string): Option<string> {
    var g := GroupLength(s);
    if g == 0 then None
    else match DropPrefix(s[g..], EyeTail("left"))
      case None => None
      case Some(_) => Some(s[..g])
  }

  /** `re.match` of `theta_(\d+_\d+)_roughness_(\d+_\d+)_left_eye\.png`:
      the pattern must match at the start of the name, and anything may
      follow it. The result is the two groups as written in the name. */
  function MatchLeftEye(name: string): Option<(string, string)> {
    match DropPrefix(name, "theta_")
    case None => None
    case Some(s1) =>
      var g := GroupLength(s1);
      if g == 0 then None
      else match DropPrefix(s1[g..], "_roughness_")
        case None => None
        case Some(s2) =>
          match MatchRoughness(s2)
          case None => None
          case Some(r) => Some((s1[..g], r))
  }

  /** A group followed by the end of the pattern. */
  lemma MatchRoughnessSound(s: string)
    requires MatchRoughness(s).Some?
    ensures IsNumberGroup(MatchRoughness(s).value)
    ensures StartsWith(s, MatchRoughness(s).value + EyeTail("left"))
  {
    var g := GroupLength(s);
    GroupLengthSound(s);
    var rest := DropPrefix(s[g..], EyeTail("left")).value;
    assert s == s[..g] + s[g..];
    assert s == (s[..g] + EyeTail("left")) + rest;
    DropPrefixOf(s[..g] + EyeTail("left"), rest);
  }

  lemma MatchRoughnessComplete(r: string, rest: string)
    requires IsNumberGroup(r)
    ensures MatchRoughness(r + (EyeTail("left") + rest)) == Some(r)
  {
    var s := r + (EyeTail("left") + rest);
    assert EyeTail("left")[0] == '_';
    GroupLengthComplete(r, EyeTail("left") + rest);
    assert s[|r|..] == EyeTail("left") + rest;
    DropPrefixOf(EyeTail("left"), rest);
    assert s[..|r|] == r;
  }

  /** A match names two number groups, and the name starts with the left
      eye file of those groups. */
  lemma MatchLeftEyeSound(name: string)
    requires MatchLeftEye(name).Some?
    ensures IsNumberGroup(MatchLeftEye(name).value.0)
    ensures IsNumberGroup(MatchLeftEye(name).value.1)
    ensures StartsWith(name, EyeFileName(MatchLeftEye(name).value.0, MatchLeftEye(name).value.1, "left"))
  {
    var s1 := DropPrefix(name, "theta_").value;
    var g := GroupLength(s1);
    var t := s1[..g];
    var s2 := DropPrefix(s1[g..], "_roughness_").value;
    MatchRoughnessSound(s2);
    var r := MatchRoughness(s2).value;
    var rest := DropPrefix(s2, r + EyeTail("left")).value;
    assert IsNumberGroup(t) by {
      GroupLengthSound(s1);
    }
    assert s1 == t + ("_roughness_" + s2) by {
      SplitAt(s1, g);
    }
    assert MatchLeftEye(name) == Some((t, r));
    assert name == EyeFileName(t, r, "left") + rest by {
      assert name == "theta_" + (t + ("_roughness_" + ((r + EyeTail("left")) + rest)));
      Regroup("theta_", t, "_roughness_", r, EyeTail("left"), rest);
    }
    assert StartsWith(name, EyeFileName(t, r, "left")) by {
      DropPrefixOf(EyeFileName(t, r, "left"), rest);
    }
  }

  /** Every name that starts with the left eye file of two number groups
      matches, with exactly those groups. */
  lemma MatchLeftEyeComplete(t: string, r: string, rest: string)
    requires IsNumberGroup(t) && IsNumberGroup(r)
    ensures MatchLeftEye(EyeFileName(t, r, "left") + rest) == Some((t, r))
  {
    var tail2 := r + (EyeTail("left") + rest);
    var tail1 := "_roughness_" + tail2;
    var s1 := t + tail1;
    assert EyeFileName(t, r, "left") + rest == "theta_" + s1;
    DropPrefixOf("theta_", s1);
    assert tail1[0] == '_';
    GroupLengthComplete(t, tail1);
    assert s1[|t|..] == tail1 && s1[..|t|] == t;
    DropPrefixOf("_roughness_", tail2);
    MatchRoughnessComplete(r, rest);
  }

  // ---------------------------------------------------------------
  // The '.' and '_' spellings of a condition
  // ---------------------------------------------------------------

  /** `str.replace` of one character by another. */
  function Replace(s: string, a: char, b: char): (r: string)
    ensures |r| == |s|
  {
    seq(|s|, k requires 0 <= k < |s| => if s[k] == a then b else s[k])
  }

  /** `theta_str.replace('_', '.')`: the spelling a condition is kept in. */
  function Dotted(g: string): string {
    Replace(g, '_', '.')
  }

  /** `theta_str.replace('.', '_')`: the spelling of a file name. */
  function Underscored(t: string): string {
    Replace(t, '.', '_')
  }

  /** Turning the group of a file name into a condition and back gives the
      group again, and the condition is a decimal. */
  lemma DottedRoundTrip(g: string)
    requires IsNumberGroup(g)
    ensures Underscored(Dotted(g)) == g
    ensures IsDecimal(Dotted(g))
  {
    var a :| 0 < a < |g| - 1 && SplitsAt(g, a, '_');
    var d := Dotted(g);
    assert forall k | 0 <= k < a :: g[k] == g[..a][k];
    assert forall k | a < k < |g| :: g[k] == g[a + 1..][k - a - 1];
    assert d[..a] == g[..a];
    assert d[a + 1..] == g[a + 1..];
    assert SplitsAt(d, a, '.');
  }

  /** A decimal written into a file name is a number group that reads back
      as the same decimal. */
  lemma UnderscoredRoundTrip(t: string)
    requires IsDecimal(t)
    ensures Dotted(Underscored(t)) == t
    ensures IsNumberGroup(Underscored(t))
  {
    var a :| 0 < a < |t| - 1 && SplitsAt(t, a, '.');
    var u := Underscored(t);
    assert forall k | 0 <= k < a :: t[k] == t[..a][k];
    assert forall k | a < k < |t| :: t[k] == t[a + 1..][k - a - 1];
    assert u[..a] == t[..a];
    assert u[a + 1..] == t[a + 1..];
    assert SplitsAt(u, a, '_');
  }

  // ---------------------------------------------------------------
  // get_image_pairs
  // ---------------------------------------------------------------

  /** A stimulus condition: angle and roughness, '.'-spelled. */
  type Condition = (string, string)

  datatype Failure =
    | FolderMissing                    // FileNotFoundError: no image folder
    | NoImagePairs                     // ValueError: no condition has both eye views
    | NameMismatch(name: string)       // ValueError: the reference name does not match
    | ReferenceNotPaired(c: Condition) // ValueError: the reference is not a found condition
    | FileMissing(path: string)        // FileNotFoundError: a reference eye view is absent

  datatype Result<T> = Success(value: T) | Error(failure: Failure)

  /** `name` is a left eye view whose right eye view is also listed. */
  predicate HasRightEye(name: string, listing: seq<string>) {
    match MatchLeftEye(name)
    case None => false
    case Some(groups) => EyeFileName(groups.0, groups.1, "right") in listing
  }

  /** The condition a matched left eye view stands for. */
  function ConditionOf(name: string): Condition
    requires MatchLeftEye(name).Some?
  {
    var groups := MatchLeftEye(name).value;
    (Dotted(groups.0), Dotted(groups.1))
  }

  /** The conditions `get_image_pairs` collects from the names `names`,
      each checked for its right eye view in the whole `listing`. */
  function ImagePairs(names: seq<string>, listing: seq<string>): set<Condition> {
    set name | name in names && HasRightEye(name, listing) :: ConditionOf(name)
  }

  /** One more name scanned adds its condition when it has both views. */
  lemma ImagePairsStep(names: seq<string>, name: string, listing: seq<string>)
    ensures ImagePairs(names + [name], listing) ==
            ImagePairs(names, listing) + (if HasRightEye(name, listing) then {ConditionOf(name)} else {})
  {
    var more := names + [name];
    forall n | n in more
      ensures n in names || n == name
    {
    }
  }

  predicate Distinct<T(==)>(s: seq<T>) {
    forall i, j | 0 <= i < j < |s| :: s[i] != s[j]
  }

  /** `get_image_pairs` over the folder's listing (`None` when the folder
      does not exist): the conditions with both eye views, each once, in
      the arbitrary order in which `list` takes them out of the set. */
  method GetImagePairs(folder: Option<seq<string>>) returns (r: Result<seq<Condition>>)
    ensures folder.None? ==> r == Error(FolderMissing)
    ensures folder.Some? ==> r.Success?
    ensures folder.Some? ==>
              && Distinct(r.value)
              && forall c :: c in r.value <==> c in ImagePairs(folder.value, folder.value)
  {
    if folder.None? {
      return Error(FolderMissing);
    }
    var listing := folder.value;
    var found: set<Condition> := {};
    for i := 0 to |listing|
      invariant found == ImagePairs(listing[..i], listing)
    {
      var name := listing[i];
      assert listing[..i + 1] == listing[..i] + [name];
      ImagePairsStep(listing[..i], name, listing);
      if HasRightEye(name, listing) {
        found := found + {ConditionOf(name)};
      }
    }
    assert listing[..|listing|] == listing;
    var pairs := ListOf(found);
    r := Success(pairs);
  }

  /** `list(s)`: every element of the set once, in some order. */
  method ListOf<T>(s: set<T>) returns (r: seq<T>)
    ensures Distinct(r)
    ensures forall x :: x in r <==> x in s
  {
    r := [];
    var rest := s;
    while rest != {}
      invariant rest <= s
      invariant Distinct(r)
      invariant forall x :: x in r <==> x in s && x !in rest
      decreases |rest|
    {
      if forall e :: e !in rest {
        assert false;
      }
      var x :| x in rest;
      r := r + [x];
      rest := rest - {x};
    }
  }

  /** A condition is found exactly when the listing holds a name that
      starts with its left eye file and holds its right eye file; the
      names are spelled with `Underscored`. */
  lemma ImagePairsExactly(listing: seq<string>, c: Condition)
    requires IsDecimal(c.0) && IsDecimal(c.1)
    ensures c in ImagePairs(listing, listing) <==>
              && EyeFileName(Underscored(c.0), Underscored(c.1), "right") in listing
              && exists name | name in listing :: StartsWith(name, EyeFileName(Underscored(c.0), Underscored(c.1), "left"))
  {
    if c in ImagePairs(listing, listing) {
      FoundHasBothViews(listing, c);
    }
    if && EyeFileName(Underscored(c.0), Underscored(c.1), "right") in listing
       && exists name | name in listing :: StartsWith(name, EyeFileName(Underscored(c.0), Underscored(c.1), "left"))
    {
      var name :| name in listing && StartsWith(name, EyeFileName(Underscored(c.0), Underscored(c.1), "left"));
      BothViewsFound(listing, c, name);
    }
  }

  lemma FoundHasBothViews(listing: seq<string>, c: Condition)
    requires c in ImagePairs(listing, listing)
    ensures EyeFileName(Underscored(c.0), Underscored(c.1), "right") in listing
    ensures exists name | name in listing :: StartsWith(name, EyeFileName(Underscored(c.0), Underscored(c.1), "left"))
  {
    var name :| name in listing && HasRightEye(name, listing) && ConditionOf(name) == c;
    MatchLeftEyeSound(name);
    var groups := MatchLeftEye(name).value;
    DottedRoundTrip(groups.0);
    DottedRoundTrip(groups.1);
    assert (Underscored(c.0), Underscored(c.1)) == groups;
  }

  lemma BothViewsFound(listing: seq<string>, c: Condition, name: string)
    requires IsDecimal(c.0) && IsDecimal(c.1)
    requires EyeFileName(Underscored(c.0), Underscored(c.1), "right") in listing
    requires name in listing && StartsWith(name, EyeFileName(Underscored(c.0), Underscored(c.1), "left"))
    ensures c in ImagePairs(listing, listing)
  {
    var t, r := Underscored(c.0), Underscored(c.1);
    UnderscoredRoundTrip(c.0);
    UnderscoredRoundTrip(c.1);
    var left := EyeFileName(t, r, "left");
    assert name == left + name[|left|..];
    MatchLeftEyeComplete(t, r, name[|left|..]);
    assert HasRightEye(name, listing);
    assert ConditionOf(name) == c;
  }

  /** Every condition found is a pair of decimals. */
  lemma ImagePairsDecimal(listing: seq<string>, c: Condition)
    requires c in ImagePairs(listing, listing)
    ensures IsDecimal(c.0) && IsDecimal(c.1)
  {
    var name :| name in listing && HasRightEye(name, listing) && ConditionOf(name) == c;
    MatchLeftEyeSound(name);
    DottedRoundTrip(MatchLeftEye(name).value.0);
    DottedRoundTrip(MatchLeftEye(name).value.1);
  }

  // ---------------------------------------------------------------
  // Counting in lists of distinct elements
  // ---------------------------------------------------------------

  /** In a list without repeats every element occurs once. */
  lemma {:induction false} DistinctCount<T>(s: seq<T>, x: T)
    requires Distinct(s)
    ensures multiset(s)[x] == if x in s then 1 else 0
    decreases |s|
  {
    if s != [] {
      var init := s[..|s| - 1];
      assert s == init + [s[|s| - 1]];
      assert Distinct(init);
      DistinctCount(init, x);
      if x == s[|s| - 1] {
        assert x !in init;
      }
    }
  }

  /** A list without repeats is as long as the set of its elements. */
  lemma {:induction false} DistinctCardinality<T>(s: seq<T>, elements: set<T>)
    requires Distinct(s)
    requires forall x :: x in s <==> x in elements
    ensures |elements| == |s|
    decreases |s|
  {
    if s != [] {
      var init, last := s[..|s| - 1], s[|s| - 1];
      assert s == init + [last];
      assert Distinct(init);
      assert last !in init;
      DistinctCardinality(init, elements - {last});
    } else {
      assert elements == {};
    }
  }

  // ---------------------------------------------------------------
  // load_and_crop_image, as in the two side-by-side scripts
  // ---------------------------------------------------------------

  const WindowWidth: real := 740.0
  const ImageFolder: string := "StreakImages"

  /** `os.path.join(image_folder, name)`. */
  function ImagePath(name: string): string {
    ImageFolder + "/" + name
  }

  datatype Placement = Placement(path: string, width: real, height: real, x: real)

  /** The path of one eye view of a '.'-spelled condition, the size and
      the horizontal position it is shown at. `size` is the size the image
      loads with. */
  function LoadAndCrop(theta: string, roughness: string, eye: string, cropSide: string,
                       size: (real, real)): (p: Placement)
    ensures p.path == ImagePath(EyeFileName(Underscored(theta), Underscored(roughness), eye))
    ensures p.width == size.0 && p.height == size.1
    ensures cropSide == "left" ==> p.x == -185.0
    ensures cropSide != "left" ==> p.x == 185.0
  {
    var name := EyeFileName(Underscored(theta), Underscored(roughness), eye);
    if cropSide == "left" then Placement(ImagePath(name), size.0, size.1, -WindowWidth / 4.0)
    else Placement(ImagePath(name), size.0, size.1, WindowWidth / 4.0)
  }

  /** The right eye view loaded for a found condition is a listed file:
      the scan checked that very name. */
  lemma LoadsListedImage(listing: seq<string>, c: Condition, cropSide: string, size: (real, real))
    requires c in ImagePairs(listing, listing)
    ensures LoadAndCrop(c.0, c.1, "right", cropSide, size).path[|ImageFolder| + 1..] in listing
  {
    ImagePairsDecimal(listing, c);
    ImagePairsExactly(listing, c);
  }
}
