/** Values and helpers shared by every scene and experiment script:
    3D points, the random draws the scripts consume, Python's numeric
    built-ins that the scripts rely on (ceil, round, float modulo) and
    Python's in-place list shuffle. */
module Common {

  datatype Option<T> = None | Some(value: T)

  /** A point or a direction in world space, with exact coordinates. */
  datatype Vec3 = Vec3(x: real, y: real, z: real)

  function Add(a: Vec3, b: Vec3): Vec3 {
    Vec3(a.x + b.x, a.y + b.y, a.z + b.z)
  }

  function Scale(k: real, a: Vec3): Vec3 {
    Vec3(k * a.x, k * a.y, k * a.z)
  }

  /** The upward normal (0, 1, 0) every floor vertex carries. */
  const Up := Vec3(0.0, 1.0, 0.0)

  /** Six copies of v: one per vertex of a quad drawn as two triangles. */
  function Six(v: Vec3): seq<Vec3> {
    [v, v, v, v, v, v]
  }

  function Max(a: real, b: real): real {
    if a >= b then a else b
  }

  function Min(a: real, b: real): real {
    if a <= b then a else b
  }

  /** What the model assumes of the square root the scripts take (`** 0.5`):
      it is positive on positive arguments. */
  ghost predicate SqrtPositive(sqrt: real -> real) {
    forall x :: x > 0.0 ==> sqrt(x) > 0.0
  }

  lemma SquarePlusOne(a: real, b: real)
    ensures a * a + 1.0 + b * b > 0.0
  {
    assert a * a >= 0.0 && b * b >= 0.0;
  }

  /** A value `random.random()` can return. */
  type Unit = r: real | 0.0 <= r < 1.0

  /** `random.uniform(a, b)` computed from one `random.random()` draw, by
      Python's formula a + (b - a) * u; it accepts a > b as well. */
  function Uniform(a: real, b: real, u: Unit): (r: real)
    ensures Min(a, b) <= r <= Max(a, b)
    ensures a < b ==> r < b
  {
    var w := b - a;
    var p := w * u;
    ProductBelow(w, u, p);
    a + p
  }

  lemma ProductBelow(w: real, u: Unit, p: real)
    requires p == w * u
    ensures w >= 0.0 ==> 0.0 <= p <= w
    ensures w > 0.0 ==> p < w
    ensures w < 0.0 ==> w <= p <= 0.0
    decreases if w < 0.0 then 1 else 0
  {
    if w < 0.0 {
      var q := (-w) * u;
      ProductBelow(-w, u, q);
      assert q == -p;
    } else {
      var c := 1.0 - u;
      var r := w * c;
      assert r >= 0.0 && p >= 0.0;
      assert w > 0.0 ==> r > 0.0;
      assert w - p == r;
    }
  }

  /** `math.ceil`. */
  function Ceil(x: real): (r: int)
    ensures x <= r as real < x + 1.0
  {
    -((-x).Floor)
  }

  /** Python's `round` to an integer: ties go to the even neighbour. */
  function Round(x: real): (r: int)
    ensures (r as real) - 0.5 <= x <= (r as real) + 0.5
    ensures x == x.Floor as real ==> r == x.Floor
    ensures (x - r as real == 0.5 || r as real - x == 0.5) ==> r % 2 == 0
  {
    var f := x.Floor;
    var d := x - f as real;
    if d < 0.5 then f
    else if d > 0.5 then f + 1
    else if f % 2 == 0 then f
    else f + 1
  }

  /** Python's `%` on floats for a positive divisor. */
  function FMod(x: real, m: real): (r: real)
    requires m > 0.0
    ensures 0.0 <= r < m
    ensures ((x - r) / m).Floor as real == (x - r) / m
  {
    var q := (x / m).Floor;
    FloorTimes(x, m);
    var p := (q as real) * m;
    WholeMultiple(q, m, p);
    assert x - (x - p) == p;
    x - p
  }

  /** Dividing q * m by m gives back the integer q. */
  lemma WholeMultiple(q: int, m: real, p: real)
    requires m > 0.0 && p == (q as real) * m
    ensures p / m == q as real && (p / m).Floor == q
  {
  }

  lemma FloorTimes(x: real, m: real)
    requires m > 0.0
    ensures ((x / m).Floor as real) * m <= x < ((x / m).Floor as real) * m + m
  {
    DivMul(x, m);
    Bracket(x, m, x / m, (x / m).Floor as real);
  }

  lemma DivMul(x: real, m: real)
    requires m > 0.0
    ensures m * (x / m) == x
  {
  }

  lemma Bracket(x: real, m: real, y: real, f: real)
    requires m > 0.0 && m * y == x && f <= y < f + 1.0
    ensures f * m <= x < f * m + m
  {
    var u := y - f;
    var p := m * u;
    ProductBelow(m, u, p);
    var q := f * m;
    assert p < m;
    assert p == x - q;
    assert x < q + m;
  }

  // ---------------------------------------------------------------
  // random.shuffle
  // ---------------------------------------------------------------

  /** The `randbelow` draws Python's `random.shuffle` makes on a list of
      length `n`: for i = n-1 down to 1 it draws j in [0, i], in that order. */
  predicate ShuffleDraws(n: nat, draws: seq<nat>) {
    && |draws| == (if n == 0 then 0 else n - 1)
    && forall k :: 0 <= k < |draws| ==> draws[k] <= n - 1 - k
  }

  /** `random.shuffle`: swaps element i with a drawn j <= i, for i from the
      last index down to 1. The result is a rearrangement of the input. */
  method Shuffle<T>(s: seq<T>, draws: seq<nat>) returns (r: seq<T>)
    requires ShuffleDraws(|s|, draws)
    ensures |r| == |s|
    ensures multiset(r) == multiset(s)
  {
    r := s;
    var i := |s| - 1;
    var k := 0;
    while i >= 1
      invariant |r| == |s|
      invariant i < |s| && (i >= 0 ==> k == |s| - 1 - i)
      invariant i < 0 ==> |s| == 0 && k == 0
      invariant multiset(r) == multiset(s)
      decreases i
    {
      var j := draws[k];
      SwapKeepsMultiset(r, i, j);
      r := r[i := r[j]][j := r[i]];
      i := i - 1;
      k := k + 1;
    }
  }

  lemma SwapKeepsMultiset<T>(s: seq<T>, i: nat, j: nat)
    requires i < |s| && j < |s|
    ensures multiset(s[i := s[j]][j := s[i]]) == multiset(s)
  {
    if i != j {
      var t := s[i := s[j]];
      assert multiset(t) == multiset(s) - multiset{s[i]} + multiset{s[j]};
      assert multiset(t[j := s[i]]) == multiset(t) - multiset{t[j]} + multiset{s[i]};
    }
  }

  // ---------------------------------------------------------------
  // Projections of lists, used to count trial conditions
  // ---------------------------------------------------------------

  /** The list of `f(x)` for the elements `x` of `s`, in order. */
  function MapSeq<A, B>(f: A -> B, s: seq<A>): (r: seq<B>)
    ensures |r| == |s|
    ensures forall k :: 0 <= k < |s| ==> r[k] == f(s[k])
  {
    if s == [] then [] else MapSeq(f, s[..|s| - 1]) + [f(s[|s| - 1])]
  }

  lemma {:induction false} MapSeqAppend<A, B>(f: A -> B, s: seq<A>, t: seq<A>)
    ensures MapSeq(f, s + t) == MapSeq(f, s) + MapSeq(f, t)
  {
  }

  /** Mapping grows by the images of the appended one or two elements. */
  lemma MapSeqSnoc<A, B>(f: A -> B, s: seq<A>, a: A)
    ensures MapSeq(f, s + [a]) == MapSeq(f, s) + [f(a)]
  {
    MapSeqAppend(f, s, [a]);
  }

  lemma MapSeqSnocPair<A, B>(f: A -> B, s: seq<A>, a: A, b: A)
    ensures MapSeq(f, s + [a, b]) == MapSeq(f, s) + [f(a), f(b)]
  {
    MapSeqAppend(f, s, [a, b]);
    assert MapSeq(f, [a, b]) == MapSeq(f, [a]) + [f(b)];
  }

  /** One more element of a prefix adds one to the count of its projection. */
  lemma MapCountStep<A, B>(f: A -> B, s: seq<A>, m: nat, x: B)
    requires m < |s|
    ensures multiset(MapSeq(f, s[..m + 1]))[x] == multiset(MapSeq(f, s[..m]))[x] + if f(s[m]) == x then 1 else 0
  {
    assert s[..m + 1] == s[..m] + [s[m]];
    MapSeqAppend(f, s[..m], [s[m]]);
    var pre := MapSeq(f, s[..m]);
    assert MapSeq(f, s[..m + 1]) == pre + [f(s[m])];
    assert multiset(pre + [f(s[m])]) == multiset(pre) + multiset{f(s[m])};
  }

  /** Rearranging a list rearranges every projection of it the same way:
      the multiset of projected values depends only on the multiset. */
  lemma {:induction false} MapSeqMultiset<A, B>(f: A -> B, s: seq<A>, t: seq<A>)
    requires multiset(s) == multiset(t)
    ensures multiset(MapSeq(f, s)) == multiset(MapSeq(f, t))
    decreases |s|
  {
    if s == [] {
      assert |t| == |multiset(t)| == 0;
    } else {
      var x := s[|s| - 1];
      var s' := s[..|s| - 1];
      assert s == s' + [x];
      assert x in multiset(t);
      var k :| 0 <= k < |t| && t[k] == x;
      var t' := t[..k] + t[k + 1..];
      RemoveAt(t, k);
      assert multiset(s) == multiset(s') + multiset{x};
      assert multiset(s') == multiset(s) - multiset{x};
      assert multiset(t') == multiset(t) - multiset{x};
      MapSeqMultiset(f, s', t');
      MapRemoveAt(f, t, k);
      MapSeqAppend(f, s', [x]);
    }
  }

  /** Taking out element k of a sequence takes one of it out of its multiset. */
  lemma RemoveAt<A>(t: seq<A>, k: nat)
    requires k < |t|
    ensures multiset(t) == multiset(t[..k] + t[k + 1..]) + multiset{t[k]}
  {
    assert t == t[..k] + [t[k]] + t[k + 1..];
    MultisetMiddle(t[..k], t[k], t[k + 1..]);
  }

  lemma MultisetMiddle<A>(a: seq<A>, y: A, b: seq<A>)
    ensures multiset(a + [y] + b) == multiset(a + b) + multiset{y}
  {
  }

  lemma MapRemoveAt<A, B>(f: A -> B, t: seq<A>, k: nat)
    requires k < |t|
    ensures multiset(MapSeq(f, t)) == multiset(MapSeq(f, t[..k] + t[k + 1..])) + multiset{f(t[k])}
  {
    MapSeqSplit(f, t, k);
    MapSeqAppend(f, t[..k], t[k + 1..]);
    MultisetMiddle(MapSeq(f, t[..k]), f(t[k]), MapSeq(f, t[k + 1..]));
  }

  lemma MapSeqSplit<A, B>(f: A -> B, t: seq<A>, k: nat)
    requires k < |t|
    ensures MapSeq(f, t) == MapSeq(f, t[..k]) + [f(t[k])] + MapSeq(f, t[k + 1..])
  {
    var r := MapSeq(f, t[..k]) + [f(t[k])] + MapSeq(f, t[k + 1..]);
    assert |r| == |t|;
    forall i | 0 <= i < |t|
      ensures r[i] == f(t[i])
    {
      if i < k {
        assert r[i] == MapSeq(f, t[..k])[i];
      } else if i > k {
        assert r[i] == MapSeq(f, t[k + 1..])[i - k - 1];
      }
    }
  }



}
