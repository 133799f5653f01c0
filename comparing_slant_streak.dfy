/** SmoothStreak/ComparingSlantStreak.py: every trial shows two different
    streak conditions side by side, each unordered pair of found
    conditions twice, each time on sides chosen by a coin. */
module ComparingSlantStreak {
  import opened Common
  import opened StimulusFiles

  type Trial = (Condition, Condition)

  const RepetitionsPerComparison: nat := 2

  /** `random.random() < 0.5` keeps the loop's order, otherwise the two
      conditions change sides. */
  function OrientOne<T>(t: (T, T), coin: Unit): (T, T) {
    if coin < 0.5 then t else (t.1, t.0)
  }

  /** Trial k of the list oriented by draw k of `coins`. */
  function Orient<T>(s: seq<(T, T)>, coins: nat -> Unit): (r: seq<(T, T)>)
    ensures |r| == |s|
  {
    seq(|s|, k requires 0 <= k < |s| => OrientOne(s[k], coins(k)))
  }

  lemma OrientSnoc<T>(s: seq<(T, T)>, t: (T, T), coins: nat -> Unit)
    ensures Orient(s + [t], coins) == Orient(s, coins) + [OrientOne(t, coins(|s|))]
  {
    assert forall k | 0 <= k < |s| :: (s + [t])[k] == s[k];
  }

  /** The trials row i of the nested loop appends for the columns below
      j, in the loop's order: pair (i, j') twice for each j' > i. */
  function RowTrials<T>(pairs: seq<T>, i: nat, j: nat): (r: seq<(T, T)>)
    requires i < |pairs| && j <= |pairs|
    ensures |r| == if j > i + 1 then 2 * (j - i - 1) else 0
  {
    if j == 0 then []
    else
      RowTrials(pairs, i, j - 1) +
      (if i < j - 1 then [(pairs[i], pairs[j - 1]), (pairs[i], pairs[j - 1])] else [])
  }

  /** The trials of the rows below i, before any coin is thrown. */
  function UpperTrials<T>(pairs: seq<T>, i: nat): (r: seq<(T, T)>)
    requires i <= |pairs|
  {
    if i == 0 then [] else UpperTrials(pairs, i - 1) + RowTrials(pairs, i - 1, |pairs|)
  }

  /** Rows 0 .. i-1 of n conditions hold i (2n - 1 - i) trials. */
  lemma {:induction false} UpperLength<T>(pairs: seq<T>, i: nat)
    requires i <= |pairs|
    ensures |UpperTrials(pairs, i)| == i * (2 * |pairs| - 1 - i)
  {
    if i > 0 {
      var n := |pairs|;
      UpperLength(pairs, i - 1);
      assert |RowTrials(pairs, i - 1, n)| == 2 * (n - i);
      assert (i - 1) * (2 * n - i) + 2 * (n - i) == i * (2 * n - 1 - i);
    }
  }

  /** For n conditions the list has n (n - 1) trials. */
  lemma AllTrialsLength<T>(pairs: seq<T>)
    ensures |UpperTrials(pairs, |pairs|)| == |pairs| * (|pairs| - 1)
  {
    UpperLength(pairs, |pairs|);
  }

  /** In row i the pair (a, b) of positions occurs twice when it is
      (i, b) with i < b < j, and not at all otherwise. */
  lemma {:induction false} RowCount<T>(pairs: seq<T>, i: nat, j: nat, a: nat, b: nat)
    requires Distinct(pairs)
    requires i < |pairs| && j <= |pairs| && a < |pairs| && b < |pairs|
    ensures multiset(RowTrials(pairs, i, j))[(pairs[a], pairs[b])] == if a == i && i < b < j then 2 else 0
  {
    if j > 0 {
      var m := j - 1;
      RowCount(pairs, i, m, a, b);
      if i < m {
        RowCountStep(pairs, i, m, a, b);
      } else {
        assert RowTrials(pairs, i, j) == RowTrials(pairs, i, m) + [];
      }
    }
  }

  /** The step of RowCount where cell (i, m) of the row adds its pair twice. */
  lemma RowCountStep<T>(pairs: seq<T>, i: nat, m: nat, a: nat, b: nat)
    requires Distinct(pairs)
    requires i < m < |pairs| && a < |pairs| && b < |pairs|
    requires multiset(RowTrials(pairs, i, m))[(pairs[a], pairs[b])] == if a == i && i < b < m then 2 else 0
    ensures multiset(RowTrials(pairs, i, m + 1))[(pairs[a], pairs[b])] == if a == i && i < b < m + 1 then 2 else 0
  {
    var t := (pairs[i], pairs[m]);
    PairIndex(pairs, a, b, i, m);
    assert RowTrials(pairs, i, m + 1) == RowTrials(pairs, i, m) + [t, t];
    TwiceMore(RowTrials(pairs, i, m), t, (pairs[a], pairs[b]));
  }

  /** Appending t twice adds two to the count of t and nothing to the
      count of anything else. */
  lemma TwiceMore<T>(s: seq<T>, t: T, x: T)
    ensures multiset(s + [t, t])[x] == multiset(s)[x] + if t == x then 2 else 0
  {
    assert multiset(s + [t, t]) == multiset(s) + multiset{t, t};
  }

  /** Positions of distinct elements name their pair uniquely. */
  lemma PairIndex<T>(s: seq<T>, a: nat, b: nat, c: nat, d: nat)
    requires Distinct(s) && a < |s| && b < |s| && c < |s| && d < |s|
    ensures (s[a], s[b]) == (s[c], s[d]) <==> a == c && b == d
  {
    if (s[a], s[b]) == (s[c], s[d]) {
      DistinctIndex(s, a, c);
      DistinctIndex(s, b, d);
    }
  }

  lemma DistinctIndex<T>(s: seq<T>, a: nat, b: nat)
    requires Distinct(s) && a < |s| && b < |s| && s[a] == s[b]
    ensures a == b
  {
  }

  /** In the rows below i the pair (a, b) of positions occurs twice when
      a < b and a < i, and not at all otherwise. */
  lemma {:induction false} UpperCount<T>(pairs: seq<T>, i: nat, a: nat, b: nat)
    requires Distinct(pairs)
    requires i <= |pairs| && a < |pairs| && b < |pairs|
    ensures multiset(UpperTrials(pairs, i))[(pairs[a], pairs[b])] == if a < b && a < i then 2 else 0
  {
    if i > 0 {
      var x := (pairs[a], pairs[b]);
      var m := i - 1;
      var prev, row := UpperTrials(pairs, m), RowTrials(pairs, m, |pairs|);
      UpperCount(pairs, m, a, b);
      RowCount(pairs, m, |pairs|, a, b);
      assert UpperTrials(pairs, i) == prev + row;
      assert multiset(prev + row)[x] == multiset(prev)[x] + multiset(row)[x];
    }
  }

  /** Changing sides moves a trial between (c, d) and (d, c): the two
      counts together are what they were before the coins. */
  lemma {:induction false} OrientCount<T>(s: seq<(T, T)>, coins: nat -> Unit, x: (T, T))
    ensures multiset(Orient(s, coins))[x] + multiset(Orient(s, coins))[(x.1, x.0)] ==
            multiset(s)[x] + multiset(s)[(x.1, x.0)]
    decreases |s|
  {
    if s != [] {
      var init, last := s[..|s| - 1], s[|s| - 1];
      assert s == init + [last];
      OrientSnoc(init, last, coins);
      OrientCount(init, coins, x);
    }
  }

  /** The nested loop of `create_trial_list` with its coin per trial. */
  method AppendTrials(pairs: seq<Condition>, coins: nat -> Unit) returns (trials: seq<Trial>)
    ensures trials == Orient(UpperTrials(pairs, |pairs|), coins)
  {
    trials := [];
    for i := 0 to |pairs|
      invariant trials == Orient(UpperTrials(pairs, i), coins)
    {
      trials := AppendRow(pairs, i, coins, trials);
    }
  }

  /** One pass of the loop over j of `create_trial_list`. */
  method AppendRow(pairs: seq<Condition>, i: nat, coins: nat -> Unit, trials0: seq<Trial>)
    returns (trials: seq<Trial>)
    requires i < |pairs|
    requires trials0 == Orient(UpperTrials(pairs, i), coins)
    ensures trials == Orient(UpperTrials(pairs, i + 1), coins)
  {
    trials := trials0;
    var before := UpperTrials(pairs, i);
    for j := 0 to |pairs|
      invariant trials == Orient(before + RowTrials(pairs, i, j), coins)
    {
      trials := AppendColumn(pairs, i, j, coins, before, trials);
    }
    assert UpperTrials(pairs, i + 1) == before + RowTrials(pairs, i, |pairs|);
  }

  /** Column j of row i: the comparison (i, j) when j is past i, and
      nothing otherwise. */
  method AppendColumn<T>(pairs: seq<T>, i: nat, j: nat, coins: nat -> Unit, before: seq<(T, T)>,
                         trials0: seq<(T, T)>) returns (trials: seq<(T, T)>)
    requires i < |pairs| && j < |pairs|
    requires trials0 == Orient(before + RowTrials(pairs, i, j), coins)
    ensures trials == Orient(before + RowTrials(pairs, i, j + 1), coins)
  {
    var row := RowTrials(pairs, i, j);
    if i < j {
      var t := (pairs[i], pairs[j]);
      trials := AppendComparison(pairs[i], pairs[j], coins, before + row, trials0);
      assert RowTrials(pairs, i, j + 1) == row + [t, t];
      assert (before + row) + [t, t] == before + (row + [t, t]);
    } else {
      trials := trials0;
      assert RowTrials(pairs, i, j + 1) == row + [];
    }
  }


  /** Every trial of rows below i pairs two listed conditions. */
  lemma {:induction false} UpperMembers<T>(pairs: seq<T>, i: nat, t: (T, T))
    requires i <= |pairs| && t in UpperTrials(pairs, i)
    ensures t.0 in pairs && t.1 in pairs
  {
    var m := i - 1;
    if t in UpperTrials(pairs, m) {
      UpperMembers(pairs, m, t);
    } else {
      RowMembers(pairs, m, |pairs|, t);
    }
  }

  lemma {:induction false} RowMembers<T>(pairs: seq<T>, i: nat, j: nat, t: (T, T))
    requires i < |pairs| && j <= |pairs| && t in RowTrials(pairs, i, j)
    ensures t.0 in pairs && t.1 in pairs
  {
    var m := j - 1;
    if t in RowTrials(pairs, i, m) {
      RowMembers(pairs, i, m, t);
    }
  }

  /** What a rearranged list of oriented trials over the distinct
      conditions `found` holds: n (n - 1) trials, no condition against
      itself, each two different conditions twice in some orders, and no
      condition that was not found. */
  ghost predicate AllPairsTwice<T(!new)>(trials: seq<(T, T)>, found: set<T>) {
    && |trials| == |found| * (|found| - 1)
    && (forall c :: multiset(trials)[(c, c)] == 0)
    && (forall c, d | c in found && d in found && c != d :: multiset(trials)[(c, d)] + multiset(trials)[(d, c)] == 2)
    && (forall t | t in trials :: t.0 in found && t.1 in found)
  }

  /** The repetition loop for one comparison (a, b): each of its two
      trials is shown as (a, b) when its coin is below 0.5, else as (b, a). */
  method AppendComparison<T>(a: T, b: T, coins: nat -> Unit, s: seq<(T, T)>, trials0: seq<(T, T)>)
    returns (trials: seq<(T, T)>)
    requires trials0 == Orient(s, coins)
    ensures trials == Orient(s + [(a, b), (a, b)], coins)
  {
    trials := trials0;
    for rep := 0 to RepetitionsPerComparison
      invariant trials == Orient(s + seq(rep, _ => (a, b)), coins)
    {
      OrientSnoc(s + seq(rep, _ => (a, b)), (a, b), coins);
      assert s + seq(rep + 1, _ => (a, b)) == s + seq(rep, _ => (a, b)) + [(a, b)];
      if coins(|trials|) < 0.5 {
        trials := trials + [(a, b)];
      } else {
        trials := trials + [(b, a)];
      }
    }
    assert seq(2, _ => (a, b)) == [(a, b), (a, b)];
  }

  /** The list holds one trial per ordered pair of distinct conditions. */
  lemma ShuffledLength<T>(shuffled: seq<(T, T)>, pairs: seq<T>, coins: nat -> Unit, found: set<T>)
    requires Distinct(pairs) && forall c :: c in pairs <==> c in found
    requires multiset(shuffled) == multiset(Orient(UpperTrials(pairs, |pairs|), coins))
    ensures |shuffled| == |found| * (|found| - 1)
  {
    assert |shuffled| == |multiset(shuffled)| == |UpperTrials(pairs, |pairs|)|;
    AllTrialsLength(pairs);
    DistinctCardinality(pairs, found);
  }

  lemma ShuffledTrials<T(!new)>(shuffled: seq<(T, T)>, pairs: seq<T>, coins: nat -> Unit, found: set<T>)
    requires Distinct(pairs) && forall c :: c in pairs <==> c in found
    requires multiset(shuffled) == multiset(Orient(UpperTrials(pairs, |pairs|), coins))
    ensures AllPairsTwice(shuffled, found)
  {
    ShuffledLength(shuffled, pairs, coins, found);
    ShuffledNoSelfPairs(shuffled, pairs, coins);
    ShuffledEachPair(shuffled, pairs, coins, found);
    ShuffledMembers(shuffled, pairs, coins, found);
  }

  lemma ShuffledNoSelfPairs<T(!new)>(shuffled: seq<(T, T)>, pairs: seq<T>, coins: nat -> Unit)
    requires Distinct(pairs)
    requires multiset(shuffled) == multiset(Orient(UpperTrials(pairs, |pairs|), coins))
    ensures forall c :: multiset(shuffled)[(c, c)] == 0
  {
    var upper := UpperTrials(pairs, |pairs|);
    forall c
      ensures multiset(shuffled)[(c, c)] == 0
    {
      OrientCount(upper, coins, (c, c));
      if (c, c) in upper {
        UpperMembers(pairs, |pairs|, (c, c));
        var a :| 0 <= a < |pairs| && pairs[a] == c;
        UpperCount(pairs, |pairs|, a, a);
      }
    }
  }

  lemma ShuffledEachPair<T(!new)>(shuffled: seq<(T, T)>, pairs: seq<T>, coins: nat -> Unit, found: set<T>)
    requires Distinct(pairs) && forall c :: c in pairs <==> c in found
    requires multiset(shuffled) == multiset(Orient(UpperTrials(pairs, |pairs|), coins))
    ensures forall c, d | c in found && d in found && c != d ::
              multiset(shuffled)[(c, d)] + multiset(shuffled)[(d, c)] == 2
  {
    var upper := UpperTrials(pairs, |pairs|);
    forall c, d | c in found && d in found && c != d
      ensures multiset(shuffled)[(c, d)] + multiset(shuffled)[(d, c)] == 2
    {
      var a :| 0 <= a < |pairs| && pairs[a] == c;
      var b :| 0 <= b < |pairs| && pairs[b] == d;
      OrientCount(upper, coins, (c, d));
      UpperCount(pairs, |pairs|, a, b);
      UpperCount(pairs, |pairs|, b, a);
    }
  }

  lemma ShuffledMembers<T(!new)>(shuffled: seq<(T, T)>, pairs: seq<T>, coins: nat -> Unit, found: set<T>)
    requires forall c :: c in pairs <==> c in found
    requires multiset(shuffled) == multiset(Orient(UpperTrials(pairs, |pairs|), coins))
    ensures forall t | t in shuffled :: t.0 in found && t.1 in found
  {
    var upper := UpperTrials(pairs, |pairs|);
    forall t | t in shuffled
      ensures t.0 in found && t.1 in found
    {
      assert t in multiset(Orient(upper, coins));
      OrientCount(upper, coins, t);
      if t in upper {
        UpperMembers(pairs, |pairs|, t);
      } else {
        assert (t.1, t.0) in upper;
        UpperMembers(pairs, |pairs|, (t.1, t.0));
      }
    }
  }

  /** `create_trial_list`: an error without a folder or without a
      condition; otherwise all pairs of different conditions twice, sides
      by `coins`, shuffled with the draws `drawsFor(n)` a list of n trials
      takes. */
  method CreateTrialList(folder: Option<seq<string>>, coins: nat -> Unit, drawsFor: nat -> seq<nat>)
    returns (r: Result<seq<Trial>>)
    requires forall n :: ShuffleDraws(n, drawsFor(n))
    ensures folder.None? ==> r == Error(FolderMissing)
    ensures folder.Some? && ImagePairs(folder.value, folder.value) == {} ==> r == Error(NoImagePairs)
    ensures folder.Some? && ImagePairs(folder.value, folder.value) != {} ==> r.Success?
    ensures r.Success? ==> folder.Some? && AllPairsTwice(r.value, ImagePairs(folder.value, folder.value))
  {
    var scanned := GetImagePairs(folder);
    if scanned.Error? {
      return Error(scanned.failure);
    }
    var pairs := scanned.value;
    ghost var found := ImagePairs(folder.value, folder.value);
    if |pairs| == 0 {
      assert forall c :: c !in found;
      return Error(NoImagePairs);
    }
    assert pairs[0] in found;
    var trials := AppendTrials(pairs, coins);
    var shuffled := Shuffle(trials, drawsFor(|trials|));
    ShuffledTrials(shuffled, pairs, coins, found);
    r := Success(shuffled);
  }
}
