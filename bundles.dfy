/** How the application's auction engine groups offers into bundles: the offers are ranked by
    revenue, step `i` takes the `i`-th lowest and the `i`-th highest, and two steps make one
    bundle. */
module Bundles {
  import opened Common

  /** `order` lists every position below `n` exactly once. */
  predicate IsPermutation(order: seq<nat>, n: nat)
  {
    |order| == n && (forall i :: 0 <= i < n ==> order[i] < n) && Distinct(order)
    && forall j :: 0 <= j < n ==> j in order
  }

  /** `order` is what `np.argsort(keys)` returns: a permutation listing the keys in ascending
      order (ties in any order). */
  predicate IsArgSort(order: seq<nat>, keys: seq<real>)
  {
    IsPermutation(order, |keys|) && forall i, j :: 0 <= i < j < |keys| ==> keys[order[i]] <= keys[order[j]]
  }

  /** The ids in the order the steps place them: step `i < n/2` places the offer of rank `i`
      and then the offer of rank `n-1-i`. */
  function Placement(ids: seq<string>, order: seq<nat>): (pl: seq<string>)
    requires IsPermutation(order, |ids|)
    ensures |pl| == 2 * (|ids| / 2)
  {
    var n := |ids|;
    seq(2 * (n / 2), p requires 0 <= p < 2 * (n / 2) =>
      if p % 2 == 0 then ids[order[p / 2]] else ids[order[n - 1 - p / 2]])
  }

  /** The number of bundles: one per two steps, rounded up. */
  function BundleCount(n: nat): nat
  {
    (n / 2 + 1) / 2
  }

  /** Bundle `k`: the ids placed by steps `2k` and `2k+1`. */
  function BundleOf(pl: seq<string>, k: nat): seq<string>
    requires 4 * k <= |pl|
  {
    pl[4 * k .. if 4 * k + 4 <= |pl| then 4 * k + 4 else |pl|]
  }

  /** Every bundle but the last holds four ids; the last holds two or four. */
  lemma BundleSizes(ids: seq<string>, order: seq<nat>, k: nat)
    requires IsPermutation(order, |ids|) && k < BundleCount(|ids|)
    ensures 4 * k < |Placement(ids, order)|
    ensures k + 1 < BundleCount(|ids|) ==> |BundleOf(Placement(ids, order), k)| == 4
    ensures k + 1 == BundleCount(|ids|) ==> |BundleOf(Placement(ids, order), k)| in {2, 4}
  {
  }

  /** Together the bundles hold exactly the placed ids, in placement order. */
  lemma {:induction false} BundlesCoverPlacement(pl: seq<string>, m: nat)
    requires |pl| % 2 == 0 && m <= (|pl| / 2 + 1) / 2
    ensures 4 * m >= |pl| ==> Concat(pl, m) == pl
    ensures 4 * m < |pl| ==> Concat(pl, m) == pl[..4 * m]
  {
    if m > 0 {
      BundlesCoverPlacement(pl, m - 1);
      var a := 4 * (m - 1);
      var e := if a + 4 <= |pl| then a + 4 else |pl|;
      assert 4 * (m - 1) < |pl|;
      assert Concat(pl, m) == pl[..a] + pl[a..e];
      assert pl[..a] + pl[a..e] == pl[..e];
      assert e == |pl| ==> pl[..e] == pl;
    }
  }

  /** Step `i` of the loop on the bundle dictionary: bundle `i/2` is opened empty when `i` is
      even, then the two ids the step places are appended to it. */
  function Step(b: map<int, seq<string>>, pl: seq<string>, i: nat): (r: map<int, seq<string>>)
    requires 2 * i + 2 <= |pl| && (i % 2 == 1 ==> i / 2 in b)
    ensures i / 2 in r
  {
    var k := i / 2;
    var start := if i % 2 == 0 then b[k := []] else b;
    var one := start[k := start[k] + [pl[2 * i]]];
    one[k := one[k] + [pl[2 * i + 1]]]
  }

  /** The bundle dictionary after the first `i` steps, starting from `b`. */
  function Fill(b: map<int, seq<string>>, pl: seq<string>, i: nat): (r: map<int, seq<string>>)
    requires 2 * i <= |pl|
    ensures i > 0 ==> (i - 1) / 2 in r
  {
    if i == 0 then b else Step(Fill(b, pl, i - 1), pl, i - 1)
  }

  /** A step extends its own bundle by the two ids it places and leaves every other key. */
  lemma StepAt(b: map<int, seq<string>>, pl: seq<string>, i: nat)
    requires 2 * i + 2 <= |pl| && (i % 2 == 1 ==> i / 2 in b)
    ensures Step(b, pl, i)[i / 2] == (if i % 2 == 0 then [] else b[i / 2]) + [pl[2 * i]] + [pl[2 * i + 1]]
    ensures forall k :: k != i / 2 ==> (k in Step(b, pl, i) <==> k in b)
    ensures forall k :: k != i / 2 && k in b ==> Step(b, pl, i)[k] == b[k]
  {
  }

  lemma SliceExtend(pl: seq<string>, a: nat, e: nat)
    requires a <= e && e + 2 <= |pl|
    ensures pl[a .. e] + [pl[e]] + [pl[e + 1]] == pl[a .. e + 2]
  {
  }

  /** The ids bundle `k` holds after `i` steps. */
  function Partial(pl: seq<string>, k: nat, i: nat): seq<string>
    requires 2 * k < i && 2 * i <= |pl|
  {
    pl[4 * k .. if 4 * k + 4 <= 2 * i then 4 * k + 4 else 2 * i]
  }

  /** The keys no step has touched keep their old values (and stay absent when they were). */
  lemma {:induction false} FillOutside(b: map<int, seq<string>>, pl: seq<string>, i: nat)
    requires 2 * i <= |pl|
    ensures forall k: int :: (k < 0 || 2 * k >= i) ==> (k in Fill(b, pl, i) <==> k in b)
    ensures forall k: int :: (k < 0 || 2 * k >= i) && k in b ==> Fill(b, pl, i)[k] == b[k]
  {
    if i > 0 {
      var j := i - 1;
      var key, prev, r := j / 2, Fill(b, pl, j), Fill(b, pl, i);
      FillOutside(b, pl, j);
      if j % 2 == 1 {
        FillGet(b, pl, j);
        assert 2 * key < j;
      }
      assert r == Step(prev, pl, j);
      StepAt(prev, pl, j);
      forall k: int | k < 0 || 2 * k >= i
        ensures (k in r <==> k in b) && (k in b ==> r[k] == b[k])
      {
        assert k != key;
      }
    }
  }

  /** One step keeps every bundle that was complete as far as the steps so far go and extends
      its own bundle by the two ids it places. */
  lemma StepPartial(prev: map<int, seq<string>>, pl: seq<string>, j: nat)
    requires 2 * j + 2 <= |pl|
    requires forall k: nat :: 2 * k < j ==> k in prev && prev[k] == Partial(pl, k, j)
    ensures forall k: nat :: 2 * k < j + 1 ==> k in Step(prev, pl, j) && Step(prev, pl, j)[k] == Partial(pl, k, j + 1)
  {
    var key, r, i := j / 2, Step(prev, pl, j), j + 1;
    assert j == 2 * key + j % 2;
    if j % 2 == 1 {
      assert 2 * key < j;
    }
    StepAt(prev, pl, j);
    if j % 2 == 1 {
      assert 4 * key == 2 * j - 2;
      assert prev[key] == Partial(pl, key, j) == pl[2 * j - 2 .. 2 * j];
      SliceExtend(pl, 2 * j - 2, 2 * j);
      assert Partial(pl, key, i) == pl[2 * j - 2 .. 2 * j + 2];
    } else {
      assert 4 * key == 2 * j;
      SliceExtend(pl, 2 * j, 2 * j);
      assert Partial(pl, key, i) == pl[2 * j .. 2 * j + 2];
    }
    forall k: nat | 2 * k < i
      ensures k in r && r[k] == Partial(pl, k, i)
    {
      if k != key {
        assert k < key && 4 * k + 4 <= 4 * key;
        assert 2 * k < j && k in prev && r[k] == prev[k];
        assert Partial(pl, k, i) == pl[4 * k .. 4 * k + 4] == Partial(pl, k, j);
      }
    }
  }

  /** After `i` steps bundle `k` holds the ids placed by steps `2k` and `2k+1`, as far as they
      have run. */
  lemma {:induction false} FillGet(b: map<int, seq<string>>, pl: seq<string>, i: nat)
    requires 2 * i <= |pl|
    ensures forall k: nat :: 2 * k < i ==> k in Fill(b, pl, i) && Fill(b, pl, i)[k] == Partial(pl, k, i)
  {
    if i > 0 {
      FillGet(b, pl, i - 1);
      StepPartial(Fill(b, pl, i - 1), pl, i - 1);
    }
  }

  /** Step `i` of the loop written out, with its key and the dictionary it starts from
      named. */
  lemma FillStep(b: map<int, seq<string>>, pl: seq<string>, i: nat, k: int, start: map<int, seq<string>>, low: string, high: string)
    requires 2 * i + 2 <= |pl| && k == i / 2
    requires start == (if i % 2 == 0 then Fill(b, pl, i)[k := []] else Fill(b, pl, i))
    requires low == pl[2 * i] && high == pl[2 * i + 1]
    ensures k in start
    ensures Fill(b, pl, i + 1) == start[k := start[k] + [low]][k := start[k := start[k] + [low]][k] + [high]]
  {
  }

  /** Step `i` places the offer of rank `i`, then the offer of rank `n-1-i`. */
  lemma PlacementAt(ids: seq<string>, order: seq<nat>, i: nat)
    requires IsPermutation(order, |ids|) && i < |ids| / 2
    ensures 2 * i + 1 < |Placement(ids, order)|
    ensures Placement(ids, order)[2 * i] == ids[order[i]]
    ensures Placement(ids, order)[2 * i + 1] == ids[order[|ids| - 1 - i]]
  {
  }

  /** `b` is `b0` after the bundles of `ids` under `order` have been written into it: bundle
      `k` holds the ids placed by steps `2k` and `2k+1`, and every other key of `b0` stays as it
      was. */
  ghost predicate Bundled(b: map<int, seq<string>>, b0: map<int, seq<string>>, ids: seq<string>, order: seq<nat>)
    requires IsPermutation(order, |ids|)
  {
    var pl := Placement(ids, order);
    (forall k: nat :: k < BundleCount(|ids|) ==> 4 * k <= |pl| && k in b && b[k] == BundleOf(pl, k))
    && (forall k: int :: (k < 0 || k >= BundleCount(|ids|)) ==> (k in b <==> k in b0))
    && (forall k: int :: (k < 0 || k >= BundleCount(|ids|)) && k in b0 ==> b[k] == b0[k])
  }

  /** After all `n/2` steps, bundle `k` is `BundleOf(pl, k)` for every `k` below
      `BundleCount(n)`, and every other key keeps what it held before. */
  lemma FillBundles(b: map<int, seq<string>>, ids: seq<string>, order: seq<nat>)
    requires IsPermutation(order, |ids|)
    ensures Bundled(Fill(b, Placement(ids, order), |ids| / 2), b, ids, order)
  {
    var pl, m := Placement(ids, order), |ids| / 2;
    FillGet(b, pl, m);
    FillOutside(b, pl, m);
    forall k: int | 0 <= k
      ensures k < BundleCount(|ids|) <==> 2 * k < m
    {
    }
  }

  /** The loop of `generate_bundles` on the offer ids `ids` (in list order) and the argsort
      `order`: bundle `k` becomes the ids placed by steps `2k` and `2k+1`, and every other key
      of `b0` stays as it was. */
  method PlaceBundles(b0: map<int, seq<string>>, ids: seq<string>, order: seq<nat>) returns (b: map<int, seq<string>>)
    requires IsPermutation(order, |ids|)
    ensures Bundled(b, b0, ids, order)
  {
    b := b0;
    var current := 0;
    var i := 0;
    ghost var pl := Placement(ids, order);
    while i < |ids| / 2
      invariant 0 <= i <= |ids| / 2 && current == if i == 0 then 0 else (i - 1) / 2
      invariant b == Fill(b0, pl, i)
    {
      b, current := PlacePair(b0, ids, order, b, current, i);
      i := i + 1;
    }
    FillBundles(b0, ids, order);
  }

  /** One pass of the loop of `generate_bundles`: a new bundle is opened on every even step,
      and the offers of rank `i` and `n-1-i` are appended to the current one. */
  method PlacePair(ghost b0: map<int, seq<string>>, ids: seq<string>, order: seq<nat>, b: map<int, seq<string>>, current: int, i: nat)
    returns (b': map<int, seq<string>>, current': int)
    requires IsPermutation(order, |ids|) && i < |ids| / 2
    requires current == (if i == 0 then 0 else (i - 1) / 2) && b == Fill(b0, Placement(ids, order), i)
    ensures current' == i / 2 && b' == Fill(b0, Placement(ids, order), i + 1)
  {
    var n := |ids|;
    b', current' := b, current;
    if i % 2 == 0 && i != 0 {
      current' := current' + 1;
      b' := b'[current' := []];
    }
    if i == 0 {
      b' := b'[current' := []];
    }
    var low, high := ids[order[i]], ids[order[n - 1 - i]];
    PlacementAt(ids, order, i);
    FillStep(b0, Placement(ids, order), i, current', b', low, high);
    b' := b'[current' := b'[current'] + [low]];
    b' := b'[current' := b'[current'] + [high]];
  }

  /** Bundles `0 .. m-1` one after the other. */
  function Concat(pl: seq<string>, m: nat): seq<string>
    requires |pl| % 2 == 0 && m <= (|pl| / 2 + 1) / 2
  {
    if m == 0 then [] else Concat(pl, m - 1) + BundleOf(pl, m - 1)
  }

  /** The rank whose offer position `p` of the placement holds. */
  function RankAt(n: nat, p: nat): nat
    requires p < 2 * (n / 2)
  {
    if p % 2 == 0 then p / 2 else n - 1 - p / 2
  }

  /** Even positions hold the ranks below `n/2`, odd positions the ranks from `n - n/2` on, and
      two positions of the same parity hold different ranks. */
  lemma RankAtBounds(n: nat, p: nat)
    requires p < 2 * (n / 2)
    ensures RankAt(n, p) < n
    ensures p % 2 == 0 ==> RankAt(n, p) < n / 2
    ensures p % 2 == 1 ==> RankAt(n, p) >= n - n / 2
  {
    assert p / 2 < n / 2;
  }

  lemma RankAtInjective(n: nat, p: nat, q: nat)
    requires p < q < 2 * (n / 2)
    ensures RankAt(n, p) != RankAt(n, q)
  {
    RankAtBounds(n, p);
    RankAtBounds(n, q);
    assert p == 2 * (p / 2) + p % 2 && q == 2 * (q / 2) + q % 2;
  }

  lemma PlacementRank(ids: seq<string>, order: seq<nat>, p: nat)
    requires IsPermutation(order, |ids|) && p < 2 * (|ids| / 2)
    ensures RankAt(|ids|, p) < |ids| && Placement(ids, order)[p] == ids[order[RankAt(|ids|, p)]]
  {
    assert p / 2 < |ids| / 2;
  }

  /** Distinct offers are placed at most once each. */
  lemma PlacementDistinct(ids: seq<string>, order: seq<nat>)
    requires IsPermutation(order, |ids|) && Distinct(ids)
    ensures Distinct(Placement(ids, order))
  {
    var pl, n := Placement(ids, order), |ids|;
    forall p, q | 0 <= p < q < |pl|
      ensures pl[p] != pl[q]
    {
      RankAtInjective(n, p, q);
      PlacementRank(ids, order, p);
      PlacementRank(ids, order, q);
      var a, b := RankAt(n, p), RankAt(n, q);
      assert order[a] != order[b];
    }
  }

  /** The position a rank is placed at, if it is placed. */
  lemma PlacedRank(ids: seq<string>, order: seq<nat>, r: nat)
    requires IsPermutation(order, |ids|) && r < |ids|
    ensures |ids| % 2 == 0 || r != |ids| / 2 ==> ids[order[r]] in Placement(ids, order)
  {
    var n, pl := |ids|, Placement(ids, order);
    if r < n / 2 {
      assert pl[2 * r] == ids[order[r]];
    } else if n % 2 == 0 || r != n / 2 {
      var i := n - 1 - r;
      assert 0 <= i < n / 2;
      assert pl[2 * i + 1] == ids[order[r]];
    }
  }

  /** With an even number of offers every offer is placed; with an odd number every offer but
      the one of middle rank is, and that one is in no bundle. */
  lemma PlacementCoverage(ids: seq<string>, order: seq<nat>)
    requires IsPermutation(order, |ids|) && Distinct(ids)
    ensures |ids| % 2 == 0 ==> forall j :: 0 <= j < |ids| ==> ids[j] in Placement(ids, order)
    ensures |ids| % 2 == 1 ==> ids[order[|ids| / 2]] !in Placement(ids, order)
    ensures |ids| % 2 == 1 ==> forall j :: 0 <= j < |ids| && j != order[|ids| / 2] ==> ids[j] in Placement(ids, order)
  {
    var n, pl := |ids|, Placement(ids, order);
    forall j | 0 <= j < n && (n % 2 == 0 || j != order[n / 2])
      ensures ids[j] in pl
    {
      assert j in order;
      var r :| 0 <= r < n && order[r] == j;
      PlacedRank(ids, order, r);
    }
    if n % 2 == 1 {
      var m := n / 2;
      forall p | 0 <= p < |pl|
        ensures pl[p] != ids[order[m]]
      {
        RankAtBounds(n, p);
        PlacementRank(ids, order, p);
        assert order[RankAt(n, p)] != order[m];
      }
    }
  }

  /** The revenues of the test fixture, 280, 400, 260, 220, 100 and 240, are sorted by
      [4, 3, 5, 2, 0, 1]. */
  lemma FixtureOrder()
    ensures IsArgSort([4, 3, 5, 2, 0, 1], [280.0, 400.0, 260.0, 220.0, 100.0, 240.0])
  {
    var order: seq<nat> := [4, 3, 5, 2, 0, 1];
    assert 0 == order[4] && 1 == order[5] && 2 == order[3] && 3 == order[1] && 4 == order[0] && 5 == order[2];
  }

  /** With that order the bundles of offer1 .. offer6 come out as [offer5, offer2, offer4,
      offer1] and [offer6, offer3]. */
  lemma FixtureBundles()
    ensures var ids := ["offer1", "offer2", "offer3", "offer4", "offer5", "offer6"];
      IsPermutation([4, 3, 5, 2, 0, 1], |ids|) &&
      var pl := Placement(ids, [4, 3, 5, 2, 0, 1]);
      BundleCount(6) == 2 && BundleOf(pl, 0) == ["offer5", "offer2", "offer4", "offer1"]
      && BundleOf(pl, 1) == ["offer6", "offer3"]
  {
    FixtureOrder();
    var ids := ["offer1", "offer2", "offer3", "offer4", "offer5", "offer6"];
    var pl := Placement(ids, [4, 3, 5, 2, 0, 1]);
    assert pl == ["offer5", "offer2", "offer4", "offer1", "offer6", "offer3"];
  }
}
