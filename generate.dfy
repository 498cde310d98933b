/** Generated test data: an odd number of random locations (a depot and pickup/dropoff pairs)
    and the assignment of the non-depot locations to transport requests. The random draws are
    parameters: a sequence of `randint` results, the coordinates, or a nondeterministic choice. */
module Generate {
  import opened Common
  import opened Algorithm

  const MIN_LOCATIONS: int := 6
  const MAX_LOCATIONS: int := 12

  /** `generate_odd_random()`: repeat `randint(6, 12)` until the draw is odd. The draws come in
      `draws`; `None` stands for a sequence of draws that never turns odd. */
  method GenerateOddRandom(draws: seq<int>) returns (r: Option<int>)
    requires forall i :: 0 <= i < |draws| ==> MIN_LOCATIONS <= draws[i] <= MAX_LOCATIONS
    ensures r.Some? ==> r.value in {7, 9, 11}
    ensures r == (match FirstIndex(draws, (d: int) => d % 2 == 1) case None => None case Some(k) => Some(draws[k]))
  {
    var i := 0;
    while i < |draws|
      invariant i <= |draws| && forall j :: 0 <= j < i ==> draws[j] % 2 != 1
    {
      if draws[i] % 2 == 1 {
        FirstIndexUnique(draws, (d: int) => d % 2 == 1, i);
        return Some(draws[i]);
      }
      i := i + 1;
    }
    return None;
  }

  /** The count and order part of `create_random_locations()`: `count` locations, taken from the
      rounded coordinate draws in order. With a count from `generate_odd_random` the list has an
      odd length between 7 and 11. */
  method CreateRandomLocations(count: int, draws: seq<Loc>) returns (locations: seq<Loc>)
    requires 0 <= count <= |draws|
    ensures locations == draws[..count]
    ensures count in {7, 9, 11} ==> |locations| % 2 == 1 && 7 <= |locations| <= 11
  {
    locations := [];
    var n := 0;
    while n < count
      invariant n <= count && locations == draws[..n]
    {
      locations := locations + [draws[n]];
      n := n + 1;
    }
  }

  /** `int((len(locations) - 1) / 2)`: the division is on floats and `int` truncates toward
      zero, so an empty list gives 0 requests, not -1. */
  function DeliveryAmount(len: nat): (k: nat)
    ensures 2 * k <= if len == 0 then 0 else len - 1
    ensures len > 0 ==> len - 1 - 2 * k <= 1
  {
    if len == 0 then 0 else (len - 1) / 2
  }

  /** `assign_deliveries(locations)` of the application: pair i is `[i + 1 + multiplier,
      i + 2 + multiplier]` with `multiplier == i`. */
  method AssignDeliveries(locations: seq<Loc>) returns (deliveries: seq<Pair>)
    ensures deliveries == NewPairs(1, DeliveryAmount(|locations|))
  {
    deliveries := [];
    var multiplier := 0;
    var amount := DeliveryAmount(|locations|);
    var i := 0;
    while i < amount
      invariant i <= amount && multiplier == i && deliveries == NewPairs(1, i)
    {
      deliveries := deliveries + [(i + 1 + multiplier, i + 2 + multiplier)];
      multiplier := multiplier + 1;
      i := i + 1;
    }
  }

  /** The pairs are (2i+1, 2i+2): consecutive non-depot indices, pickup first, every index used
      at most once and every one of them a valid location. */
  lemma DeliveriesWellFormed(len: nat)
    ensures var ds := NewPairs(1, DeliveryAmount(len));
      (forall t :: 0 <= t < |ds| ==> 1 <= ds[t].0 < ds[t].1 < len && ds[t] == (2 * t + 1, 2 * t + 2))
      && Distinct(Flat(ds))
  {
    var ds := NewPairs(1, DeliveryAmount(len));
    FlatPositions(ds);
    var fs := Flat(ds);
    forall j | 0 <= j < |fs|
      ensures fs[j] == j + 1
    {
      var t := j / 2;
      assert ds[t] == (2 * t + 1, 2 * t + 2);
      if j == 2 * t {
        assert fs[2 * t] == ds[t].0;
      } else {
        assert j == 2 * t + 1 && fs[2 * t + 1] == ds[t].1;
      }
    }
  }

  // ---------------------------------------------------------------------------------------
  // The simulation's assign_deliveries

  /** The indices named by a list of pairs, in order. */
  function Flat(ps: seq<Pair>): (fs: seq<nat>)
    ensures |fs| == 2 * |ps|
  {
    if ps == [] then [] else Flat(ps[..|ps| - 1]) + [ps[|ps| - 1].0, ps[|ps| - 1].1]
  }

  lemma {:induction false} FlatPositions(ps: seq<Pair>)
    ensures forall t :: 0 <= t < |ps| ==> Flat(ps)[2 * t] == ps[t].0 && Flat(ps)[2 * t + 1] == ps[t].1
  {
    if ps != [] {
      FlatPositions(ps[..|ps| - 1]);
    }
  }

  /** `list.remove(x)`: the first occurrence of `x` goes. */
  function Remove(s: seq<nat>, x: nat): (r: seq<nat>)
    ensures forall y :: y in r ==> y in s
    ensures x in s ==> |r| == |s| - 1
    ensures x !in s ==> r == s
    ensures forall y :: y in s && y != x ==> y in r
  {
    if s == [] then []
    else if s[0] == x then s[1..]
    else [s[0]] + Remove(s[1..], x)
  }

  /** On a list without repetitions `remove` takes away every occurrence and keeps it
      repetition-free. */
  lemma {:induction false} RemoveDistinct(s: seq<nat>, x: nat)
    requires Distinct(s)
    ensures Distinct(Remove(s, x)) && x !in Remove(s, x)
  {
    if s != [] {
      assert Distinct(s[1..]) by {
        forall i, j | 0 <= i < j < |s[1..]| ensures s[1..][i] != s[1..][j] {
          assert s[1..][i] == s[i + 1] && s[1..][j] == s[j + 1];
        }
      }
      if s[0] == x {
        assert x !in s[1..] by {
          forall k | 0 <= k < |s[1..]| ensures s[1..][k] != x {
            assert s[1..][k] == s[k + 1];
          }
        }
      } else {
        RemoveDistinct(s[1..], x);
        var r := Remove(s[1..], x);
        assert s[0] !in s[1..] by {
          forall k | 0 <= k < |s[1..]| ensures s[1..][k] != s[0] {
            assert s[1..][k] == s[k + 1];
          }
        }
        assert Remove(s, x) == [s[0]] + r;
      }
    }
  }

  /** The indices `range(lo, hi)`. */
  function Range(lo: nat, hi: nat): (r: seq<nat>)
    ensures |r| == if lo <= hi then hi - lo else 0
    ensures forall k :: 0 <= k < |r| ==> r[k] == lo + k
    decreases hi - lo
  {
    if lo >= hi then [] else [lo] + Range(lo + 1, hi)
  }

  /** One round of the simulation's loop: moving two distinct unused indices from `indices` to
      the used list keeps both lists repetition-free, disjoint and within the locations. */
  lemma TakePair(indices: seq<nat>, used: seq<nat>, a: nat, b: nat, len: nat)
    requires Distinct(indices) && Distinct(used) && a in indices && b in indices && a != b
    requires forall y :: y in indices ==> 1 <= y < len && y !in used
    requires forall y :: y in used ==> 1 <= y < len
    ensures var rest := Remove(Remove(indices, a), b);
      Distinct(rest) && Distinct(used + [a, b]) && |rest| == |indices| - 2
      && (forall y :: y in rest ==> 1 <= y < len && y !in used + [a, b])
      && (forall y :: y in used + [a, b] ==> 1 <= y < len)
  {
    RemoveDistinct(indices, a);
    RemoveDistinct(Remove(indices, a), b);
    var us := used + [a, b];
    forall i, j | 0 <= i < j < |us| ensures us[i] != us[j] {
      if j < |used| {
        assert us[i] == used[i] && us[j] == used[j];
      } else if i < |used| {
        assert us[i] in used;
      }
    }
  }

  /** `assign_deliveries(locations)` of the simulation: while two unused non-depot indices
      remain, a random two of them (`random.sample`) form the next pair and are removed. */
  method AssignRandomDeliveries(locations: seq<Loc>) returns (pairs: seq<Pair>)
    ensures |pairs| == DeliveryAmount(|locations|)
    ensures forall t :: 0 <= t < |pairs| ==> pairs[t].0 != pairs[t].1
    ensures forall y :: y in Flat(pairs) ==> 1 <= y < |locations|
    ensures Distinct(Flat(pairs))
  {
    pairs := [];
    var indices := Range(1, |locations|);
    ghost var total := if |locations| == 0 then 0 else |locations| - 1;
    assert Distinct(indices);
    while |indices| >= 2
      invariant Distinct(indices) && Distinct(Flat(pairs))
      invariant forall y :: y in indices ==> 1 <= y < |locations| && y !in Flat(pairs)
      invariant forall y :: y in Flat(pairs) ==> 1 <= y < |locations|
      invariant forall t :: 0 <= t < |pairs| ==> pairs[t].0 != pairs[t].1
      invariant 2 * |pairs| + |indices| == total
      decreases |indices|
    {
      assert indices[0] in indices && indices[1] in indices && indices[0] != indices[1];
      var a, b :| a in indices && b in indices && a != b;
      ghost var before := Flat(pairs);
      TakePair(indices, before, a, b, |locations|);
      pairs := pairs + [(a, b)];
      assert Flat(pairs) == before + [a, b];
      indices := Remove(Remove(indices, a), b);
    }
    assert total - 2 * |pairs| <= 1;
  }
}
