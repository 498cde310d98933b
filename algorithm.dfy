/** The data preparation in front of the tour optimiser: excluding transport requests from a
    carrier's location list and renumbering the pickup/dropoff pairs, appending requests, the
    taxicab distance matrix, and the data record handed to the solver. A request is a pair of
    indices into the location list, pickup first. */
module Algorithm {
  import opened Common
  import opened Utilities

  /** Every pair names two existing locations. */
  predicate ValidIndices(locations: seq<Loc>, pairs: seq<Pair>)
  {
    forall t :: 0 <= t < |pairs| ==> pairs[t].0 < |locations| && pairs[t].1 < |locations|
  }

  /** The requests `ignore` names exist and their endpoints exist. */
  predicate IgnorableBy(locations: seq<Loc>, pairs: seq<Pair>, ignore: seq<nat>)
  {
    forall t :: 0 <= t < |ignore| ==> ignore[t] < |pairs| && pairs[ignore[t]].0 < |locations| && pairs[ignore[t]].1 < |locations|
  }

  // ---------------------------------------------------------------------------------------
  // filter_requests_by_index

  /** `[self.locations[j] for j in self.assignments[i]]`. */
  function EndpointsOf(locations: seq<Loc>, pair: Pair): seq<Loc>
    requires pair.0 < |locations| && pair.1 < |locations|
  {
    [locations[pair.0], locations[pair.1]]
  }

  /** The endpoint locations of every ignored request. */
  function Excluded(locations: seq<Loc>, pairs: seq<Pair>, ignore: seq<nat>): (ex: seq<Loc>)
    requires IgnorableBy(locations, pairs, ignore)
    ensures forall t :: 0 <= t < |ignore| ==> locations[pairs[ignore[t]].0] in ex && locations[pairs[ignore[t]].1] in ex
  {
    if ignore == [] then []
    else
      var n := |ignore| - 1;
      Excluded(locations, pairs, ignore[..n]) + EndpointsOf(locations, pairs[ignore[n]])
  }

  /** The locations among the first `n` that are not excluded, in order. */
  function Kept(locations: seq<Loc>, ex: seq<Loc>, n: nat): (ks: seq<Loc>)
    requires n <= |locations|
    ensures |ks| <= n
  {
    if n == 0 then []
    else Kept(locations, ex, n - 1) + (if locations[n - 1] !in ex then [locations[n - 1]] else [])
  }

  /** Every kept location is one of the locations and none of the excluded ones. */
  lemma {:induction false} KeptSound(locations: seq<Loc>, ex: seq<Loc>, n: nat)
    requires n <= |locations|
    ensures forall l :: l in Kept(locations, ex, n) ==> l in locations && l !in ex
  {
    if n > 0 {
      KeptSound(locations, ex, n - 1);
    }
  }

  /** `index_mapping` built by one sweep over the locations starting at new index `base`: each
      kept position goes to `base` plus the number of kept positions before it. */
  function Ranks(locations: seq<Loc>, ex: seq<Loc>, base: nat, n: nat): map<nat, nat>
    requires n <= |locations|
  {
    map j: nat | j < n && locations[j] !in ex :: base + |Kept(locations, ex, j)|
  }

  /** The surviving requests of `assignments`: those whose two endpoints both have a new index. */
  function Surviving(pairs: seq<Pair>, mapping: map<nat, nat>): seq<Pair>
  {
    Filter(pairs, (q: Pair) => q.0 in mapping && q.1 in mapping)
  }

  /** `[[index_mapping[p], index_mapping[d]] for p, d in assignments if p in index_mapping and d in index_mapping]`. */
  function Renumber(pairs: seq<Pair>, mapping: map<nat, nat>): (rs: seq<Pair>)
    ensures |rs| == |Surviving(pairs, mapping)|
    ensures forall k :: 0 <= k < |rs| ==> var q := Surviving(pairs, mapping)[k];
      q.0 in mapping && q.1 in mapping && rs[k] == (mapping[q.0], mapping[q.1])
  {
    var s := Surviving(pairs, mapping);
    seq(|s|, k requires 0 <= k < |s| => (mapping[s[k].0], mapping[s[k].1]))
  }

  /** `filter_requests_by_index(ignore)` as written: the sweep over all locations is repeated
      once per ignored request, each sweep dropping only that request's endpoints, appending to
      the same list and overwriting earlier entries of the mapping. */
  function FilterAsWritten(locations: seq<Loc>, pairs: seq<Pair>, ignore: seq<nat>): (r: (seq<Loc>, map<nat, nat>))
    requires IgnorableBy(locations, pairs, ignore)
  {
    if ignore == [] then ([], map[])
    else
      var n := |ignore| - 1;
      var (ls, m) := FilterAsWritten(locations, pairs, ignore[..n]);
      var ex := EndpointsOf(locations, pairs[ignore[n]]);
      (ls + Kept(locations, ex, |locations|), m + Ranks(locations, ex, |ls|, |locations|))
  }

  /** The intended result: one sweep that drops the endpoints of every ignored request. */
  function FilterRequests(locations: seq<Loc>, pairs: seq<Pair>, ignore: seq<nat>): (r: (seq<Loc>, seq<Pair>))
    requires IgnorableBy(locations, pairs, ignore)
  {
    var ex := Excluded(locations, pairs, ignore);
    (Kept(locations, ex, |locations|), Renumber(pairs, Ranks(locations, ex, 0, |locations|)))
  }

  /** One more step of the sweep. */
  lemma RanksStep(locations: seq<Loc>, ex: seq<Loc>, base: nat, n: nat)
    requires n < |locations|
    ensures Ranks(locations, ex, base, n + 1)
            == if locations[n] !in ex then Ranks(locations, ex, base, n)[n := base + |Kept(locations, ex, n)|]
               else Ranks(locations, ex, base, n)
  {
    var after, before := Ranks(locations, ex, base, n + 1), Ranks(locations, ex, base, n);
    var expected := if locations[n] !in ex then before[n := base + |Kept(locations, ex, n)|] else before;
    forall j: nat
      ensures (j in after <==> j in expected) && (j in after ==> after[j] == expected[j])
    {
      if j < n {
        assert (j in after <==> j in before) && (j in before ==> after[j] == before[j]);
      }
    }
    assert after.Keys == expected.Keys;
  }

  lemma {:induction false} KeptGrows(locations: seq<Loc>, ex: seq<Loc>, j: nat, n: nat)
    requires j < n <= |locations| && locations[j] !in ex
    ensures |Kept(locations, ex, j)| < |Kept(locations, ex, n)|
    ensures Kept(locations, ex, n)[|Kept(locations, ex, j)|] == locations[j]
  {
    if n - 1 > j {
      KeptGrows(locations, ex, j, n - 1);
    }
  }

  /** The mapping sends each kept position to the position of the same location in the kept
      list, and it is strictly increasing. */
  lemma RanksTranslate(locations: seq<Loc>, ex: seq<Loc>)
    ensures var m, ks := Ranks(locations, ex, 0, |locations|), Kept(locations, ex, |locations|);
      (forall j: nat :: j in m <==> j < |locations| && locations[j] !in ex)
      && (forall j :: j in m ==> m[j] < |ks| && ks[m[j]] == locations[j])
      && (forall j, k :: j in m && k in m && j < k ==> m[j] < m[k])
  {
    var m, ks := Ranks(locations, ex, 0, |locations|), Kept(locations, ex, |locations|);
    forall j | j in m
      ensures m[j] < |ks| && ks[m[j]] == locations[j]
    {
      KeptGrows(locations, ex, j, |locations|);
    }
    forall j, k | j in m && k in m && j < k
      ensures m[j] < m[k]
    {
      KeptGrows(locations, ex, j, k);
    }
  }

  /** The pairs that come out of the filter are the surviving requests, renumbered so that they
      name the same locations in the shortened list; every index is in range, and each ignored
      request is gone. */
  lemma FilterRequestsSpec(locations: seq<Loc>, pairs: seq<Pair>, ignore: seq<nat>)
    requires IgnorableBy(locations, pairs, ignore)
    ensures var (ls, rs) := FilterRequests(locations, pairs, ignore);
      var s := Surviving(pairs, Ranks(locations, Excluded(locations, pairs, ignore), 0, |locations|));
      ValidIndices(ls, rs) && |rs| == |s|
      && (forall k :: 0 <= k < |rs| ==> s[k] in pairs && ls[rs[k].0] == locations[s[k].0] && ls[rs[k].1] == locations[s[k].1])
      && (forall t :: 0 <= t < |ignore| ==> pairs[ignore[t]] !in s)
  {
    var ex := Excluded(locations, pairs, ignore);
    RanksTranslate(locations, ex);
  }

  /** With one ignored request, the code as written and the intended one agree. */
  lemma FilterSingleAgrees(locations: seq<Loc>, pairs: seq<Pair>, i: nat)
    requires IgnorableBy(locations, pairs, [i])
    ensures var (ls, m) := FilterAsWritten(locations, pairs, [i]);
      (ls, Renumber(pairs, m)) == FilterRequests(locations, pairs, [i])
  {
    assert [i][..0] == [] && [i][0] == i;
    var ex := EndpointsOf(locations, pairs[i]);
    assert Excluded(locations, pairs, [i]) == [] + ex && [] + ex == ex;
    assert FilterAsWritten(locations, pairs, [i]) == ([] + Kept(locations, ex, |locations|), map[] + Ranks(locations, ex, 0, |locations|));
    assert map[] + Ranks(locations, ex, 0, |locations|) == Ranks(locations, ex, 0, |locations|);
    assert [] + Kept(locations, ex, |locations|) == Kept(locations, ex, |locations|);
  }

  /** The five locations of the example below: a depot and two requests. */
  function ExampleLocations(): seq<Loc>
  {
    [Loc(0.0, 0.0), Loc(1.0, 0.0), Loc(2.0, 0.0), Loc(3.0, 0.0), Loc(4.0, 0.0)]
  }

  /** Ignoring two requests of a five-location list returns six locations: each sweep keeps
      the depot and the other request's endpoints. One sweep over both keeps the depot alone. */
  lemma FilterTwiceDuplicates()
    ensures var pairs: seq<Pair> := [(1, 2), (3, 4)];
      |FilterAsWritten(ExampleLocations(), pairs, [0, 1]).0| == 6
      && FilterRequests(ExampleLocations(), pairs, [0, 1]).0 == [Loc(0.0, 0.0)]
  {
    var ls, pairs: seq<Pair> := ExampleLocations(), [(1, 2), (3, 4)];
    assert [0, 1][..1] == [0] && [0][..0] == [] && [0, 1][1] == 1 && [0][0] == 0;
    var ex0, ex1 := [ls[1], ls[2]], [ls[3], ls[4]];
    assert EndpointsOf(ls, pairs[0]) == ex0 && EndpointsOf(ls, pairs[1]) == ex1;
    SweepFirst();
    SweepSecond();
    assert FilterAsWritten(ls, pairs, [0]).0 == Kept(ls, ex0, 5);
    assert Excluded(ls, pairs, [0, 1]) == [] + ex0 + ex1;
    SweepBoth();
  }

  lemma SweepFirst()
    ensures var ls := ExampleLocations(); |Kept(ls, [ls[1], ls[2]], 5)| == 3
  {
    var ls := ExampleLocations();
    var ex := [ls[1], ls[2]];
    assert Kept(ls, ex, 1) == [ls[0]];
    assert Kept(ls, ex, 3) == [ls[0]];
    assert Kept(ls, ex, 5) == [ls[0], ls[3], ls[4]];
  }

  lemma SweepSecond()
    ensures var ls := ExampleLocations(); |Kept(ls, [ls[3], ls[4]], 5)| == 3
  {
    var ls := ExampleLocations();
    var ex := [ls[3], ls[4]];
    assert Kept(ls, ex, 1) == [ls[0]];
    assert Kept(ls, ex, 2) == [ls[0], ls[1]];
    assert Kept(ls, ex, 3) == [ls[0], ls[1], ls[2]];
    assert Kept(ls, ex, 5) == [ls[0], ls[1], ls[2]];
  }

  lemma SweepBoth()
    ensures var ls := ExampleLocations(); Kept(ls, [] + [ls[1], ls[2]] + [ls[3], ls[4]], 5) == [ls[0]]
  {
    var ls := ExampleLocations();
    var ex := [] + [ls[1], ls[2]] + [ls[3], ls[4]];
    assert ex == [ls[1], ls[2], ls[3], ls[4]];
    assert Kept(ls, ex, 1) == [ls[0]];
    assert Kept(ls, ex, 3) == [ls[0]];
  }

  // ---------------------------------------------------------------------------------------
  // Appending requests

  function Min(a: nat, b: nat): nat
  {
    if a <= b then a else b
  }

  /** `zip(include_pickups, include_dropoffs)` flattened: pickup, dropoff, pickup, ... */
  function Interleave(pickups: seq<Loc>, dropoffs: seq<Loc>, k: nat): (ls: seq<Loc>)
    requires k <= |pickups| && k <= |dropoffs|
    ensures |ls| == 2 * k
    ensures forall t :: 0 <= t < k ==> ls[2 * t] == pickups[t] && ls[2 * t + 1] == dropoffs[t]
  {
    if k == 0 then [] else Interleave(pickups, dropoffs, k - 1) + [pickups[k - 1], dropoffs[k - 1]]
  }

  /** All of `zip(pickups, dropoffs)`. */
  function Zipped(pickups: seq<Loc>, dropoffs: seq<Loc>): (ls: seq<Loc>)
    ensures |ls| == 2 * Min(|pickups|, |dropoffs|)
  {
    Interleave(pickups, dropoffs, Min(|pickups|, |dropoffs|))
  }

  /** The pairs `[len(locations)-2, len(locations)-1]` appended after each extension. */
  function NewPairs(base: nat, k: nat): (ps: seq<Pair>)
    ensures |ps| == k && forall t :: 0 <= t < k ==> ps[t] == (base + 2 * t, base + 2 * t + 1)
  {
    if k == 0 then [] else NewPairs(base, k - 1) + [(base + 2 * (k - 1), base + 2 * (k - 1) + 1)]
  }

  /** `for include_location in zip(...): locations.extend(...); assignments.append([...])`. */
  method Include(locations: seq<Loc>, pairs: seq<Pair>, pickups: seq<Loc>, dropoffs: seq<Loc>)
    returns (ls: seq<Loc>, ps: seq<Pair>)
    ensures ls == locations + Zipped(pickups, dropoffs)
    ensures ps == pairs + NewPairs(|locations|, Min(|pickups|, |dropoffs|))
  {
    ls, ps := locations, pairs;
    var t := 0;
    while t < |pickups| && t < |dropoffs|
      invariant t <= Min(|pickups|, |dropoffs|)
      invariant ls == locations + Interleave(pickups, dropoffs, t)
      invariant ps == pairs + NewPairs(|locations|, t)
    {
      ls := ls + [pickups[t], dropoffs[t]];
      ps := ps + [(|ls| - 2, |ls| - 1)];
      t := t + 1;
    }
  }

  /** Each appended request names its own pickup and dropoff, and the pairs stay in range. */
  lemma IncludedRequests(locations: seq<Loc>, pairs: seq<Pair>, pickups: seq<Loc>, dropoffs: seq<Loc>)
    ensures var k, ls := Min(|pickups|, |dropoffs|), locations + Zipped(pickups, dropoffs);
      var ps := pairs + NewPairs(|locations|, k);
      |ls| == |locations| + 2 * k && |ps| == |pairs| + k && (ValidIndices(locations, pairs) ==> ValidIndices(ls, ps))
      && forall t :: 0 <= t < k ==> ls[ps[|pairs| + t].0] == pickups[t] && ls[ps[|pairs| + t].1] == dropoffs[t]
  {
  }

  // ---------------------------------------------------------------------------------------
  // create_distance_matrix and the tour data

  /** The matrix `create_distance_matrix` builds; `round` stands for Python's `round`. */
  function DistanceMatrix(locations: seq<Loc>, round: (real, int) -> real): (m: seq<seq<real>>)
    ensures |m| == |locations| && forall a :: 0 <= a < |m| ==> |m[a]| == |locations|
  {
    seq(|locations|, a requires 0 <= a < |locations| =>
      seq(|locations|, b requires 0 <= b < |locations| => round(ManhattanDistance(locations[a], locations[b]), 2)))
  }

  /** The matrix is square, symmetric, and zero on the diagonal when rounding keeps zero;
      each entry is the rounded taxicab distance. */
  lemma DistanceMatrixShape(locations: seq<Loc>, round: (real, int) -> real)
    ensures var m := DistanceMatrix(locations, round);
      (forall a, b :: 0 <= a < |m| && 0 <= b < |m| ==> m[a][b] == m[b][a])
      && (forall a, b :: 0 <= a < |m| && 0 <= b < |m| ==> m[a][b] == round(ManhattanDistance(locations[a], locations[b]), 2))
      && (round(0.0, 2) == 0.0 ==> forall a :: 0 <= a < |m| ==> m[a][a] == 0.0)
  {
    forall a, b | 0 <= a < |locations| && 0 <= b < |locations| {
      ManhattanSymmetric(locations[a], locations[b]);
    }
  }

  /** `create_distance_matrix(locations)`: two nested append loops. */
  method CreateDistanceMatrix(locations: seq<Loc>, round: (real, int) -> real) returns (m: seq<seq<real>>)
    ensures m == DistanceMatrix(locations, round)
  {
    m := [];
    var a := 0;
    while a < |locations|
      invariant a <= |locations| && |m| == a
      invariant forall i :: 0 <= i < a ==> m[i] == DistanceMatrix(locations, round)[i]
    {
      var row: seq<real> := [];
      var b := 0;
      while b < |locations|
        invariant b <= |locations| && |row| == b
        invariant forall j :: 0 <= j < b ==> row[j] == round(ManhattanDistance(locations[a], locations[j]), 2)
      {
        row := row + [round(ManhattanDistance(locations[a], locations[b]), 2)];
        b := b + 1;
      }
      m := m + [row];
      a := a + 1;
    }
  }

  /** The dictionary handed to the solver. */
  datatype TourData = TourData(distanceMatrix: seq<seq<real>>, pickupsDeliveries: seq<Pair>, numVehicles: int, depot: int)

  /** `create_tour_data(locations, assigned_deliveries)` of the stand-alone tour calculation:
      one vehicle, depot 0, the deliveries passed through. */
  function TourDataFor(locations: seq<Loc>, deliveries: seq<Pair>, round: (real, int) -> real): (d: TourData)
    ensures |d.distanceMatrix| == |locations| && d.pickupsDeliveries == deliveries
    ensures d.numVehicles == 1 && d.depot == 0
  {
    TourData(DistanceMatrix(locations, round), deliveries, 1, 0)
  }

  /** The loop over the locations in `filter_requests_by_index`: the locations that are not
      excluded, in order, and the mapping from their old to their new positions. */
  method Sweep(locations: seq<Loc>, ex: seq<Loc>) returns (ls: seq<Loc>, mapping: map<nat, nat>)
    ensures ls == Kept(locations, ex, |locations|) && mapping == Ranks(locations, ex, 0, |locations|)
  {
    mapping := map[];
    ls := [];
    var j := 0;
    while j < |locations|
      invariant j <= |locations|
      invariant ls == Kept(locations, ex, j) && mapping == Ranks(locations, ex, 0, j)
    {
      RanksStep(locations, ex, 0, j);
      if locations[j] !in ex {
        mapping := mapping[j := |ls|];
        ls := ls + [locations[j]];
      }
      j := j + 1;
    }
  }

  /** A carrier's tour problem: its locations (depot first) and requests. The agent
      infrastructure fixes one vehicle and depot 0; the application reads both from its
      configuration, the depot from the `num_vehicles` key. */
  class AlgorithmBase {
    var locations: seq<Loc>
    var assignments: seq<Pair>
    const numVehicles: int
    const depot: int

    constructor Infra(locations: seq<Loc>, assignments: seq<Pair>)
      ensures this.locations == locations && this.assignments == assignments
      ensures numVehicles == 1 && depot == 0
    {
      this.locations, this.assignments := locations, assignments;
      numVehicles, depot := 1, 0;
    }

    constructor Application(locations: seq<Loc>, assignments: seq<Pair>, configNumVehicles: int)
      ensures this.locations == locations && this.assignments == assignments
      ensures numVehicles == configNumVehicles && depot == configNumVehicles
    {
      this.locations, this.assignments := locations, assignments;
      numVehicles, depot := configNumVehicles, configNumVehicles;
    }

    /** `filter_requests_by_index(ignore)` with the sweep done once for all ignored requests. */
    method FilterRequestsByIndex(ignore: seq<nat>) returns (ls: seq<Loc>, ps: seq<Pair>)
      requires IgnorableBy(locations, assignments, ignore)
      ensures (ls, ps) == FilterRequests(locations, assignments, ignore)
    {
      var ex := Excluded(locations, assignments, ignore);
      var mapping;
      ls, mapping := Sweep(locations, ex);
      ps := Renumber(assignments, mapping);
    }

    /** `create_tour_data(ignore_indices, include_pickups, include_dropoffs)`. Without ignored
        requests the lists extended are the object's own, so included requests stay in its
        location and request lists afterwards. */
    method CreateTourData(ignore: seq<nat>, pickups: seq<Loc>, dropoffs: seq<Loc>, round: (real, int) -> real)
      returns (data: TourData)
      requires IgnorableBy(locations, assignments, ignore)
      modifies this
      ensures var (ls, ps) := if ignore == [] then (old(locations), old(assignments)) else FilterRequests(old(locations), old(assignments), ignore);
        var k := Min(|pickups|, |dropoffs|);
        data == TourData(DistanceMatrix(ls + Zipped(pickups, dropoffs), round), ps + NewPairs(|ls|, k), numVehicles, depot)
        && (if ignore == [] then locations == ls + Zipped(pickups, dropoffs) && assignments == ps + NewPairs(|ls|, k)
            else locations == old(locations) && assignments == old(assignments))
    {
      var ls, ps;
      if ignore != [] {
        ls, ps := FilterRequestsByIndex(ignore);
      } else {
        ls, ps := locations, assignments;
      }
      ls, ps := Include(ls, ps, pickups, dropoffs);
      if ignore == [] {
        locations, assignments := ls, ps;
      }
      var matrix := CreateDistanceMatrix(ls, round);
      data := TourData(matrix, ps, numVehicles, depot);
    }

    /** `update_locations_and_assignments(...)` with the request list the code means: ignored
        requests are filtered out of the object's lists and included ones appended. */
    method UpdateLocationsAndAssignments(ignore: seq<nat>, pickups: seq<Loc>, dropoffs: seq<Loc>)
      requires IgnorableBy(locations, assignments, ignore)
      modifies this
      ensures var (ls, ps) := if ignore == [] then (old(locations), old(assignments)) else FilterRequests(old(locations), old(assignments), ignore);
        locations == ls + Zipped(pickups, dropoffs) && assignments == ps + NewPairs(|ls|, Min(|pickups|, |dropoffs|))
      ensures old(ValidIndices(locations, assignments)) ==> ValidIndices(locations, assignments)
    {
      if ignore != [] {
        locations, assignments := FilterRequestsByIndex(ignore);
        FilterRequestsSpec(old(locations), old(assignments), ignore);
      }
      IncludedRequests(locations, assignments, pickups, dropoffs);
      locations, assignments := Include(locations, assignments, pickups, dropoffs);
    }
  }

  /** `update_locations_and_assignments` as written: the loop extends `self.locations` and then
      appends to the misspelt `self.assignmets`, which raises AttributeError on the first
      included request. Result: the lists left behind, and whether it raised. */
  function UpdateAsWritten(locations: seq<Loc>, pairs: seq<Pair>, ignore: seq<nat>, pickups: seq<Loc>, dropoffs: seq<Loc>)
    : (r: (seq<Loc>, seq<Pair>, bool))
    requires IgnorableBy(locations, pairs, ignore)
    ensures r.2 <==> Min(|pickups|, |dropoffs|) > 0
    ensures r.2 ==> |r.0| == |FilterOrKeep(locations, pairs, ignore).0| + 2 && r.1 == FilterOrKeep(locations, pairs, ignore).1
  {
    var (ls, ps) := FilterOrKeep(locations, pairs, ignore);
    if pickups != [] && dropoffs != [] then (ls + [pickups[0], dropoffs[0]], ps, true)
    else (ls, ps, false)
  }

  /** The lists `update_locations_and_assignments` goes on from: filtered as written when
      requests are ignored, the object's own otherwise. */
  function FilterOrKeep(locations: seq<Loc>, pairs: seq<Pair>, ignore: seq<nat>): (seq<Loc>, seq<Pair>)
    requires IgnorableBy(locations, pairs, ignore)
  {
    if ignore == [] then (locations, pairs)
    else
      var (ls, m) := FilterAsWritten(locations, pairs, ignore);
      (ls, Renumber(pairs, m))
  }

  /** Including one request into an empty problem leaves a location list of two entries and
      no request naming them. */
  lemma MisspeltAssignments()
    ensures var r := UpdateAsWritten([], [], [], [Loc(1.0, 1.0)], [Loc(2.0, 2.0)]);
      r.2 && |r.0| == 2 && r.1 == []
  {
  }
}
