/** The web application's cost model: per-request revenue from the distance between its pickup
    and its dropoff, per-request cost from how much shorter the optimal tour gets without the
    request, and the profit as their difference. The tour optimizer and Python's `round` are
    parameters. */
module CostModel {
  import opened Common
  import opened Utilities
  import opened Algorithm

  /** `del s[k]`. */
  function Delete<T>(s: seq<T>, k: nat): (r: seq<T>)
    requires k < |s|
    ensures |r| == |s| - 1
    ensures forall j :: 0 <= j < k ==> r[j] == s[j]
    ensures forall j :: k <= j < |r| ==> r[j] == s[j + 1]
  {
    s[..k] + s[k + 1..]
  }

  /** The locations without request i, whose pickup and dropoff stand at 2i+1 and 2i+2. */
  function WithoutRequest(locations: seq<Loc>, i: nat): (r: seq<Loc>)
    requires 2 * i + 2 < |locations|
    ensures |r| == |locations| - 2
    ensures forall j :: 0 <= j <= 2 * i ==> r[j] == locations[j]
    ensures forall j :: 2 * i + 1 <= j < |r| ==> r[j] == locations[j + 2]
  {
    locations[..2 * i + 1] + locations[2 * i + 3..]
  }

  /** With the numbering that `assign_deliveries` and `process_excel` produce, removing request
      i and then the last pair leaves every other request pointing at its own pickup and
      dropoff: the pairs after i move down by one, exactly as their locations do. */
  lemma {:induction false} RemainingRequestsIntact(locations: seq<Loc>, n: nat, i: nat)
    requires i < n && 2 * n < |locations|
    ensures var ds := NewPairs(1, n); var rest := ds[..n - 1]; var ls := WithoutRequest(locations, i);
      rest == NewPairs(1, n - 1)
      && forall j :: 0 <= j < n - 1 ==>
           var k := if j < i then j else j + 1;
           rest[j].1 < |ls| && ls[rest[j].0] == locations[ds[k].0] && ls[rest[j].1] == locations[ds[k].1]
  {
    var ds := NewPairs(1, n);
    var rest := ds[..n - 1];
    assert rest == NewPairs(1, n - 1);
    var ls := WithoutRequest(locations, i);
    forall j | 0 <= j < n - 1
      ensures var k := if j < i then j else j + 1;
        rest[j].1 < |ls| && ls[rest[j].0] == locations[ds[k].0] && ls[rest[j].1] == locations[ds[k].1]
    {
      assert rest[j] == (2 * j + 1, 2 * j + 2);
      if j < i {
        assert ds[j] == (2 * j + 1, 2 * j + 2);
      } else {
        assert ds[j + 1] == (2 * j + 3, 2 * j + 4);
        assert ls[2 * j + 1] == locations[2 * j + 3] && ls[2 * j + 2] == locations[2 * j + 4];
      }
    }
  }

  /** `request_distance` turned into a price: `round(loading + kilometer * (d / 1000), 2)`. */
  function RequestCost(loadingCost: real, kilometerCost: real, requestDistance: real,
                       round: (real, int) -> real): real
  {
    round(loadingCost + kilometerCost * (requestDistance / 1000.0), 2)
  }

  /** `get_cost_list(...)`: cost i prices the distance that request i adds to the total tour,
      the optimizer being asked for the tour of the locations without request i and of the
      deliveries without their last pair. The input lists are left as they are. */
  method GetCostList(locations: seq<Loc>, deliveries: seq<Pair>, distanceTotal: real,
                     loadingCost: real, kilometerCost: real,
                     tourDistance: (seq<Loc>, seq<Pair>) -> real, round: (real, int) -> real)
    returns (costs: seq<real>)
    requires 2 * |deliveries| < |locations|
    ensures |costs| == |deliveries|
    ensures forall i :: 0 <= i < |costs| ==>
              costs[i] == RequestCost(loadingCost, kilometerCost,
                                      distanceTotal - tourDistance(WithoutRequest(locations, i), deliveries[..|deliveries| - 1]),
                                      round)
  {
    costs := [];
    var multiplier := 0;
    var i := 0;
    while i < |deliveries|
      invariant i <= |deliveries| && multiplier == i && |costs| == i
      invariant forall k :: 0 <= k < i ==>
                  costs[k] == RequestCost(loadingCost, kilometerCost,
                                          distanceTotal - tourDistance(WithoutRequest(locations, k), deliveries[..|deliveries| - 1]),
                                          round)
    {
      var locationsWithoutRequest := locations;
      locationsWithoutRequest := Delete(locationsWithoutRequest, i + 1 + multiplier);
      locationsWithoutRequest := Delete(locationsWithoutRequest, i + 1 + multiplier);
      assert locationsWithoutRequest == WithoutRequest(locations, i);
      var deliveriesWithoutRequest := Delete(deliveries, |deliveries| - 1);
      assert deliveriesWithoutRequest == deliveries[..|deliveries| - 1];
      var distanceWithoutRequest := tourDistance(locationsWithoutRequest, deliveriesWithoutRequest);
      var requestDistance := distanceTotal - distanceWithoutRequest;
      var cost := RequestCost(loadingCost, kilometerCost, requestDistance, round);
      costs := costs + [cost];
      multiplier := multiplier + 1;
      i := i + 1;
    }
  }

  /** `node_distance`: the Manhattan distance of two locations, rounded to two places. */
  function NodeDistance(a: Loc, b: Loc, round: (real, int) -> real): real
  {
    round(ManhattanDistance(a, b), 2)
  }

  function Price(basePrice: real, kilometerPrice: real, nodeDistance: real, round: (real, int) -> real): real
  {
    round(basePrice + kilometerPrice * (nodeDistance / 1000.0), 2)
  }

  /** `round(base + kilometer * (node_distance / 1000), 2)` for the request from `a` to `b`. */
  function RequestRevenue(basePrice: real, kilometerPrice: real, a: Loc, b: Loc,
                          round: (real, int) -> real): real
  {
    Price(basePrice, kilometerPrice, NodeDistance(a, b, round), round)
  }

  /** Without rounding, a request pays at least the base price, and more exactly when it has a
      positive kilometer price and its pickup and dropoff differ. */
  lemma RevenueAtLeastBase(basePrice: real, kilometerPrice: real, a: Loc, b: Loc,
                           round: (real, int) -> real)
    requires kilometerPrice >= 0.0
    requires forall x: real :: round(x, 2) == x
    ensures RequestRevenue(basePrice, kilometerPrice, a, b, round) >= basePrice
    ensures RequestRevenue(basePrice, kilometerPrice, a, b, round) > basePrice <==> kilometerPrice > 0.0 && a != b
  {
    var d := ManhattanDistance(a, b);
    assert NodeDistance(a, b, round) == d;
    assert RequestRevenue(basePrice, kilometerPrice, a, b, round) == basePrice + kilometerPrice * (d / 1000.0);
    if kilometerPrice > 0.0 && a != b {
      assert d / 1000.0 > 0.0;
    }
  }

  /** `get_revenue_list(...)`: revenue i prices the distance between locations 2i+1 and 2i+2,
      the `multiplier` counter turning i into those positions. */
  method GetRevenueList(locations: seq<Loc>, deliveries: seq<Pair>, basePrice: real,
                        kilometerPrice: real, round: (real, int) -> real)
    returns (revenues: seq<real>)
    requires 2 * |deliveries| < |locations|
    ensures |revenues| == |deliveries|
    ensures forall i :: 0 <= i < |revenues| ==>
              revenues[i] == RequestRevenue(basePrice, kilometerPrice, locations[2 * i + 1], locations[2 * i + 2], round)
  {
    revenues := [];
    var multiplier := 0;
    var i := 0;
    while i < |deliveries|
      invariant i <= |deliveries| && multiplier == i && |revenues| == i
      invariant forall k :: 0 <= k < i ==>
                  revenues[k] == RequestRevenue(basePrice, kilometerPrice, locations[2 * k + 1], locations[2 * k + 2], round)
    {
      var firstNode := locations[i + 1 + multiplier];
      var secondNode := locations[i + 2 + multiplier];
      var nodeDistance := round(Abs(firstNode.x - secondNode.x) + Abs(firstNode.y - secondNode.y), 2);
      assert nodeDistance == NodeDistance(firstNode, secondNode, round);
      var revenue := Price(basePrice, kilometerPrice, nodeDistance, round);
      revenues := revenues + [revenue];
      multiplier := multiplier + 1;
      i := i + 1;
    }
  }

  /** With the numbering of `assign_deliveries`, revenue i is the price of request i's own pickup
      and dropoff, whichever way round it is travelled. */
  lemma RevenueOfRequest(locations: seq<Loc>, n: nat, i: nat, basePrice: real, kilometerPrice: real,
                         round: (real, int) -> real)
    requires i < n && 2 * n < |locations|
    ensures var d := NewPairs(1, n)[i];
      d.1 < |locations|
      && RequestRevenue(basePrice, kilometerPrice, locations[2 * i + 1], locations[2 * i + 2], round)
         == RequestRevenue(basePrice, kilometerPrice, locations[d.0], locations[d.1], round)
         == RequestRevenue(basePrice, kilometerPrice, locations[d.1], locations[d.0], round)
  {
    var d := NewPairs(1, n)[i];
    assert d == (2 * i + 1, 2 * i + 2);
    RequestRevenueSymmetric(basePrice, kilometerPrice, locations[d.0], locations[d.1], round);
  }

  lemma RequestRevenueSymmetric(basePrice: real, kilometerPrice: real, a: Loc, b: Loc,
                                round: (real, int) -> real)
    ensures RequestRevenue(basePrice, kilometerPrice, a, b, round)
         == RequestRevenue(basePrice, kilometerPrice, b, a, round)
  {
    ManhattanSymmetric(a, b);
    assert NodeDistance(a, b, round) == NodeDistance(b, a, round);
  }

  function Profit(revenue: real, cost: real, round: (real, int) -> real): real
  {
    round(revenue - cost, 2)
  }

  /** Without rounding, a request is profitable exactly when its revenue exceeds its cost. */
  lemma ProfitSign(revenue: real, cost: real, round: (real, int) -> real)
    requires forall x: real :: round(x, 2) == x
    ensures Profit(revenue, cost, round) > 0.0 <==> revenue > cost
    ensures Profit(revenue, cost, round) + cost == revenue
  {
    assert Profit(revenue, cost, round) == revenue - cost;
  }

  /** `get_profit_list(revenues, costs)`: one profit per revenue, the cost of the same index
      subtracted. */
  method GetProfitList(revenues: seq<real>, costs: seq<real>, round: (real, int) -> real)
    returns (profits: seq<real>)
    requires |revenues| <= |costs|
    ensures |profits| == |revenues|
    ensures forall i :: 0 <= i < |profits| ==> profits[i] == Profit(revenues[i], costs[i], round)
  {
    profits := [];
    var i := 0;
    while i < |revenues|
      invariant i <= |revenues| && |profits| == i
      invariant forall k :: 0 <= k < i ==> profits[k] == Profit(revenues[k], costs[k], round)
    {
      profits := profits + [round(revenues[i] - costs[i], 2)];
      i := i + 1;
    }
  }
}
