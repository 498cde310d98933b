/** A carrier's view of its transport requests: the location list and request pairs handed to
    the tour optimiser, the requests it puts on auction, its bid, and how auction results
    change its offer list. */
module Routing {
  import opened Common
  import opened Ledger
  import opened Utilities
  import opened Algorithm

  // ---------------------------------------------------------------------------------------
  // get_locations_and_assignmets

  /** A request stays in the carrier's tour while it is unsold or sold to the carrier itself. */
  predicate Contributes(s: OfferState, carrierId: string)
  {
    s.winner == NONE || s.winner == carrierId
  }

  function Contributing(ss: seq<OfferState>, carrierId: string): seq<OfferState>
  {
    Filter(ss, (s: OfferState) => Contributes(s, carrierId))
  }

  /** The tour the loop of `get_locations_and_assignmets` builds: the depot, then the pickup and
      the dropoff of each contributing offer, with the pair of their indices. */
  function TourOf(depot: Loc, ss: seq<OfferState>, carrierId: string): (r: (seq<Loc>, seq<Pair>))
  {
    if ss == [] then ([depot], [])
    else
      var n := |ss| - 1;
      var (ls, ps) := TourOf(depot, ss[..n], carrierId);
      if Contributes(ss[n], carrierId) then (ls + [ss[n].pickup, ss[n].dropoff], ps + [(|ls|, |ls| + 1)])
      else (ls, ps)
  }

  /** The tour has the shape `Shaped` describes, for the contributing offers. */
  lemma {:induction false} TourShape(depot: Loc, ss: seq<OfferState>, carrierId: string)
    ensures Shaped(TourOf(depot, ss, carrierId).0, TourOf(depot, ss, carrierId).1, Contributing(ss, carrierId), depot)
  {
    if ss != [] {
      var n := |ss| - 1;
      var init := ss[..n];
      TourShape(depot, init, carrierId);
      assert ss == init + [ss[n]];
      FilterAppend(init, ss[n], (s: OfferState) => Contributes(s, carrierId));
      var (ls, ps) := TourOf(depot, init, carrierId);
      if Contributes(ss[n], carrierId) {
        ShapedStep(ls, ps, Contributing(init, carrierId), depot, ss[n]);
      }
    }
  }

  /** Depot first; with k offers there are 2k+1 locations and k pairs, pair t is (2t+1, 2t+2)
      and names the t-th offer's pickup and dropoff. */
  predicate Shaped(ls: seq<Loc>, ps: seq<Pair>, cs: seq<OfferState>, depot: Loc)
  {
    |ls| == 2 * |cs| + 1 && |ps| == |cs| && ls[0] == depot
    && (forall t :: 0 <= t < |cs| ==> ps[t] == (2 * t + 1, 2 * t + 2))
    && (forall t :: 0 <= t < |cs| ==> ls[2 * t + 1] == cs[t].pickup && ls[2 * t + 2] == cs[t].dropoff)
  }

  /** Appending one offer's pickup and dropoff keeps the shape. */
  lemma ShapedStep(ls: seq<Loc>, ps: seq<Pair>, cs: seq<OfferState>, depot: Loc, s: OfferState)
    requires Shaped(ls, ps, cs, depot)
    ensures Shaped(ls + [s.pickup, s.dropoff], ps + [(|ls|, |ls| + 1)], cs + [s], depot)
  {
  }

  /** The loop of `get_locations_and_assignmets`. */
  method CollectTour(offers: seq<Offer>, depot: Loc, carrierId: string) returns (ls: seq<Loc>, ps: seq<Pair>)
    ensures (ls, ps) == TourOf(depot, States(offers), carrierId)
  {
    ghost var ss := States(offers);
    ls, ps := [depot], [];
    var i := 0;
    while i < |offers|
      invariant i <= |offers| && (ls, ps) == TourOf(depot, ss[..i], carrierId)
    {
      assert ss[..i + 1][..i] == ss[..i] && ss[..i + 1][i] == ss[i] == offers[i].State();
      var offer := offers[i];
      if offer.winner == NONE || offer.winner == carrierId {
        ghost var before := ls;
        var pickupIndex := |ls|;
        ls := ls + [offer.pickup];
        var dropoffIndex := |ls|;
        ls := ls + [offer.dropoff];
        ps := ps + [(pickupIndex, dropoffIndex)];
        assert ls == before + [offer.pickup, offer.dropoff];
      }
      i := i + 1;
    }
    assert ss[..i] == ss;
  }

  // ---------------------------------------------------------------------------------------
  // get_offers_on_auction

  /** The positions of the offers on auction, ascending. */
  function OnAuctionAt(ss: seq<OfferState>): (idx: seq<nat>)
    ensures forall k :: 0 <= k < |idx| ==> idx[k] < |ss| && ss[idx[k]].onAuction
    ensures forall i :: 0 <= i < |ss| && ss[i].onAuction ==> i in idx
    ensures forall k, l :: 0 <= k < l < |idx| ==> idx[k] < idx[l]
  {
    if ss == [] then []
    else
      var n := |ss| - 1;
      var idx0 := OnAuctionAt(ss[..n]);
      assert forall k :: 0 <= k < |idx0| ==> ss[..n][idx0[k]] == ss[idx0[k]];
      idx0 + (if ss[n].onAuction then [n] else [])
  }

  /** `get_offers_on_auction()`. */
  method GetOffersOnAuction(offers: seq<Offer>) returns (idx: seq<nat>)
    ensures idx == OnAuctionAt(States(offers))
  {
    ghost var ss := States(offers);
    idx := [];
    var i := 0;
    while i < |offers|
      invariant i <= |offers| && idx == OnAuctionAt(ss[..i])
    {
      assert ss[..i + 1][..i] == ss[..i];
      if offers[i].onAuction {
        idx := idx + [i];
      }
      i := i + 1;
    }
    assert ss[..i] == ss;
  }

  // ---------------------------------------------------------------------------------------
  // get_requests_below_threshold

  /** The price floors of a list of offers. */
  function Reserves(ss: seq<OfferState>): (rs: seq<real>)
    ensures |rs| == |ss| && forall i :: 0 <= i < |ss| ==> rs[i] == ss[i].reserve
  {
    seq(|ss|, i requires 0 <= i < |ss| => ss[i].reserve)
  }

  /** The state an offer has after the threshold selection. */
  function Marked(s: OfferState, thresh: real): OfferState
  {
    if s.reserve < thresh then s.(onAuction := true) else s
  }

  /** `get_requests_below_threshold()` of the application as written: the loop compares
      `offer.profit`, which the application's offer does not have, so the first offer raises
      AttributeError. Result: the positions selected, or `None` where it raises. */
  function RequestsBelowAsWritten(ss: seq<OfferState>, thresh: real): (r: Option<seq<nat>>)
    ensures r.None? <==> ss != []
    ensures r.Some? ==> r.value == IndicesBelow(Reserves(ss), thresh) == []
  {
    if ss == [] then Some([]) else None
  }

  /** One offer with price floor 10 and a threshold of 100: as written the call raises, while
      the selection by the floor puts the offer on auction. */
  lemma ProfitAttributeRaises()
    ensures var s := OfferState("c1", "o1", Loc(0.0, 0.0), Loc(1.0, 1.0), 10.0, 50.0, None, [], false, NONE, NoPrice);
      RequestsBelowAsWritten([s], 100.0).None? && IndicesBelow(Reserves([s]), 100.0) == [0]
      && Marked(s, 100.0).onAuction
  {
    var s := OfferState("c1", "o1", Loc(0.0, 0.0), Loc(1.0, 1.0), 10.0, 50.0, None, [], false, NONE, NoPrice);
    assert Reserves([s])[..0] == [];
  }

  /** The selection made so far over the first `i` offers. */
  ghost predicate SelectedSoFar(offers: seq<Offer>, rs: seq<real>, thresh: real, i: nat, selected: seq<Offer>, idx: seq<nat>)
    requires i <= |rs|
  {
    idx == IndicesBelow(rs[..i], thresh)
    && |selected| == |idx| && forall k :: 0 <= k < |idx| ==> idx[k] < i && idx[k] < |offers| && selected[k] == offers[idx[k]]
  }

  /** One step of the loop: an offer below the threshold is set on auction and selected. */
  method MarkOne(offers: seq<Offer>, i: nat, thresh: real, ghost rs: seq<real>, selected: seq<Offer>, idx: seq<nat>)
    returns (selected': seq<Offer>, idx': seq<nat>)
    requires Distinct(offers) && i < |offers| == |rs| && rs[i] == offers[i].reserve
    requires SelectedSoFar(offers, rs, thresh, i, selected, idx)
    modifies offers[i]
    ensures SelectedSoFar(offers, rs, thresh, i + 1, selected', idx')
    ensures offers[i].State() == Marked(old(offers[i].State()), thresh)
    ensures forall j :: 0 <= j < |offers| && j != i ==> offers[j].State() == old(offers[j].State())
  {
    assert rs[..i + 1][..i] == rs[..i];
    IndicesBelowStep(rs[..i + 1], thresh);
    selected', idx' := selected, idx;
    if offers[i].reserve < thresh {
      offers[i].onAuction := true;
      selected' := selected + [offers[i]];
      idx' := idx + [i];
    }
  }

  /** The loop of `get_requests_below_threshold`: offers whose profit is below the threshold
      are set on auction, returned in order, and their positions collected. */
  method MarkBelow(offers: seq<Offer>, thresh: real) returns (selected: seq<Offer>, idx: seq<nat>)
    requires Distinct(offers)
    modifies set o | o in offers
    ensures idx == IndicesBelow(Reserves(old(States(offers))), thresh)
    ensures |selected| == |idx| && forall k :: 0 <= k < |idx| ==> selected[k] == offers[idx[k]]
    ensures forall j :: 0 <= j < |offers| ==> offers[j].State() == Marked(old(offers[j].State()), thresh)
  {
    ghost var ss := States(offers);
    ghost var rs := Reserves(ss);
    selected, idx := [], [];
    var i := 0;
    while i < |offers|
      invariant i <= |offers| && SelectedSoFar(offers, rs, thresh, i, selected, idx)
      invariant forall j :: 0 <= j < |offers| ==> offers[j].State() == if j < i then Marked(ss[j], thresh) else ss[j]
    {
      selected, idx := MarkOne(offers, i, thresh, rs, selected, idx);
      i := i + 1;
    }
    assert rs[..i] == rs;
  }

  // ---------------------------------------------------------------------------------------
  // update_offer_list and add_offer

  /** An auction result as the carrier receives it. */
  datatype OfferUpdate = OfferUpdate(offeror: string, offerId: string, pickup: Loc, dropoff: Loc, revenue: real,
                                     winner: string, winningBid: Price)

  /** The state of the offer `add_offer(update)` builds: owned by the offeror, not on auction,
      unsold. The price floor is 0 (see README). */
  function NewOfferState(u: OfferUpdate): OfferState
  {
    OfferState(u.offeror, u.offerId, u.pickup, u.dropoff, 0.0, u.revenue, None, [], false, NONE, NoPrice)
  }

  /** One offer after the result has been copied onto offers with the same id. */
  function WithResult(s: OfferState, u: OfferUpdate): OfferState
  {
    if s.offerId == u.offerId then s.(winner := u.winner, winningBid := u.winningBid) else s
  }

  /** Every offer after the result has been copied onto those with its id. */
  function ResultApplied(ss: seq<OfferState>, u: OfferUpdate): seq<OfferState>
  {
    seq(|ss|, i requires 0 <= i < |ss| => WithResult(ss[i], u))
  }

  /** The offer list after `update_offer_list(update)` when the branch is chosen by comparing the
      carrier's id with `key`: the update's offeror in the application, the update's offer id
      in the agent infrastructure. */
  function UpdatedStates(ss: seq<OfferState>, carrierId: string, key: string, u: OfferUpdate): seq<OfferState>
  {
    if carrierId == key then ResultApplied(ss, u) else ss + [NewOfferState(u)]
  }

  /** A result for one's own offer changes winner and winning bid of the offers with that id
      and nothing else; any other result appends exactly one new unsold offer. */
  lemma UpdatedStatesSpec(ss: seq<OfferState>, carrierId: string, key: string, u: OfferUpdate)
    ensures var r := UpdatedStates(ss, carrierId, key, u);
      if carrierId == key then
        |r| == |ss| && forall i :: 0 <= i < |ss| ==>
          r[i].(winner := ss[i].winner, winningBid := ss[i].winningBid) == ss[i]
          && (r[i].winner, r[i].winningBid) == if ss[i].offerId == u.offerId then (u.winner, u.winningBid) else (ss[i].winner, ss[i].winningBid)
      else
        |r| == |ss| + 1 && r[..|ss|] == ss && r[|ss|].offerId == u.offerId && r[|ss|].carrierId == u.offeror
        && !r[|ss|].onAuction && r[|ss|].winner == NONE
  {
    if carrierId != key {
      assert (ss + [NewOfferState(u)])[..|ss|] == ss;
    }
  }

  /** A carrier reporting the result of its own offer "o1" under the id comparison of the agent
      infrastructure gets a second copy of the offer instead of the result. */
  lemma OwnResultAppended()
    ensures var s := OfferState("c1", "o1", Loc(0.0, 0.0), Loc(1.0, 1.0), 5.0, 20.0, None, [("c2", 30.0)], true, NONE, NoPrice);
      var u := OfferUpdate("c1", "o1", Loc(0.0, 0.0), Loc(1.0, 1.0), 20.0, "c2", Amount(30.0));
      |UpdatedStates([s], "c1", u.offerId, u)| == 2 && UpdatedStates([s], "c1", u.offerId, u)[0].winner == NONE
      && UpdatedStates([s], "c1", u.offeror, u) == [s.(winner := "c2", winningBid := Amount(30.0))]
  {
  }

  /** The optimiser object of a new routing object, built from the offers' tour. */
  method NewTour(offers: seq<Offer>, depot: Loc, carrierId: string) returns (t: AlgorithmBase)
    ensures fresh(t) && (t.locations, t.assignments) == TourOf(depot, States(offers), carrierId)
  {
    var ls, ps := CollectTour(offers, depot, carrierId);
    t := new AlgorithmBase.Infra(ls, ps);
  }

  /** Copy the result onto offer `i` of the list; no other offer of the list changes. */
  method SetResult(offers: seq<Offer>, i: nat, u: OfferUpdate)
    requires Distinct(offers) && i < |offers|
    modifies offers[i]
    ensures offers[i].State() == WithResult(old(offers[i].State()), u)
    ensures forall j :: 0 <= j < |offers| && j != i ==> offers[j].State() == old(offers[j].State())
  {
    var o := offers[i];
    if u.offerId == o.offerId {
      o.winner := u.winner;
      o.winningBid := u.winningBid;
    }
  }

  /** `for offer in self.offers: if update['offer_id'] == offer.offer_id: ...`. */
  method ApplyResult(offers: seq<Offer>, u: OfferUpdate)
    requires Distinct(offers)
    modifies set o | o in offers
    ensures States(offers) == ResultApplied(old(States(offers)), u)
  {
    ghost var before := States(offers);
    var i := 0;
    while i < |offers|
      invariant i <= |offers|
      invariant forall j :: 0 <= j < |offers| ==> offers[j].State() == if j < i then WithResult(before[j], u) else before[j]
    {
      SetResult(offers, i, u);
      i := i + 1;
    }
    ghost var after := States(offers);
    assert forall j :: 0 <= j < |offers| ==> after[j] == WithResult(before[j], u);
  }

  /** `add_offer(update)`. */
  method AddOffer(u: OfferUpdate) returns (o: Offer)
    ensures fresh(o) && o.State() == NewOfferState(u)
  {
    o := new Offer(u.offeror, u.offerId, u.pickup, u.dropoff, 0.0, u.revenue);
  }

  /** `self.offers.append(self.add_offer(update))`: one new unsold offer at the end. */
  method AppendNewOffer(offers: seq<Offer>, u: OfferUpdate) returns (os: seq<Offer>)
    requires Distinct(offers)
    ensures Distinct(os) && |os| == |offers| + 1 && os[..|offers|] == offers && fresh(os[|offers|])
    ensures States(os) == States(offers) + [NewOfferState(u)]
  {
    var o := AddOffer(u);
    os := offers + [o];
    assert os[..|offers|] == offers;
  }

  /** `calculate_bid(loc_pickup, loc_dropoff, revenue)` of the application: the computation
      from the tour is disabled and every request is bid 190. */
  function CalculateBid(pickup: Loc, dropoff: Loc, revenue: real): (bid: real)
  {
    190.0
  }

  /** The bid depends on nothing. */
  lemma CalculateBidConstant(p0: Loc, d0: Loc, r0: real, p1: Loc, d1: Loc, r1: real)
    ensures CalculateBid(p0, d0, r0) == CalculateBid(p1, d1, r1) == 190.0
  {
  }

  // ---------------------------------------------------------------------------------------
  // The carrier's routing object

  class Routing {
    const carrierId: string
    var offers: seq<Offer>
    const depot: Loc
    var onAuctionIndices: seq<nat>
    /** The optimiser's data: the class derives from `AlgorithmBase`. */
    const tour: AlgorithmBase

    ghost predicate Valid()
      reads this
    {
      Distinct(offers)
    }

    /** The offer list comes from the request table; the locations and pairs of the base are
        then computed from it. */
    constructor (carrierId: string, offers: seq<Offer>, depot: Loc)
      requires offers != [] && Distinct(offers)
      ensures Valid() && this.carrierId == carrierId && this.offers == offers && this.depot == depot
      ensures onAuctionIndices == [] && fresh(tour)
      ensures (tour.locations, tour.assignments) == TourOf(depot, old(States(offers)), carrierId)
    {
      var t := NewTour(offers, depot, carrierId);
      ghost var r := (t.locations, t.assignments);
      this.carrierId, this.offers, this.depot := carrierId, offers, depot;
      onAuctionIndices := [];
      tour := t;
      new;
      assert (tour.locations, tour.assignments) == r;
    }

    /** `get_locations_and_assignmets()`. */
    method GetLocationsAndAssignments() returns (ls: seq<Loc>, ps: seq<Pair>)
      ensures (ls, ps) == TourOf(depot, States(offers), carrierId)
    {
      ls, ps := CollectTour(offers, depot, carrierId);
    }

    /** `get_requests_below_threshold()` of the application, `thresh` being the cost model's
        selling threshold: the selected offers are set on auction and their positions appended
        to `on_auction_indices`; the other offers are unchanged. */
    method GetRequestsBelowThreshold(thresh: real) returns (selected: seq<Offer>)
      requires Valid()
      modifies this, set o | o in offers
      ensures offers == old(offers) && Valid()
      ensures onAuctionIndices == old(onAuctionIndices) + IndicesBelow(Reserves(old(States(offers))), thresh)
      ensures var idx := IndicesBelow(Reserves(old(States(offers))), thresh);
        |selected| == |idx| && forall k :: 0 <= k < |idx| ==> selected[k] == offers[idx[k]]
      ensures forall j :: 0 <= j < |offers| ==> offers[j].State() == Marked(old(offers[j].State()), thresh)
    {
      var idx;
      selected, idx := MarkBelow(offers, thresh);
      onAuctionIndices := onAuctionIndices + idx;
    }

    /** `update_offer_list(update)` of the application: a result for one of the carrier's own
        offers is copied onto it; a request won from another carrier is appended. */
    method UpdateOfferList(u: OfferUpdate)
      requires Valid()
      modifies this, set o | o in offers
      ensures Valid()
      ensures States(offers) == UpdatedStates(old(States(offers)), carrierId, u.offeror, u)
      ensures carrierId == u.offeror ==> offers == old(offers)
      ensures carrierId != u.offeror ==> |offers| == |old(offers)| + 1 && offers[..|old(offers)|] == old(offers) && fresh(offers[|old(offers)|])
      ensures onAuctionIndices == old(onAuctionIndices)
    {
      ghost var before := States(offers);
      if carrierId == u.offeror {
        ApplyResult(offers, u);
        ghost var after := States(offers);
        assert after == UpdatedStates(before, carrierId, u.offeror, u);
      } else {
        ReceiveWonOffer(u);
      }
    }

    /** The second branch of `update_offer_list`: the won request is appended as a new offer. */
    method ReceiveWonOffer(u: OfferUpdate)
      requires Valid()
      modifies this
      ensures Valid()
      ensures States(offers) == old(States(offers)) + [NewOfferState(u)]
      ensures |offers| == |old(offers)| + 1 && offers[..|old(offers)|] == old(offers) && fresh(offers[|old(offers)|])
      ensures onAuctionIndices == old(onAuctionIndices)
    {
      var os := AppendNewOffer(offers, u);
      label appended:
      offers := os;
      StatesUnchanged@appended(os);
    }
  }
}
