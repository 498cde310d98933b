/** The auction engine of the application: an ordered list of offers, the registered and the
    active carriers, and the loop that takes every offer through the phases of a lot, round
    after round, until a round ends in which nothing sold and no bid was legal. */
module AppAuctioneer {
  import opened Common
  import opened Dict
  import opened Ledger
  import opened Bundles
  import opened Messages

  /** A Python list of carrier ids. It is an object because the engine's two carrier lists
      become one and the same list once the first lot has been confirmed. */
  class CarrierList {
    var items: seq<string>

    constructor ()
      ensures items == []
    {
      items := [];
    }

    method Append(c: string)
      modifies this
      ensures items == old(items) + [c]
    {
      items := items + [c];
    }
  }

  function Ids(os: seq<Offer>): (ids: seq<string>)
    reads set o | o in os
    ensures |ids| == |os| && forall i :: 0 <= i < |os| ==> ids[i] == os[i].offerId
  {
    if os == [] then [] else Ids(os[..|os| - 1]) + [os[|os| - 1].offerId]
  }

  // ---------------------------------------------------------------------------------------
  // check_active_carriers, one offer at a time

  predicate AllBelow(bids: Assoc<string, real>, reserve: real)
  {
    forall i :: 0 <= i < |bids| ==> bids[i].1 < reserve
  }

  /** An offer whose winner or owner dropped out: it is unsold again, and its bids are dropped
      when none of them reaches the price floor. */
  function Reset(s: OfferState): (t: OfferState)
    ensures t.winner == NONE && t.winningBid == NoPrice
    ensures t.bids == if AllBelow(s.bids, s.reserve) then [] else s.bids
    ensures t == s.(winner := t.winner, winningBid := t.winningBid, bids := t.bids)
  {
    s.(winner := NONE, winningBid := NoPrice, bids := if AllBelow(s.bids, s.reserve) then [] else s.bids)
  }

  lemma ResetIdempotent(s: OfferState)
    ensures Reset(Reset(s)) == Reset(s)
  {
  }

  /** Carrier `r` wins or owns the offer on sale. */
  predicate Implicates(r: string, s: OfferState)
  {
    s.onAuction && (r == s.winner || r == s.carrierId)
  }

  /** The body of the inner loop of `check_active_carriers()` for one offer and one carrier
      that is not active. */
  method PurgeOffer(offer: Offer, register: string, active: seq<string>)
    requires register !in active
    modifies offer
    ensures offer.State() == PurgeStep(old(offer.State()), register, active)
  {
    if offer.onAuction && (register == offer.winner || register == offer.carrierId) {
      offer.winner := NONE;
      offer.winningBid := NoPrice;
      if AllBelow(offer.bids, offer.reserve) {
        offer.bids := [];
      }
    }
  }

  /** What the inner loop does to one offer for one registered carrier. */
  function PurgeStep(s: OfferState, r: string, active: seq<string>): OfferState
  {
    if r !in active && Implicates(r, s) then Reset(s) else s
  }

  /** The offer after the carriers `regs` have been looked at, in order. */
  function PurgeBy(s: OfferState, regs: seq<string>, active: seq<string>): OfferState
  {
    if regs == [] then s else PurgeStep(PurgeBy(s, regs[..|regs| - 1], active), regs[|regs| - 1], active)
  }

  /** Some registered carrier that is not active wins or owns the offer on sale. */
  ghost predicate Dropped(s: OfferState, regs: seq<string>, active: seq<string>)
  {
    exists i :: 0 <= i < |regs| && regs[i] !in active && Implicates(regs[i], s)
  }

  /** Only an offer on sale that a dropped-out carrier wins or owns is reset; every other offer
      keeps its winner, winning bid and bids. */
  lemma {:induction false} PurgeClosedForm(s: OfferState, regs: seq<string>, active: seq<string>)
    ensures PurgeBy(s, regs, active) == if Dropped(s, regs, active) then Reset(s) else s
  {
    if regs != [] {
      var init, r := regs[..|regs| - 1], regs[|regs| - 1];
      PurgeClosedForm(s, init, active);
      if Dropped(s, init, active) {
        ResetIdempotent(s);
        var i :| 0 <= i < |init| && init[i] !in active && Implicates(init[i], s);
        assert regs[i] == init[i];
      } else if r !in active && Implicates(r, s) {
        assert regs[|regs| - 1] == r;
      }
    }
  }

  /** When every registered carrier is active, no offer changes. */
  lemma PurgeAllActive(s: OfferState, regs: seq<string>, active: seq<string>)
    requires forall i :: 0 <= i < |regs| ==> regs[i] in active
    ensures PurgeBy(s, regs, active) == s
  {
    PurgeClosedForm(s, regs, active);
  }

  // ---------------------------------------------------------------------------------------
  // update_auction_list

  /** The offers still for sale: unsold, and offered by a registered carrier. */
  function Kept(os: seq<Offer>, regs: seq<string>): (r: seq<Offer>)
    reads set o | o in os
    ensures |r| <= |os|
  {
    if os == [] then []
    else
      var last := os[|os| - 1];
      Kept(os[..|os| - 1], regs) + (if last.winner == NONE && last.carrierId in regs then [last] else [])
  }

  /** An offer is kept exactly when it is unsold and its owner is registered. */
  lemma {:induction false} KeptExactly(os: seq<Offer>, regs: seq<string>)
    ensures forall o :: o in Kept(os, regs) <==> o in os && o.winner == NONE && o.carrierId in regs
  {
    if os != [] {
      var init := os[..|os| - 1];
      KeptExactly(init, regs);
      assert os == init + [os[|os| - 1]];
    }
  }

  /** Keeping offers in their order keeps a list free of duplicates. */
  lemma {:induction false} KeptDistinct(os: seq<Offer>, regs: seq<string>)
    requires Distinct(os)
    ensures Distinct(Kept(os, regs))
  {
    if os != [] {
      var init, last := os[..|os| - 1], os[|os| - 1];
      KeptDistinct(init, regs);
      KeptExactly(init, regs);
      assert last !in init;
    }
  }

  // ---------------------------------------------------------------------------------------
  // valide_bids_for_unsold_offer

  /** An unsold offer holding a bid above its price floor. */
  predicate HasLegalBid(s: OfferState)
  {
    s.winner == NONE && exists j :: 0 <= j < |s.bids| && s.bids[j].1 > s.reserve
  }

  /** `valide_bids_for_unsold_offer()` as written: it compares each bid of an unsold offer with
      `offer.profit`, an attribute the application's offer does not have, so the first unsold
      offer holding a bid raises AttributeError (`None`); without such an offer the list of flags
      stays empty and the answer is `False`. */
  function ValideBidsAsWritten(ss: seq<OfferState>): (r: Option<bool>)
    ensures r.None? <==> exists i :: 0 <= i < |ss| && ss[i].winner == NONE && |ss[i].bids| > 0
    ensures r.Some? ==> r.value == false
  {
    if ss == [] then Some(false)
    else if ss[0].winner == NONE && |ss[0].bids| > 0 then None
    else
      var rest := ValideBidsAsWritten(ss[1..]);
      assert forall i :: 1 <= i < |ss| ==> ss[i] == ss[1..][i - 1];
      rest
  }

  /** An unsold offer with floor 10 and one bid of 12: `valide_bids_for_unsold_offer` as
      written fails where the intended test, reading the floor, finds a legal bid. */
  lemma ValideBidsCrash()
    ensures var s := OfferState("c1", "o1", Loc(0.0, 0.0), Loc(1.0, 1.0), 10.0, 50.0, None, [("c2", 12.0)], false, NONE, NoPrice);
      ValideBidsAsWritten([s]) == None && HasLegalBid(s)
  {
    var s := OfferState("c1", "o1", Loc(0.0, 0.0), Loc(1.0, 1.0), 10.0, 50.0, None, [("c2", 12.0)], false, NONE, NoPrice);
    assert s.bids[0].1 > s.reserve;
  }

  /** The stage the engine's next step starts from. The lot stages name what their step
      does: announce the offer, open the bidding, publish the result, confirm, retire it. */
  datatype Stage = Waiting | RoundStart | Announce | OpenBidding | Resolve | Confirm | Retire | RoundEnd | Closed
  {
    predicate InLot()
    {
      this in {Announce, OpenBidding, Resolve, Confirm, Retire}
    }
  }

  /** The engine's own variables, apart from its offers and carrier lists. */
  datatype Control = Control(started: bool, nextRound: bool, phase: Phase, bundles: map<int, seq<string>>,
                             idOnAuction: Option<string>, stage: Stage, round: nat, lot: nat, lotCount: nat, sold: nat)

  class Auctioneer {
    var offers: seq<Offer>
    var registered: CarrierList
    var active: CarrierList
    /** A registered carrier has sent an offer (`auction_time` is set). */
    var started: bool
    var nextRound: bool
    var phase: Phase
    var bundles: map<int, seq<string>>
    var idOnAuction: Option<string>
    var stage: Stage
    var round: nat
    var lot: nat
    var lotCount: nat
    var sold: nat
    /** `max_rounds` of the configuration. */
    const maxRounds: nat

    ghost function Vars(): Control
      reads this
    {
      Control(started, nextRound, phase, bundles, idOnAuction, stage, round, lot, lotCount, sold)
    }

    /** The offer list has no duplicates, a lot's index lies below the length the round started
        with, the round below `max_rounds`, and the engine closes only after clearing
        `next_round`. */
    ghost predicate Valid()
      reads this
    {
      Distinct(offers)
      && (stage.InLot() ==> lot < lotCount <= |offers|)
      && (maxRounds > 0 ==> round < maxRounds)
      && (stage == Closed ==> !nextRound)
    }

    constructor (maxRounds: nat)
      ensures Valid() && fresh(registered) && fresh(active) && registered != active
      ensures offers == [] && registered.items == [] && active.items == []
      ensures Vars() == Control(false, true, REGIST, map[], None, Waiting, 0, 0, 0, 0) && this.maxRounds == maxRounds
    {
      offers := [];
      registered := new CarrierList();
      active := new CarrierList();
      started := false;
      nextRound := true;
      phase := REGIST;
      bundles := map[];
      idOnAuction := None;
      stage := Waiting;
      round := 0;
      lot := 0;
      lotCount := 0;
      sold := 0;
      this.maxRounds := maxRounds;
    }

    /** `add_offer(carrier_id, offer)`: a new offer with the payload's profit as its price floor
        is appended to the list. */
    method AddOffer(carrierId: string, payload: OfferPayload)
      modifies this
      ensures |offers| == |old(offers)| + 1 && offers[..|old(offers)|] == old(offers) && fresh(offers[|old(offers)|])
      ensures offers[|old(offers)|].State() == OfferState(carrierId, payload.offerId, payload.pickup, payload.dropoff,
        payload.profit, payload.revenue, None, [], false, NONE, NoPrice)
      ensures old(Distinct(offers)) ==> Distinct(offers)
      ensures registered == old(registered) && active == old(active) && Vars() == old(Vars())
    {
      var offer := new Offer(carrierId, payload.offerId, payload.pickup, payload.dropoff, payload.profit, payload.revenue);
      offers := offers + [offer];
    }

    /** `generate_bundles()`, with `order` the result of `np.argsort` on the revenues. */
    method GenerateBundles(order: seq<nat>)
      requires IsArgSort(order, Revenues(offers))
      modifies this
      ensures offers == old(offers) && registered == old(registered) && active == old(active)
      ensures Vars() == old(Vars()).(bundles := bundles)
      ensures IsPermutation(order, |Ids(offers)|) && Bundled(bundles, old(bundles), Ids(offers), order)
    {
      var ids := Ids(offers);
      bundles := PlaceBundles(bundles, ids, order);
    }

    /** `check_active_carriers()`: every offer on sale that a registered but inactive carrier
        wins or owns is reset, and the active carriers become the registered ones (the same
        list). */
    method CheckActiveCarriers()
      requires Distinct(offers)
      modifies this, set o | o in offers
      ensures offers == old(offers) && registered == old(active) && active == old(active) && Vars() == old(Vars())
      ensures forall i :: 0 <= i < |offers| ==>
        offers[i].State() == PurgeBy(old(offers[i].State()), old(registered.items), old(active.items))
    {
      var regs, n := registered.items, |offers|;
      ghost var olds := States(offers);
      var j := 0;
      while j < |regs|
        invariant 0 <= j <= |regs| && unchanged(this)
        invariant forall t :: 0 <= t < n ==> offers[t].State() == PurgeBy(olds[t], regs[..j], active.items)
      {
        assert regs[..j + 1] == regs[..j] + [regs[j]];
        ConsiderCarrier(regs[j], olds, regs[..j]);
        j := j + 1;
      }
      assert regs[..j] == regs;
      registered := active;
    }

    /** One pass of the outer loop of `check_active_carriers()`: a carrier that is not active is
        dropped, which takes every offer one `PurgeStep` further. */
    method ConsiderCarrier(register: string, ghost before: seq<OfferState>, ghost done: seq<string>)
      requires Distinct(offers) && |before| == |offers|
      requires forall t :: 0 <= t < |offers| ==> offers[t].State() == PurgeBy(before[t], done, active.items)
      modifies set o | o in offers
      ensures forall t :: 0 <= t < |offers| ==> offers[t].State() == PurgeBy(before[t], done + [register], active.items)
    {
      if register !in active.items {
        DropCarrier(register);
      }
      assert forall t :: 0 <= t < |offers| ==>
          PurgeBy(before[t], done + [register], active.items)
          == PurgeStep(PurgeBy(before[t], done, active.items), register, active.items);
    }

    /** The inner loop of `check_active_carriers()` for one carrier that is registered but not
        active: every offer on sale it wins or owns is reset. */
    method DropCarrier(register: string)
      requires Distinct(offers) && register !in active.items
      modifies set o | o in offers
      ensures forall t :: 0 <= t < |offers| ==> offers[t].State() == PurgeStep(old(offers[t].State()), register, active.items)
    {
      var k := 0;
      while k < |offers|
        invariant 0 <= k <= |offers|
        invariant forall t :: 0 <= t < k ==> offers[t].State() == PurgeStep(old(offers[t].State()), register, active.items)
        invariant forall t :: k <= t < |offers| ==> offers[t].State() == old(offers[t].State())
      {
        PurgeOffer(offers[k], register, active.items);
        k := k + 1;
      }
    }

    /** `update_auction_list()`: the list keeps, in order, the unsold offers of registered
        carriers. */
    method UpdateAuctionList()
      modifies this
      ensures offers == Kept(old(offers), registered.items)
      ensures registered == old(registered) && active == old(active) && Vars() == old(Vars())
    {
      var newList: seq<Offer> := [];
      var i := 0;
      while i < |offers|
        invariant 0 <= i <= |offers| && unchanged(this)
        invariant newList == Kept(offers[..i], registered.items)
      {
        assert offers[..i + 1][..i] == offers[..i];
        if offers[i].winner == NONE && offers[i].carrierId in registered.items {
          newList := newList + [offers[i]];
        }
        i := i + 1;
      }
      assert offers[..i] == offers;
      offers := newList;
    }

    /** `valide_bids_for_unsold_offer()`, reading the price floor `min_price` of each offer: some
        unsold offer holds a bid above its floor. */
    method ValideBidsForUnsoldOffer() returns (legal: bool)
      ensures legal <==> exists i :: 0 <= i < |offers| && HasLegalBid(offers[i].State())
    {
      var bidIsLegal: seq<bool> := [];
      var i := 0;
      while i < |offers|
        invariant 0 <= i <= |offers|
        invariant (true in bidIsLegal) <==> exists t :: 0 <= t < i && HasLegalBid(offers[t].State())
      {
        var offer := offers[i];
        if offer.winner == NONE {
          var j := 0;
          while j < |offer.bids|
            invariant 0 <= j <= |offer.bids|
            invariant (true in bidIsLegal) <==>
              (exists t :: 0 <= t < i && HasLegalBid(offers[t].State())) || exists b :: 0 <= b < j && offer.bids[b].1 > offer.reserve
          {
            bidIsLegal := bidIsLegal + [offer.bids[j].1 > offer.reserve];
            j := j + 1;
          }
        }
        i := i + 1;
      }
      legal := true in bidIsLegal;
    }

    // -------------------------------------------------------------------------------------
    // handle_auction_phases, one step at a time

    /** Round `n_round` begins: the sold count is reset, the bundles are generated in round 0,
        and the lots of the round are the offers listed now. */
    twostate predicate RoundStarted(order: seq<nat>)
      reads this, set o | o in offers
    {
      offers == old(offers) && registered == old(registered)
      && Vars() == old(Vars()).(bundles := bundles, sold := 0, lot := 0, lotCount := |offers|,
           stage := if |offers| == 0 then RoundEnd else Announce)
      && (old(round) == 0 ==> IsPermutation(order, |Ids(offers)|) && Bundled(bundles, old(bundles), Ids(offers), order))
      && (old(round) != 0 ==> bundles == old(bundles))
    }

    method StartRound(order: seq<nat>)
      requires Valid() && stage == RoundStart && (round == 0 ==> IsArgSort(order, Revenues(offers)))
      modifies this
      ensures Valid() && active == old(active) && RoundStarted(order)
      ensures nextRound == old(nextRound)
    {
      if round == 0 {
        GenerateBundles(order);
      }
      ResetRound();
    }

    /** The counters of a new round: nothing sold yet, the first lot of the offers listed now. */
    method ResetRound()
      requires Valid() && stage == RoundStart
      modifies this
      ensures Valid() && offers == old(offers) && registered == old(registered) && active == old(active)
      ensures Vars() == old(Vars()).(sold := 0, lot := 0, lotCount := |offers|,
        stage := if |offers| == 0 then RoundEnd else Announce)
    {
      sold := 0;
      lotCount, lot := |offers|, 0;
      stage := if lotCount == 0 then RoundEnd else Announce;
    }

    /** The lot's offer goes on sale and the offer request phase begins. */
    twostate predicate Announced()
      reads this, set o | o in offers
    {
      offers == old(offers) && registered == old(registered) && old(lot) < |old(offers)|
      && Vars() == old(Vars()).(idOnAuction := Some(offers[old(lot)].offerId), phase := REQ_OFFER, stage := OpenBidding)
      && offers[old(lot)].State() == old(offers[lot].State()).(onAuction := true)
    }

    method AnnounceLot()
      requires Valid() && stage == Announce
      modifies this, offers[lot]
      ensures Valid() && active == old(active) && Announced()
      ensures nextRound == old(nextRound)
    {
      offers[lot].onAuction := true;
      idOnAuction := Some(offers[lot].offerId);
      phase := REQ_OFFER;
      stage := OpenBidding;
    }

    /** The bidding phase begins. */
    twostate predicate BidsOpened()
      reads this
    {
      offers == old(offers) && registered == old(registered) && Vars() == old(Vars()).(phase := BID, stage := Resolve)
    }

    method OpenBids()
      requires Valid() && stage == OpenBidding
      modifies this
      ensures Valid() && active == old(active) && BidsOpened()
      ensures nextRound == old(nextRound)
    {
      phase := BID;
      stage := Resolve;
    }

    /** The results phase begins with the lot's offer resolved. */
    twostate predicate LotResolved()
      reads this, set o | o in offers
    {
      offers == old(offers) && registered == old(registered) && old(lot) < |old(offers)|
      && Vars() == old(Vars()).(phase := RESULTS, stage := Confirm)
      && offers[old(lot)].State() == Resolved(old(offers[lot].State()))
    }

    method ResolveLot()
      requires Valid() && stage == Resolve
      modifies this, offers[lot]
      ensures Valid() && active == old(active) && LotResolved()
      ensures nextRound == old(nextRound)
    {
      phase := RESULTS;
      offers[lot].UpdateResults();
      stage := Confirm;
    }

    /** Inactive carriers are dropped, the confirmation phase begins, a sale is counted, and
        after the last offer of the list a round in which nothing sold and no unsold offer holds
        a legal bid clears `next_round`. */
    twostate predicate LotConfirmed()
      reads this, set o | o in offers
    {
      offers == old(offers) && registered == old(active) && old(lot) < |old(offers)|
      && (forall i :: 0 <= i < |offers| ==>
            offers[i].State() == PurgeBy(old(offers[i].State()), old(registered.items), old(active.items)))
      && var won := offers[old(lot)].winner != NONE;
         var closing := old(lot) == |offers| - 1 && sold == 0 && !exists i :: 0 <= i < |offers| && HasLegalBid(offers[i].State());
         Vars() == old(Vars()).(phase := CONFIRM, sold := old(sold) + (if won then 1 else 0),
           nextRound := old(nextRound) && !closing, stage := Retire)
    }

    method ConfirmLot()
      requires Valid() && stage == Confirm
      modifies this, set o | o in offers
      ensures Valid() && active == old(active) && LotConfirmed()
      ensures nextRound ==> old(nextRound)
      ensures stage == Retire
    {
      CheckActiveCarriers();
      phase, stage := CONFIRM, Retire;
      CountSale();
    }

    /** A sold lot is counted; after the last offer of the list, a round in which nothing sold and
        no unsold offer holds a legal bid clears `next_round`. */
    method CountSale()
      requires lot < |offers|
      modifies this
      ensures offers == old(offers) && lot == old(lot) && registered == old(registered) && active == old(active)
      ensures var won := offers[lot].winner != NONE;
        var closing := lot == |offers| - 1 && sold == 0 && !exists i :: 0 <= i < |offers| && HasLegalBid(offers[i].State());
        Vars() == old(Vars()).(sold := old(sold) + (if won then 1 else 0), nextRound := old(nextRound) && !closing)
    {
      if offers[lot].winner != NONE {
        sold := sold + 1;
      }
      if lot == |offers| - 1 {
        if sold == 0 {
          var legal := ValideBidsForUnsoldOffer();
          if !legal {
            nextRound := false;
          }
        }
      }
    }

    /** The lot's offer leaves the sale; the next lot follows, or the round ends. */
    twostate predicate LotRetired()
      reads this, set o | o in offers
    {
      offers == old(offers) && registered == old(registered) && old(lot) < |old(offers)|
      && offers[old(lot)].State() == old(offers[lot].State()).(onAuction := false)
      && Vars() == old(Vars()).(lot := old(lot) + 1, stage := if old(lot) + 1 < lotCount then Announce else RoundEnd)
    }

    method RetireLot()
      requires Valid() && stage == Retire
      modifies this, offers[lot]
      ensures Valid() && active == old(active) && LotRetired()
      ensures nextRound == old(nextRound)
    {
      offers[lot].onAuction := false;
      lot := lot + 1;
      stage := if lot < lotCount then Announce else RoundEnd;
    }

    /** The auction list is updated; the day closes when `next_round` was cleared, and otherwise
        the next round starts, round 0 again after `max_rounds` rounds. */
    twostate predicate RoundEnded()
      reads this
    {
      offers == old(Kept(offers, registered.items)) && registered == old(registered)
      && Vars() == old(Vars()).(stage := if nextRound then RoundStart else Closed,
           round := if !nextRound then old(round) else if old(round) + 1 < maxRounds then old(round) + 1 else 0)
    }

    method EndRound()
      requires Valid() && stage == RoundEnd
      modifies this
      ensures Valid() && active == old(active) && RoundEnded()
      ensures nextRound == old(nextRound)
    {
      KeptDistinct(offers, registered.items);
      UpdateAuctionList();
      NextRound();
    }

    /** The end of `end_round`: the day closes, or the round counter moves on. */
    method NextRound()
      requires Valid() && stage == RoundEnd
      modifies this
      ensures Valid() && offers == old(offers) && registered == old(registered) && active == old(active)
      ensures Vars() == old(Vars()).(stage := if nextRound then RoundStart else Closed,
        round := if !nextRound then old(round) else if old(round) + 1 < maxRounds then old(round) + 1 else 0)
    {
      if !nextRound {
        stage := Closed;
      } else {
        round := if round + 1 < maxRounds then round + 1 else 0;
        stage := RoundStart;
      }
    }

    /** One step of `handle_auction_phases()`: the stage the engine is in decides which step
        runs, and the step's new state follows. `order` is the argsort of the revenues, used
        when round 0 starts. */
    twostate predicate Waited()
      reads this
    {
      offers == old(offers) && registered == old(registered)
      && Vars() == if old(started) && maxRounds > 0 then old(Vars()).(round := 0, stage := RoundStart) else old(Vars())
    }

    method Advance(order: seq<nat>)
      requires Valid() && (stage == RoundStart && round == 0 ==> IsArgSort(order, Revenues(offers)))
      modifies this, set o | o in offers
      ensures Valid() && active == old(active)
      ensures !old(nextRound) ==> !nextRound
      ensures old(nextRound) && !nextRound ==> old(stage) == Confirm && stage == Retire
      ensures old(stage) == Waiting ==> Waited()
      ensures old(stage) == RoundStart ==> RoundStarted(order)
      ensures old(stage) == Announce ==> Announced()
      ensures old(stage) == OpenBidding ==> BidsOpened()
      ensures old(stage) == Resolve ==> LotResolved()
      ensures old(stage) == Confirm ==> LotConfirmed()
      ensures old(stage) == Retire ==> LotRetired()
      ensures old(stage) == RoundEnd ==> RoundEnded()
      ensures old(stage) == Closed ==> unchanged(this)
      ensures old(stage) in {Waiting, RoundStart, OpenBidding, RoundEnd, Closed} ==>
        forall o :: o in old(offers) ==> unchanged(o)
      ensures old(stage) in {Announce, Resolve, Retire} ==>
        forall o :: o in old(offers) && o != old(offers[lot]) ==> unchanged(o)
    {
      match stage {
        case Waiting =>
          if started && maxRounds > 0 {
            round := 0;
            stage := RoundStart;
          }
        case RoundStart => StartRound(order);
        case Announce => AnnounceLot();
        case OpenBidding => OpenBids();
        case Resolve => ResolveLot();
        case Confirm => ConfirmLot();
        case Retire => RetireLot();
        case RoundEnd => EndRound();
        case Closed =>
      }
    }
  }
}
