/** The application's request handlers: one connection carries one message, and the handler
    checks the phase and the carrier's registration before it reads or changes the engine. */
module AppHandler {
  import opened Common
  import opened Dict
  import opened Ledger
  import opened Messages
  import opened AppAuctioneer

  /** A bid for `id` lands on the offer with that id that is on sale. */
  function BidTarget(id: string): OfferState -> bool
  {
    (s: OfferState) => s.offerId == id && s.onAuction
  }

  function IsOnSale(s: OfferState): bool
  {
    s.onAuction
  }

  /** The loop of `send_offer(data)`: the pickups, the dropoffs and the revenue sum of the
      offers on sale, in list order. */
  method CollectOnSale(offers: seq<Offer>) returns (pickups: seq<Loc>, dropoffs: seq<Loc>, revenue: real)
    ensures var on := OnSale(States(offers));
      pickups == Pickups(on) && dropoffs == Dropoffs(on) && revenue == Sum(RevenueOf(on))
  {
    ghost var ss := States(offers);
    pickups, dropoffs, revenue := [], [], 0.0;
    var i := 0;
    while i < |offers|
      invariant 0 <= i <= |offers|
      invariant pickups == Pickups(OnSale(ss[..i])) && dropoffs == Dropoffs(OnSale(ss[..i]))
      invariant revenue == Sum(RevenueOf(OnSale(ss[..i])))
    {
      var offer := offers[i];
      AggregateStep(ss, i);
      if offer.onAuction {
        pickups := pickups + [offer.pickup];
        dropoffs := dropoffs + [offer.dropoff];
        revenue := revenue + offer.revenue;
      }
      i := i + 1;
    }
    assert ss[..i] == ss;
  }

  /** The loop `for offer in self.auctioneer.offers: if offer.on_auction: ...` that the result
      and confirmation handlers share: the position of the first offer on sale. */
  method FindOnSale(offers: seq<Offer>) returns (k: Option<nat>)
    ensures k == FirstIndex(States(offers), IsOnSale)
  {
    ghost var ss := States(offers);
    var i := 0;
    while i < |offers|
      invariant 0 <= i <= |offers|
      invariant forall j :: 0 <= j < i ==> !IsOnSale(ss[j])
    {
      if offers[i].onAuction {
        FirstIndexUnique(ss, IsOnSale, i);
        return Some(i);
      }
      i := i + 1;
    }
    k := None;
  }

  /** `offer.add_bid(carrier_id, bid)` on offer `i` of the list; no other offer of the list
      changes. */
  method BidOn(offers: seq<Offer>, i: nat, carrierId: string, bid: real)
    requires Distinct(offers) && i < |offers|
    modifies offers[i]
    ensures offers[i].State() == old(offers[i].State()).(bids := Put(old(offers[i].bids), carrierId, bid))
    ensures forall j :: 0 <= j < |offers| && j != i ==> offers[j].State() == old(offers[j].State())
  {
    offers[i].AddBid(carrierId, bid);
  }

  class CarrierHandler {
    const auctioneer: Auctioneer

    constructor (auctioneer: Auctioneer)
      ensures this.auctioneer == auctioneer
    {
      this.auctioneer := auctioneer;
    }

    /** What `register_carrier(data)` answers and does: only in the registration phase, and
        only once per carrier, is the id appended to the registered carriers. */
    twostate predicate RegisterOutcome(carrierId: string, r: Reply)
      reads auctioneer, auctioneer.registered
    {
      (auctioneer.phase != REGIST ==> r == Status("NO_REGISTRATION_PHASE") && auctioneer.registered.items == old(auctioneer.registered.items))
      && (auctioneer.phase == REGIST && carrierId in old(auctioneer.registered.items) ==>
            r == Status("ALREADY_REGISTERED") && auctioneer.registered.items == old(auctioneer.registered.items))
      && (auctioneer.phase == REGIST && carrierId !in old(auctioneer.registered.items) ==>
            r == Status("OK") && auctioneer.registered.items == old(auctioneer.registered.items) + [carrierId])
      && (old(Distinct(auctioneer.registered.items)) ==> Distinct(auctioneer.registered.items))
    }

    method RegisterCarrier(carrierId: string) returns (r: Reply)
      modifies auctioneer.registered
      ensures RegisterOutcome(carrierId, r)
    {
      if auctioneer.phase != REGIST {
        return Status("NO_REGISTRATION_PHASE");
      }
      if carrierId in auctioneer.registered.items {
        return Status("ALREADY_REGISTERED");
      }
      auctioneer.registered.Append(carrierId);
      r := Status("OK");
    }

    /** What `receive_offer(data)` answers and does: the phase is checked first, then the
        registration, and only then is one new offer appended. The carrier lists and every
        control variable apart from `started` stay as they were. */
    twostate predicate ReceiveOfferOutcome(carrierId: string, payload: OfferPayload, r: Reply)
      reads auctioneer, set o | o in auctioneer.offers
    {
      (auctioneer.phase != REGIST ==> r == Response("OFFER_SUBMISSION_TIMEOUT") && auctioneer.offers == old(auctioneer.offers))
      && (auctioneer.phase == REGIST && carrierId !in old(auctioneer.registered.items) ==>
            r == Response("NOT_REGISTERED") && auctioneer.offers == old(auctioneer.offers))
      && (auctioneer.phase == REGIST && carrierId in old(auctioneer.registered.items) ==>
            r == OfferAccepted(payload.offerId) && |auctioneer.offers| == |old(auctioneer.offers)| + 1
            && auctioneer.offers[..|old(auctioneer.offers)|] == old(auctioneer.offers)
            && fresh(auctioneer.offers[|old(auctioneer.offers)|])
            && auctioneer.offers[|old(auctioneer.offers)|].State() == OfferState(carrierId, payload.offerId, payload.pickup,
                 payload.dropoff, payload.profit, payload.revenue, None, [], false, NONE, NoPrice))
      && auctioneer.registered == old(auctioneer.registered) && auctioneer.active == old(auctioneer.active)
      && auctioneer.Vars() == old(auctioneer.Vars()).(started := auctioneer.started)
      && (old(Distinct(auctioneer.offers)) ==> Distinct(auctioneer.offers))
    }

    method ReceiveOffer(carrierId: string, payload: OfferPayload) returns (r: Reply)
      modifies auctioneer
      ensures ReceiveOfferOutcome(carrierId, payload, r) && auctioneer.started == old(auctioneer.started)
    {
      if auctioneer.phase != REGIST {
        return Response("OFFER_SUBMISSION_TIMEOUT");
      }
      if carrierId !in auctioneer.registered.items {
        return Response("NOT_REGISTERED");
      }
      auctioneer.AddOffer(carrierId, payload);
      r := OfferAccepted(payload.offerId);
    }

    /** What `send_offer(data)` answers, without the wait for an offer to go on sale: the
        refusals in the source's order, then the aggregate of the offers on sale. */
    predicate SendOfferReply(carrierId: string, r: Reply)
      reads auctioneer, auctioneer.registered, set o | o in auctioneer.offers
    {
      (auctioneer.phase != REQ_OFFER ==> r == Status("OFFER_REQUEST_TIMEOUT"))
      && (auctioneer.phase == REQ_OFFER && carrierId !in auctioneer.registered.items ==> r == Status("NOT_REGISTERED"))
      && (auctioneer.phase == REQ_OFFER && carrierId in auctioneer.registered.items && auctioneer.offers == [] ==>
            r == Status("NO_OFFERS_AVAILABLE"))
      && (auctioneer.phase == REQ_OFFER && carrierId in auctioneer.registered.items && auctioneer.offers != [] ==>
            r == Aggregate(auctioneer.idOnAuction, States(auctioneer.offers)))
    }

    method SendOffer(carrierId: string) returns (r: Reply)
      ensures SendOfferReply(carrierId, r)
    {
      if auctioneer.phase != REQ_OFFER {
        return Status("OFFER_REQUEST_TIMEOUT");
      } else if carrierId !in auctioneer.registered.items {
        return Status("NOT_REGISTERED");
      } else if auctioneer.offers == [] {
        return Status("NO_OFFERS_AVAILABLE");
      }
      var pickups, dropoffs, revenue := CollectOnSale(auctioneer.offers);
      r := OfferOnSale(auctioneer.idOnAuction, pickups, dropoffs, revenue);
    }

    /** What `receive_bid(data)` answers and does: in the bidding phase, from a registered
        carrier, the bid goes to the first offer with the given id that is on sale, and to no
        other offer. */
    twostate predicate ReceiveBidOutcome(carrierId: string, offerId: string, bid: real, r: Reply)
      reads auctioneer, auctioneer.registered, set o | o in auctioneer.offers
    {
      auctioneer.offers == old(auctioneer.offers)
      && (auctioneer.phase != BID ==> r == Status("BIDDING_TIMEOUT"))
      && (auctioneer.phase == BID && carrierId !in auctioneer.registered.items ==> r == Status("NOT_REGISTERED"))
      && ((auctioneer.phase != BID || carrierId !in auctioneer.registered.items
           || FirstIndex(old(States(auctioneer.offers)), BidTarget(offerId)).None?) ==>
            (r.Status? && forall i :: 0 <= i < |auctioneer.offers| ==> auctioneer.offers[i].State() == old(auctioneer.offers[i].State())))
      && (auctioneer.phase == BID && carrierId in auctioneer.registered.items ==>
            match FirstIndex(old(States(auctioneer.offers)), BidTarget(offerId))
            case None => r == Status("INVALID_BID")
            case Some(k) => (r == BidAccepted(offerId)
              && auctioneer.offers[k].State() == old(auctioneer.offers[k].State()).(bids := Put(old(auctioneer.offers[k].bids), carrierId, bid))
              && forall i :: 0 <= i < |auctioneer.offers| && i != k ==> auctioneer.offers[i].State() == old(auctioneer.offers[i].State())))
    }

    method ReceiveBid(carrierId: string, offerId: string, bid: real) returns (r: Reply)
      requires Distinct(auctioneer.offers)
      modifies set o | o in auctioneer.offers
      ensures ReceiveBidOutcome(carrierId, offerId, bid, r)
    {
      if auctioneer.phase != BID {
        return Status("BIDDING_TIMEOUT");
      }
      if carrierId !in auctioneer.registered.items {
        return Status("NOT_REGISTERED");
      }
      var offers := auctioneer.offers;
      ghost var ss := States(offers);
      var i := 0;
      while i < |offers|
        invariant 0 <= i <= |offers|
        invariant forall j :: 0 <= j < i ==> !BidTarget(offerId)(ss[j])
      {
        var offer := offers[i];
        if offer.offerId == offerId && offer.onAuction {
          FirstIndexUnique(ss, BidTarget(offerId), i);
          BidOn(offers, i, carrierId, bid);
          return BidAccepted(offerId);
        }
        i := i + 1;
      }
      r := Status("INVALID_BID");
    }

    /** What `send_results(data)` answers and does: registration is checked before the phase;
        the carrier is counted as active, and the first offer on sale is returned, only when
        some offer is on sale. */
    twostate predicate SendResultsOutcome(carrierId: string, r: Reply)
      reads auctioneer, auctioneer.active
    {
      (carrierId !in old(auctioneer.registered.items) ==> r == Status("NOT_REGISTERED") && auctioneer.active.items == old(auctioneer.active.items))
      && (carrierId in old(auctioneer.registered.items) && auctioneer.phase != RESULTS ==>
            r == Status("NO_RESULTS_PHASE") && auctioneer.active.items == old(auctioneer.active.items))
      && (carrierId in old(auctioneer.registered.items) && auctioneer.phase == RESULTS ==>
            match FirstIndex(old(States(auctioneer.offers)), IsOnSale)
            case None => r == Status("NO_RESULTS_AVAILABLE") && auctioneer.active.items == old(auctioneer.active.items)
            case Some(k) => (r == Result(ToDict(old(auctioneer.offers[k].State())))
              && auctioneer.active.items == old(auctioneer.active.items) + [carrierId]))
    }

    method SendResults(carrierId: string) returns (r: Reply)
      modifies auctioneer.active
      ensures SendResultsOutcome(carrierId, r)
    {
      if carrierId !in auctioneer.registered.items {
        return Status("NOT_REGISTERED");
      }
      if auctioneer.phase != RESULTS {
        return Status("NO_RESULTS_PHASE");
      }
      var k := FindOnSale(auctioneer.offers);
      if k.None? {
        return Status("NO_RESULTS_AVAILABLE");
      }
      r := Result(ToDict(auctioneer.offers[k.value].State()));
      auctioneer.active.Append(carrierId);
    }

    /** What `confirm(data)` answers: the phase is checked before the registration; the first
        offer on sale is returned with `next_round`. */
    predicate ConfirmReply(carrierId: string, r: Reply)
      reads auctioneer, auctioneer.registered, set o | o in auctioneer.offers
    {
      (auctioneer.phase != CONFIRM ==> r == Status("CONFIRMATION_TIMEOUT"))
      && (auctioneer.phase == CONFIRM && carrierId !in auctioneer.registered.items ==> r == Status("NOT_REGISTERED"))
      && (auctioneer.phase == CONFIRM && carrierId in auctioneer.registered.items ==>
            match FirstIndex(States(auctioneer.offers), IsOnSale)
            case None => r == Status("NO_CONFIRMATION_AVAILABLE")
            case Some(k) => r == LotConfirmed(ToDict(auctioneer.offers[k].State()), auctioneer.nextRound))
    }

    method Confirm(carrierId: string) returns (r: Reply)
      ensures ConfirmReply(carrierId, r)
    {
      if auctioneer.phase != CONFIRM {
        return Status("CONFIRMATION_TIMEOUT");
      }
      if carrierId !in auctioneer.registered.items {
        return Status("NOT_REGISTERED");
      }
      var k := FindOnSale(auctioneer.offers);
      if k.None? {
        return Status("NO_CONFIRMATION_AVAILABLE");
      }
      r := LotConfirmed(ToDict(auctioneer.offers[k.value].State()), auctioneer.nextRound);
    }

    /** `run()`: every action goes to its handler, whose answer and effect the handler's
        outcome states, and nothing outside that handler's frame changes. The first offer from
        a registered carrier sets the auction time, which starts the engine; an unknown action
        closes the connection and changes nothing. */
    method Handle(msg: Message) returns (r: Reply)
      requires Distinct(auctioneer.offers)
      modifies auctioneer, auctioneer.registered, auctioneer.active, set o | o in auctioneer.offers
      ensures msg.Register? ==> RegisterOutcome(msg.carrierId, r)
      ensures msg.SubmitOffer? ==> ReceiveOfferOutcome(msg.carrierId, msg.payload, r)
      ensures msg.RequestOffer? ==> SendOfferReply(msg.carrierId, r)
      ensures msg.Bid? ==> ReceiveBidOutcome(msg.carrierId, msg.offerId, msg.bid, r)
      ensures msg.RequestResults? ==> SendResultsOutcome(msg.carrierId, r)
      ensures msg.RequestConfirmation? ==> ConfirmReply(msg.carrierId, r)
      ensures msg.Unknown? ==> r == NoReply
      ensures !msg.SubmitOffer? ==> unchanged(auctioneer)
      ensures !msg.Register? && !msg.RequestResults? ==> unchanged(auctioneer.registered, auctioneer.active)
      ensures !msg.Bid? ==> forall o :: o in old(auctioneer.offers) ==> unchanged(o)
      ensures msg.SubmitOffer? ==> auctioneer.started == (old(auctioneer.started) || msg.carrierId in old(auctioneer.registered.items))
      ensures auctioneer.registered == old(auctioneer.registered) && auctioneer.active == old(auctioneer.active)
      ensures Distinct(auctioneer.offers)
    {
      match msg {
        case Register(c) => r := RegisterCarrier(c);
        case SubmitOffer(c, payload) =>
          if !auctioneer.started && c in auctioneer.registered.items {
            auctioneer.started := true;
          }
          r := ReceiveOffer(c, payload);
        case RequestOffer(c) => r := SendOffer(c);
        case Bid(c, id, bid) => r := ReceiveBid(c, id, bid);
        case RequestResults(c) => r := SendResults(c);
        case RequestConfirmation(c) => r := Confirm(c);
        case Unknown(_) => r := NoReply;
      }
    }
  }
}
