/** The first auctioneer of the agent infrastructure: offers are kept in a dictionary by offer
    id, every stored offer is on sale in every round, and a round ends with the results phase,
    after which the offers that received a bid are withdrawn. A day ends after a results phase
    in which no offer had any bid. The phase called "RESULT" there is `RESULTS` here. */
module LegacyAuctioneer {
  import opened Common
  import opened Dict
  import opened Messages
  import opened Utilities
  import Ledger

  /** An offer of this auctioneer: no revenue, no cost, no sale flag; `min_price` is the
      offeror's profit. */
  datatype Offer = Offer(carrierId: string, offerId: string, pickup: Loc, dropoff: Loc, minPrice: real,
                         bids: Assoc<string, real>)

  /** `add_bid(bidder, bid)`. */
  function AddBid(o: Offer, bidder: string, bid: real): (r: Offer)
    ensures r.bids == Put(o.bids, bidder, bid) && r.(bids := o.bids) == o
    ensures Get(r.bids, bidder) == Some(bid) && forall b :: b != bidder ==> Get(r.bids, b) == Get(o.bids, b)
  {
    o.(bids := Put(o.bids, bidder, bid))
  }

  /** `get_highest_bid()`: `False` (here `None`) only when there is no bid at all; otherwise the
      first entry holding the largest bid, which Python treats as true even when it is zero. */
  function HighestBid(bids: Assoc<string, real>): (r: Option<(string, real)>)
    ensures r.None? <==> bids == []
    ensures r.Some? ==> exists i :: 0 <= i < |bids| && bids[i] == r.value
                                    && (forall j :: 0 <= j < |bids| ==> bids[j].1 <= r.value.1)
                                    && (forall j :: 0 <= j < i ==> bids[j].1 < r.value.1)
  {
    if bids == [] then None
    else
      var vs := Values(bids);
      var i := Ledger.MaxIndex(vs);
      assert forall j :: 0 <= j < |bids| ==> bids[j].1 == vs[j];
      Some(bids[i])
  }

  /** This selection differs from the later offers' only on bids that are all zero: those have
      a winner here and none there. */
  lemma HighestBidVersusLedger(bids: Assoc<string, real>)
    ensures !Ledger.AllZero(bids) ==> HighestBid(bids) == Ledger.HighestBid(bids)
    ensures bids != [] && Ledger.AllZero(bids) ==> HighestBid(bids).Some? && Ledger.HighestBid(bids).None?
  {
  }

  /** `to_dict()`: offeror, id, locations and price floor; the bids are not exposed. */
  function ToDict(o: Offer): (d: Assoc<string, Value>)
    ensures Keys(d) == ["offeror", "offer_id", "loc_pickup", "loc_dropoff", "min_price"]
  {
    [("offeror", Text(o.carrierId)), ("offer_id", Text(o.offerId)), ("loc_pickup", LocValue(o.pickup)),
     ("loc_dropoff", LocValue(o.dropoff)), ("min_price", Float(o.minPrice))]
  }

  /** One entry of the result list: the highest bidder and bid, or "NONE" for both. */
  function ResultDict(offerId: string, o: Offer): (d: Assoc<string, Value>)
    ensures Keys(d) == ["offer_id", "winner_carrier_id", "winning_bet", "loc_pickup", "loc_dropoff"]
  {
    var outcome := match HighestBid(o.bids)
      case None => (NONE, Text(NONE))
      case Some((bidder, amount)) => (bidder, Float(amount));
    [("offer_id", Text(offerId)), ("winner_carrier_id", Text(outcome.0)), ("winning_bet", outcome.1),
     ("loc_pickup", LocValue(o.pickup)), ("loc_dropoff", LocValue(o.dropoff))]
  }

  /** The older offer dictionary holds, under each of its keys, the field of that name. */
  lemma ToDictEntries(o: Offer)
    ensures var d := ToDict(o);
      Get(d, "offeror") == Some(Text(o.carrierId)) && Get(d, "offer_id") == Some(Text(o.offerId))
      && Get(d, "loc_pickup") == Some(LocValue(o.pickup)) && Get(d, "loc_dropoff") == Some(LocValue(o.dropoff))
      && Get(d, "min_price") == Some(Float(o.minPrice))
  {
    var d := ToDict(o);
    assert UniqueKeys(d) by {
      forall i, j | 0 <= i < j < |d| ensures d[i].0 != d[j].0 {
        assert d[i].0 == Keys(d)[i] && d[j].0 == Keys(d)[j];
      }
    }
    assert d[0].0 == "offeror" && d[1].0 == "offer_id" && d[2].0 == "loc_pickup";
    assert d[3].0 == "loc_dropoff" && d[4].0 == "min_price";
  }

  /** A result entry holds the offer id, the highest bidder and bid ("NONE" for both without
      a bid) and the offer's two locations. */
  lemma ResultDictEntries(offerId: string, o: Offer)
    ensures var d := ResultDict(offerId, o);
      Get(d, "offer_id") == Some(Text(offerId))
      && Get(d, "winner_carrier_id") == Some(Text(if o.bids == [] then NONE else HighestBid(o.bids).value.0))
      && Get(d, "winning_bet") == Some(if o.bids == [] then Text(NONE) else Float(HighestBid(o.bids).value.1))
      && Get(d, "loc_pickup") == Some(LocValue(o.pickup)) && Get(d, "loc_dropoff") == Some(LocValue(o.dropoff))
  {
    var d := ResultDict(offerId, o);
    assert UniqueKeys(d) by {
      forall i, j | 0 <= i < j < |d| ensures d[i].0 != d[j].0 {
        assert d[i].0 == Keys(d)[i] && d[j].0 == Keys(d)[j];
      }
    }
    assert d[0].0 == "offer_id" && d[1].0 == "winner_carrier_id" && d[2].0 == "winning_bet";
    assert d[3].0 == "loc_pickup" && d[4].0 == "loc_dropoff";
  }

  /** The result list of `send_results`, in dictionary order. */
  function ResultList(offers: Assoc<string, Offer>): (rs: seq<Assoc<string, Value>>)
    ensures |rs| == |offers| && forall i :: 0 <= i < |offers| ==> rs[i] == ResultDict(offers[i].0, offers[i].1)
  {
    seq(|offers|, i requires 0 <= i < |offers| => ResultDict(offers[i].0, offers[i].1))
  }

  /** Each result names the highest bidder of its offer, and "NONE" exactly for an offer without
      bids. */
  lemma ResultWinners(offers: Assoc<string, Offer>, i: nat)
    requires i < |offers|
    ensures var d, bids := ResultList(offers)[i], offers[i].1.bids;
      Get(d, "winner_carrier_id") == Some(Text(if bids == [] then NONE else HighestBid(bids).value.0))
  {
  }

  /** The loop of `send_results` that builds the result list. */
  method CollectResults(offers: Assoc<string, Offer>) returns (results: seq<Assoc<string, Value>>)
    ensures results == ResultList(offers)
  {
    results := [];
    var i := 0;
    while i < |offers|
      invariant i <= |offers| && |results| == i
      invariant forall j :: 0 <= j < i ==> results[j] == ResultDict(offers[j].0, offers[j].1)
    {
      results := results + [ResultDict(offers[i].0, offers[i].1)];
      i := i + 1;
    }
  }

  /** `str(b)`. */
  function PyStr(b: bool): string
  {
    if b then "True" else "False"
  }

  /** No stored offer has a bid: `not any([offer.get_highest_bid() for offer in offers])`. */
  predicate NoBids(offers: Assoc<string, Offer>)
  {
    forall i :: 0 <= i < |offers| ==> offers[i].1.bids == []
  }

  /** An entry survives the end of a round when its offer has no bid. */
  predicate Unbid(e: (string, Offer))
  {
    e.1.bids == []
  }

  /** `receive_bid` as written: when the bid does not exceed `min_price`, `payload` is never
      assigned, `return payload` raises UnboundLocalError, and the carrier gets no answer. */
  function ReceiveBidAsWritten(phase: Phase, registered: seq<string>, offers: Assoc<string, Offer>, carrierId: string,
                               offerId: string, bid: real): (r: Reply)
    ensures r == NoReply <==> phase == BID && carrierId in registered && Get(offers, offerId).Some?
                              && bid <= Get(offers, offerId).value.minPrice
  {
    if phase != BID then Status("BIDDING_TIMEOUT")
    else if carrierId !in registered then Status("NOT_REGISTERED")
    else match Get(offers, offerId)
      case None => Status("INVALID_OFFER_ID")
      case Some(o) => if bid > o.minPrice then BidAccepted(offerId) else NoReply
  }

  /** A registered carrier bidding 5 on an offer with price floor 10 is left without an
      answer. */
  lemma UnboundPayload()
    ensures var o := Offer("c1", "o1", Loc(0.0, 0.0), Loc(1.0, 1.0), 10.0, []);
      ReceiveBidAsWritten(BID, ["c2"], [("o1", o)], "c2", "o1", 5.0) == NoReply
  {
    var o := Offer("c1", "o1", Loc(0.0, 0.0), Loc(1.0, 1.0), 10.0, []);
    assert Get([("o1", o)], "o1") == Some(o) by { assert Keys([("o1", o)]) == ["o1"]; }
  }

  /** `any(...)` over the stored offers. */
  method AnyBid(offers: Assoc<string, Offer>) returns (b: bool)
    ensures b <==> !NoBids(offers)
  {
    var i := 0;
    while i < |offers|
      invariant i <= |offers| && forall j :: 0 <= j < i ==> offers[j].1.bids == []
    {
      if HighestBid(offers[i].1.bids).Some? {
        return true;
      }
      i := i + 1;
    }
    return false;
  }

  /** `for offer_id in list(offers): if offers[offer_id].bids: del offers[offer_id]`. */
  method WithdrawSold(offers: Assoc<string, Offer>) returns (kept: Assoc<string, Offer>)
    ensures kept == Filter(offers, Unbid)
  {
    kept := [];
    var i := 0;
    while i < |offers|
      invariant i <= |offers| && kept == Filter(offers[..i], Unbid)
    {
      FilterPrefixStep(offers, i, Unbid);
      if Unbid(offers[i]) {
        kept := kept + [offers[i]];
      }
      i := i + 1;
    }
    assert offers[..i] == offers;
  }

  /** The entries left after a round are exactly the unbid ones, each once, in their order. */
  lemma {:induction false} WithdrawnExactly(offers: Assoc<string, Offer>)
    ensures forall e :: e in Filter(offers, Unbid) <==> e in offers && e.1.bids == []
    ensures NoBids(Filter(offers, Unbid))
    ensures UniqueKeys(offers) ==> UniqueKeys(Filter(offers, Unbid))
  {
    if offers != [] {
      var n := |offers| - 1;
      WithdrawnExactly(offers[..n]);
      FilterAppend(offers[..n], offers[n], Unbid);
      assert offers == offers[..n] + [offers[n]];
      var f := Filter(offers[..n], Unbid);
      if UniqueKeys(offers) && Unbid(offers[n]) {
        assert forall j :: 0 <= j < |f| ==> f[j].0 != offers[n].0 by {
          forall j | 0 <= j < |f| ensures f[j].0 != offers[n].0 {
            assert f[j] in offers[..n];
            var k :| 0 <= k < n && offers[..n][k] == f[j];
            assert offers[k].0 != offers[n].0;
          }
        }
      }
    }
  }

  class Auctioneer {
    var registered: seq<string>
    var offers: Assoc<string, Offer>
    var fetched: seq<string>
    var phase: Phase
    var nextRound: bool
    var started: bool
    var closed: bool

    /** A closed day stays in its last results phase, with no next round. */
    ghost predicate Valid()
      reads this
    {
      closed ==> phase == RESULTS && !nextRound
    }

    constructor ()
      ensures Valid()
      ensures registered == [] && offers == [] && fetched == [] && phase == REGIST && nextRound
      ensures !started && !closed
    {
      registered, offers, fetched, phase := [], [], [], REGIST;
      nextRound, started, closed := true, false, false;
    }

    /** What `register_carrier(carrier, data)` answers and does: only in the registration
        phase, and only once per carrier, is the id appended. */
    twostate predicate RegisterOutcome(carrierId: string, r: Reply)
      reads this
    {
      (phase != REGIST ==> r == Status("NO_REGISTRATION_PHASE") && registered == old(registered))
      && (phase == REGIST && carrierId in old(registered) ==> r == Status("ALREADY_REGISTERED") && registered == old(registered))
      && (phase == REGIST && carrierId !in old(registered) ==> r == Status("OK") && registered == old(registered) + [carrierId])
      && (old(Distinct(registered)) ==> Distinct(registered))
      && offers == old(offers) && fetched == old(fetched) && phase == old(phase) && nextRound == old(nextRound)
      && started == old(started) && closed == old(closed)
    }

    method RegisterCarrier(carrierId: string) returns (r: Reply)
      modifies this
      ensures RegisterOutcome(carrierId, r)
    {
      if phase != REGIST {
        return Status("NO_REGISTRATION_PHASE");
      }
      if carrierId in registered {
        return Status("ALREADY_REGISTERED");
      }
      registered := registered + [carrierId];
      r := Status("OK");
    }

    /** What `receive_offer(carrier, data)` answers and does: the offer is stored under its
        id, replacing an earlier offer with the same id in place. Every other field apart
        from `started` stays as it was. */
    twostate predicate ReceiveOfferOutcome(carrierId: string, payload: OfferPayload, r: Reply)
      reads this
    {
      (phase != REGIST ==> r == Response("OFFER_SUBMISSION_TIMEOUT") && offers == old(offers))
      && (phase == REGIST && carrierId !in registered ==> r == Response("NOT_REGISTERED") && offers == old(offers))
      && (phase == REGIST && carrierId in registered ==>
            r == OfferAccepted(payload.offerId)
            && Get(offers, payload.offerId) == Some(Offer(carrierId, payload.offerId, payload.pickup, payload.dropoff, payload.profit, []))
            && (forall k :: k != payload.offerId ==> Get(offers, k) == Get(old(offers), k))
            && Keys(offers) == if payload.offerId in Keys(old(offers)) then Keys(old(offers)) else Keys(old(offers)) + [payload.offerId])
      && registered == old(registered) && fetched == old(fetched) && phase == old(phase) && nextRound == old(nextRound)
      && closed == old(closed)
    }

    method ReceiveOffer(carrierId: string, payload: OfferPayload) returns (r: Reply)
      modifies this
      ensures ReceiveOfferOutcome(carrierId, payload, r) && started == old(started)
    {
      if phase != REGIST {
        return Response("OFFER_SUBMISSION_TIMEOUT");
      }
      if carrierId !in registered {
        return Response("NOT_REGISTERED");
      }
      var offer := Offer(carrierId, payload.offerId, payload.pickup, payload.dropoff, payload.profit, []);
      offers := Put(offers, payload.offerId, offer);
      r := OfferAccepted(payload.offerId);
    }

    /** What `send_offers_list(carrier, data)` answers: every stored offer, in dictionary
        order. */
    predicate OffersListReply(carrierId: string, r: Reply)
      reads this
    {
      (phase != REQ_OFFER ==> r == Status("OFFER_REQUEST_TIMEOUT"))
      && (phase == REQ_OFFER && carrierId !in registered ==> r == Status("NOT_REGISTERED"))
      && (phase == REQ_OFFER && carrierId in registered && offers == [] ==> r == Status("NO_OFFERS_AVAILABLE"))
      && (phase == REQ_OFFER && carrierId in registered && offers != [] ==>
            r.OfferList? && |r.offers| == |offers| && forall i :: 0 <= i < |offers| ==> r.offers[i] == ToDict(offers[i].1))
    }

    method SendOffersList(carrierId: string) returns (r: Reply)
      ensures OffersListReply(carrierId, r)
    {
      if phase != REQ_OFFER {
        return Status("OFFER_REQUEST_TIMEOUT");
      }
      if carrierId !in registered {
        return Status("NOT_REGISTERED");
      }
      if offers == [] {
        return Status("NO_OFFERS_AVAILABLE");
      }
      r := OfferList(seq(|offers|, i requires 0 <= i < |offers| reads this => ToDict(offers[i].1)));
    }

    /** What `receive_bid(carrier, data)` answers and does, with the missing answer supplied:
        a bid is recorded only when it exceeds the offer's price floor, and a bid at or below
        it is answered with INVALID_BID. */
    twostate predicate ReceiveBidOutcome(carrierId: string, offerId: string, bid: real, r: Reply)
      reads this
    {
      (phase != BID ==> r == Status("BIDDING_TIMEOUT") && offers == old(offers))
      && (phase == BID && carrierId !in registered ==> r == Status("NOT_REGISTERED") && offers == old(offers))
      && (phase == BID && carrierId in registered ==>
            match Get(old(offers), offerId)
            case None => r == Status("INVALID_OFFER_ID") && offers == old(offers)
            case Some(o) =>
              if bid > o.minPrice then r == BidAccepted(offerId) && offers == Put(old(offers), offerId, AddBid(o, carrierId, bid))
              else r == Status("INVALID_BID") && offers == old(offers))
      && r != NoReply && (r != Status("INVALID_BID") ==> r == ReceiveBidAsWritten(phase, registered, old(offers), carrierId, offerId, bid))
      && registered == old(registered) && fetched == old(fetched) && phase == old(phase) && nextRound == old(nextRound)
      && started == old(started) && closed == old(closed)
    }

    method ReceiveBid(carrierId: string, offerId: string, bid: real) returns (r: Reply)
      modifies this
      ensures ReceiveBidOutcome(carrierId, offerId, bid, r)
    {
      if phase != BID {
        return Status("BIDDING_TIMEOUT");
      }
      if carrierId !in registered {
        return Status("NOT_REGISTERED");
      }
      var found := Get(offers, offerId);
      if found.None? {
        return Status("INVALID_OFFER_ID");
      }
      if bid > found.value.minPrice {
        offers := Put(offers, offerId, AddBid(found.value, carrierId, bid));
        return BidAccepted(offerId);
      }
      r := Status("INVALID_BID");
    }

    /** What `send_results(carrier, data)` answers and does: registration before the phase;
        the carrier is recorded as having fetched the results. */
    twostate predicate SendResultsOutcome(carrierId: string, r: Reply)
      reads this
    {
      (carrierId !in registered ==> r == Status("NOT_REGISTERED") && fetched == old(fetched))
      && (carrierId in registered && phase != RESULTS ==> r == Status("NO_RESULTS_PHASE") && fetched == old(fetched))
      && (carrierId in registered && phase == RESULTS ==>
            r == RoundResults(ResultList(offers), PyStr(nextRound)) && fetched == old(fetched) + [carrierId])
      && registered == old(registered) && offers == old(offers) && phase == old(phase) && nextRound == old(nextRound)
      && started == old(started) && closed == old(closed)
    }

    method SendResults(carrierId: string) returns (r: Reply)
      modifies this
      ensures SendResultsOutcome(carrierId, r)
    {
      if carrierId !in registered {
        return Status("NOT_REGISTERED");
      }
      if phase != RESULTS {
        return Status("NO_RESULTS_PHASE");
      }
      fetched := fetched + [carrierId];
      var results := CollectResults(offers);
      r := RoundResults(results, PyStr(nextRound));
    }

    /** `handle_auction_phases` with the waiting removed, one phase change per call: the first
        offer from a registered carrier opens the day, rounds pass through offer request,
        bidding and results, and after the results the day either closes (no bid at all on a
        non-empty offer list) or the offers that received a bid are withdrawn. */
    method Advance()
      requires Valid()
      modifies this
      ensures Valid()
      ensures old(closed) ==> closed && phase == old(phase) && offers == old(offers)
      ensures !old(nextRound) ==> !nextRound
      ensures !old(closed) && old(phase) == REGIST ==> phase == (if old(started) then REQ_OFFER else REGIST) && offers == old(offers)
      ensures !old(closed) && old(phase) == REQ_OFFER ==> phase == BID && offers == old(offers)
      ensures !old(closed) && old(phase) == BID ==>
        phase == RESULTS && offers == old(offers) && nextRound == (old(nextRound) && !(offers != [] && NoBids(offers)))
      ensures !old(closed) && old(phase) == RESULTS ==>
        if old(nextRound) then phase == REQ_OFFER && offers == Filter(old(offers), Unbid) && !closed
        else closed && offers == old(offers)
      ensures registered == old(registered) && started == old(started)
      ensures old(closed) || old(phase) != CONFIRM ==> phase != CONFIRM
    {
      if closed {
        return;
      }
      match phase {
        case REGIST =>
          if started {
            phase := REQ_OFFER;
          }
        case REQ_OFFER =>
          phase := BID;
        case BID =>
          phase := RESULTS;
          if offers != [] {
            var any := AnyBid(offers);
            if !any {
              nextRound := false;
            }
          }
        case RESULTS =>
          if !nextRound {
            closed := true;
          } else {
            offers := WithdrawSold(offers);
            phase := REQ_OFFER;
          }
        case CONFIRM =>
      }
    }

    /** `handle_carrier`: every action goes to its handler, whose answer and effect the
        handler's outcome states. The first offer from a registered carrier sets the auction
        time. An action this auctioneer does not know, confirmation among them, gets no
        answer and changes nothing. */
    method Handle(msg: Message) returns (r: Reply)
      modifies this
      ensures msg.Register? ==> RegisterOutcome(msg.carrierId, r)
      ensures msg.SubmitOffer? ==> ReceiveOfferOutcome(msg.carrierId, msg.payload, r)
      ensures msg.SubmitOffer? ==> started == (old(started) || msg.carrierId in old(registered))
      ensures msg.RequestOffer? ==> OffersListReply(msg.carrierId, r) && unchanged(this)
      ensures msg.Bid? ==> ReceiveBidOutcome(msg.carrierId, msg.offerId, msg.bid, r)
      ensures msg.RequestResults? ==> SendResultsOutcome(msg.carrierId, r)
      ensures (msg.Unknown? || msg.RequestConfirmation?) ==> r == NoReply && unchanged(this)
    {
      match msg {
        case Register(c) => r := RegisterCarrier(c);
        case SubmitOffer(c, payload) =>
          if !started && c in registered {
            started := true;
          }
          r := ReceiveOffer(c, payload);
        case RequestOffer(c) => r := SendOffersList(c);
        case Bid(c, id, bid) => r := ReceiveBid(c, id, bid);
        case RequestResults(c) => r := SendResults(c);
        case RequestConfirmation(_) => r := NoReply;
        case Unknown(_) => r := NoReply;
      }
    }
  }
}
