/** The messages carriers send to an auctioneer and the payloads the request handlers answer
    with. The JSON envelope around a payload (carrier id, action, time, timeout) is not
    modelled. */
module Messages {
  import opened Common
  import opened Dict
  import opened Ledger

  /** The payload of an 'offer' message: `offer_id`, `loc_pickup`, `loc_dropoff`, `profit` and
      `revenue`. */
  datatype OfferPayload = OfferPayload(offerId: string, pickup: Loc, dropoff: Loc, profit: real, revenue: real)

  /** A decoded message, by its `action` field. */
  datatype Message =
    | Register(carrierId: string)
    | SubmitOffer(carrierId: string, payload: OfferPayload)
    | RequestOffer(carrierId: string)
    | Bid(carrierId: string, offerId: string, bid: real)
    | RequestResults(carrierId: string)
    | RequestConfirmation(carrierId: string)
    | Unknown(action: string)

  /** The payload a handler returns. `NoReply`: the connection is closed without an answer. */
  datatype Reply =
    | Status(status: string)
    | Response(response: string)
    | OfferAccepted(offerId: string)
    | OfferOnSale(id: Option<string>, pickups: seq<Loc>, dropoffs: seq<Loc>, revenue: real)
    | BidAccepted(offerId: string)
    | Result(offer: Assoc<string, Value>)
    | Results(offers: seq<Assoc<string, Value>>)
    | LotConfirmed(offer: Assoc<string, Value>, nextRound: bool)
    | LotsConfirmed(offers: seq<Assoc<string, Value>>, nextRound: bool)
    | OfferList(offers: seq<Assoc<string, Value>>)
    | RoundResults(offers: seq<Assoc<string, Value>>, nextRoundText: string)
    | NoReply

  /** The offers on sale, in list order. */
  function OnSale(ss: seq<OfferState>): (r: seq<OfferState>)
    ensures |r| <= |ss|
  {
    if ss == [] then [] else OnSale(ss[..|ss| - 1]) + (if ss[|ss| - 1].onAuction then [ss[|ss| - 1]] else [])
  }

  /** An offer state is listed exactly when it is on sale. */
  lemma {:induction false} OnSaleExactly(ss: seq<OfferState>)
    ensures forall s :: s in OnSale(ss) <==> s in ss && s.onAuction
  {
    if ss != [] {
      OnSaleExactly(ss[..|ss| - 1]);
      assert ss == ss[..|ss| - 1] + [ss[|ss| - 1]];
    }
  }

  function Pickups(ss: seq<OfferState>): (ps: seq<Loc>)
    ensures |ps| == |ss| && forall i :: 0 <= i < |ss| ==> ps[i] == ss[i].pickup
  {
    seq(|ss|, i requires 0 <= i < |ss| => ss[i].pickup)
  }

  function Dropoffs(ss: seq<OfferState>): (ds: seq<Loc>)
    ensures |ds| == |ss| && forall i :: 0 <= i < |ss| ==> ds[i] == ss[i].dropoff
  {
    seq(|ss|, i requires 0 <= i < |ss| => ss[i].dropoff)
  }

  function RevenueOf(ss: seq<OfferState>): (rs: seq<real>)
    ensures |rs| == |ss| && forall i :: 0 <= i < |ss| ==> rs[i] == ss[i].revenue
  {
    seq(|ss|, i requires 0 <= i < |ss| => ss[i].revenue)
  }

  /** What `send_offer` sends once an offer is on sale: the id on auction, the pickups and the
      dropoffs of the offers on sale in list order, and the sum of their revenues. */
  function Aggregate(id: Option<string>, ss: seq<OfferState>): Reply
  {
    var on := OnSale(ss);
    OfferOnSale(id, Pickups(on), Dropoffs(on), Sum(RevenueOf(on)))
  }

  /** The pickup and dropoff lists of the aggregate have one entry per offer on sale. */
  lemma AggregateLengths(id: Option<string>, ss: seq<OfferState>)
    ensures var r := Aggregate(id, ss); |r.pickups| == |r.dropoffs| == |OnSale(ss)|
  {
  }

  /** One more offer adds its pickup, dropoff and revenue to the aggregate exactly when it is
      on sale. */
  lemma AggregateStep(ss: seq<OfferState>, i: nat)
    requires i < |ss|
    ensures var on, on1 := OnSale(ss[..i]), OnSale(ss[..i + 1]);
      if ss[i].onAuction then
        Pickups(on1) == Pickups(on) + [ss[i].pickup] && Dropoffs(on1) == Dropoffs(on) + [ss[i].dropoff]
        && Sum(RevenueOf(on1)) == Sum(RevenueOf(on)) + ss[i].revenue
      else on1 == on
  {
    var on, on1 := OnSale(ss[..i]), OnSale(ss[..i + 1]);
    assert ss[..i + 1][..i] == ss[..i];
    if ss[i].onAuction {
      assert on1 == on + [ss[i]];
      assert RevenueOf(on1) == RevenueOf(on) + [ss[i].revenue];
      SumAppend(RevenueOf(on), ss[i].revenue);
    }
  }
}
