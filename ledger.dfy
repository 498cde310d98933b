/** The offer and bid ledger of the auction: an offer on sale collects one bid per bidder, its
    result is the highest bid, and several offers sold as one bundle share the bundle's winning
    bid in proportion to their revenues. */
module Ledger {
  import opened Common
  import opened Dict
  import opened Utilities

  // ---------------------------------------------------------------------------------------
  // Highest bid

  /** The position of the first maximum of `vs`. */
  function MaxIndex(vs: seq<real>): (i: nat)
    requires vs != []
    ensures i < |vs|
    ensures forall j :: 0 <= j < |vs| ==> vs[j] <= vs[i]
    ensures forall j :: 0 <= j < i ==> vs[j] < vs[i]
  {
    if |vs| == 1 then 0
    else
      var m := MaxIndex(vs[..|vs| - 1]);
      if vs[|vs| - 1] > vs[m] then |vs| - 1 else m
  }

  /** A bid is truthy in Python unless it is zero. */
  predicate AllZero(bids: Assoc<string, real>)
  {
    forall i :: 0 <= i < |bids| ==> bids[i].1 == 0.0
  }

  /** `get_highest_bid`: `None` when no bid value is truthy (in particular when there is no
      bid), otherwise the first entry, in insertion order, holding the largest bid. */
  function HighestBid(bids: Assoc<string, real>): (r: Option<(string, real)>)
    ensures r.None? <==> AllZero(bids)
    ensures r.Some? ==> exists i :: 0 <= i < |bids| && bids[i] == r.value
                                    && (forall j :: 0 <= j < |bids| ==> bids[j].1 <= r.value.1)
                                    && (forall j :: 0 <= j < i ==> bids[j].1 < r.value.1)
  {
    if AllZero(bids) then None
    else
      var vs := Values(bids);
      var i := MaxIndex(vs);
      assert forall j :: 0 <= j < |bids| ==> bids[j].1 == vs[j];
      Some(bids[i])
  }

  /** The `(winner, winning_bid)` that `update_results` stores: the highest bid, or the pair
      ("NONE", "NONE"). No reserve price is consulted. */
  function Outcome(bids: Assoc<string, real>): (string, Price)
  {
    match HighestBid(bids)
    case None => (NONE, NoPrice)
    case Some((bidder, amount)) => (bidder, Amount(amount))
  }

  lemma OutcomeSpec(bids: Assoc<string, real>)
    ensures Outcome(bids) == (NONE, NoPrice) <== AllZero(bids)
    ensures !AllZero(bids) ==> Outcome(bids).1.Amount? && (Outcome(bids).0, Outcome(bids).1.value) in bids
    ensures !AllZero(bids) ==> forall j :: 0 <= j < |bids| ==> bids[j].1 <= Outcome(bids).1.value
  {
  }

  // ---------------------------------------------------------------------------------------
  // Offers

  /** The fields of an offer at one moment. `reserve` is the offeror's price floor: `min_price`
      in the application, `profit` in the agent infrastructure. `cost` exists only in the latter. */
  datatype OfferState = OfferState(carrierId: string, offerId: string, pickup: Loc, dropoff: Loc,
                                   reserve: real, revenue: real, cost: Option<real>,
                                   bids: Assoc<string, real>, onAuction: bool,
                                   winner: string, winningBid: Price)

  /** The state `update_results` leaves behind. */
  function Resolved(s: OfferState): (t: OfferState)
    ensures t.bids == s.bids && t.onAuction == s.onAuction && t.offerId == s.offerId && t.carrierId == s.carrierId
  {
    s.(winner := Outcome(s.bids).0, winningBid := Outcome(s.bids).1)
  }

  /** Updating the results twice changes nothing the first update did not. */
  lemma ResolvedIdempotent(s: OfferState)
    ensures Resolved(Resolved(s)) == Resolved(s)
  {
  }

  class Offer {
    var carrierId: string
    var offerId: string
    var pickup: Loc
    var dropoff: Loc
    var reserve: real
    var revenue: real
    var cost: Option<real>
    var bids: Assoc<string, real>
    var onAuction: bool
    var winner: string
    var winningBid: Price

    function State(): OfferState
      reads this
    {
      OfferState(carrierId, offerId, pickup, dropoff, reserve, revenue, cost, bids, onAuction, winner, winningBid)
    }

    /** `Offer(carrier_id, offer_id, loc_pickup, loc_dropoff, min_price, revenue)` of the
        application: no bids, not on auction, unsold. */
    constructor (carrierId: string, offerId: string, pickup: Loc, dropoff: Loc, minPrice: real, revenue: real)
      ensures State() == OfferState(carrierId, offerId, pickup, dropoff, minPrice, revenue, None, [], false, NONE, NoPrice)
    {
      this.carrierId := carrierId;
      this.offerId := offerId;
      this.pickup := pickup;
      this.dropoff := dropoff;
      this.reserve := minPrice;
      this.revenue := revenue;
      this.cost := None;
      this.bids := [];
      this.onAuction := false;
      this.winner := NONE;
      this.winningBid := NoPrice;
    }

    /** `Offer(carrier_id, offer_id, loc_pickup, loc_dropoff, profit, revenue, cost)` of the agent
        infrastructure. */
    constructor WithCost(carrierId: string, offerId: string, pickup: Loc, dropoff: Loc, profit: real, revenue: real,
                         cost: Option<real>)
      ensures State() == OfferState(carrierId, offerId, pickup, dropoff, profit, revenue, cost, [], false, NONE, NoPrice)
    {
      this.carrierId := carrierId;
      this.offerId := offerId;
      this.pickup := pickup;
      this.dropoff := dropoff;
      this.reserve := profit;
      this.revenue := revenue;
      this.cost := cost;
      this.bids := [];
      this.onAuction := false;
      this.winner := NONE;
      this.winningBid := NoPrice;
    }

    /** `add_bid(bidder, bid)`: the bidder's entry is set, replacing an earlier bid of theirs. */
    method AddBid(bidder: string, bid: real)
      modifies this
      ensures State() == old(State()).(bids := Put(old(bids), bidder, bid))
      ensures Get(bids, bidder) == Some(bid) && forall b :: b != bidder ==> Get(bids, b) == Get(old(bids), b)
    {
      bids := Put(bids, bidder, bid);
    }

    /** `update_results()`. */
    method UpdateResults()
      modifies this
      ensures State() == Resolved(old(State()))
    {
      var highest := HighestBid(bids);
      if highest.Some? {
        winner, winningBid := highest.value.0, Amount(highest.value.1);
      } else {
        winner, winningBid := NONE, NoPrice;
      }
    }
  }

  /** The states of a list of offers, in list order. */
  function States(os: seq<Offer>): (ss: seq<OfferState>)
    reads set o | o in os
    ensures |ss| == |os| && forall i :: 0 <= i < |os| ==> ss[i] == os[i].State()
  {
    if os == [] then [] else States(os[..|os| - 1]) + [os[|os| - 1].State()]
  }

  /** The states of offers none of which changed are the states they had. */
  twostate lemma StatesUnchanged(os: seq<Offer>)
    requires forall i :: 0 <= i < |os| ==> unchanged(os[i])
    ensures States(os) == old(States(os))
  {
  }

  // ---------------------------------------------------------------------------------------
  // Offer dictionaries

  function PriceValue(p: Price): Value
  {
    match p
    case NoPrice => Text(NONE)
    case Amount(v) => Float(v)
  }

  /** `to_dict()` of the application's offer: the offeror, result, id, locations, price floor
      and revenue, in this order. */
  function ToDict(s: OfferState): (d: Assoc<string, Value>)
    ensures Keys(d) == ["offeror", "winner", "winning_bid", "offer_id", "loc_pickup", "loc_dropoff", "min_price", "revenue"]
  {
    [("offeror", Text(s.carrierId)), ("winner", Text(s.winner)), ("winning_bid", PriceValue(s.winningBid)),
     ("offer_id", Text(s.offerId)), ("loc_pickup", LocValue(s.pickup)), ("loc_dropoff", LocValue(s.dropoff)),
     ("min_price", Float(s.reserve)), ("revenue", Float(s.revenue))]
  }

  /** `to_dict()` of the agent infrastructure's offer: the same without the price floor; the
      bids and the cost are never exposed either. */
  function ToDictInfra(s: OfferState): (d: Assoc<string, Value>)
    ensures Keys(d) == ["offeror", "winner", "winning_bid", "offer_id", "loc_pickup", "loc_dropoff", "revenue"]
  {
    [("offeror", Text(s.carrierId)), ("winner", Text(s.winner)), ("winning_bid", PriceValue(s.winningBid)),
     ("offer_id", Text(s.offerId)), ("loc_pickup", LocValue(s.pickup)), ("loc_dropoff", LocValue(s.dropoff)),
     ("revenue", Float(s.revenue))]
  }

  /** The application's offer dictionary holds, under each of its keys, the field of that
      name: the offeror, the result, the id, the two locations, the price floor and the
      revenue. */
  lemma ToDictEntries(s: OfferState)
    ensures var d := ToDict(s);
      Get(d, "offeror") == Some(Text(s.carrierId)) && Get(d, "winner") == Some(Text(s.winner))
      && Get(d, "winning_bid") == Some(PriceValue(s.winningBid)) && Get(d, "offer_id") == Some(Text(s.offerId))
      && Get(d, "loc_pickup") == Some(LocValue(s.pickup)) && Get(d, "loc_dropoff") == Some(LocValue(s.dropoff))
      && Get(d, "min_price") == Some(Float(s.reserve)) && Get(d, "revenue") == Some(Float(s.revenue))
  {
    var d := ToDict(s);
    assert UniqueKeys(d) by {
      forall i, j | 0 <= i < j < |d| ensures d[i].0 != d[j].0 {
        assert d[i].0 == Keys(d)[i] && d[j].0 == Keys(d)[j];
      }
    }
    assert d[0].0 == "offeror" && d[1].0 == "winner" && d[2].0 == "winning_bid" && d[3].0 == "offer_id";
    assert d[4].0 == "loc_pickup" && d[5].0 == "loc_dropoff" && d[6].0 == "min_price" && d[7].0 == "revenue";
  }

  /** The agent infrastructure's offer dictionary holds the same fields under the same keys,
      and has no price floor. */
  lemma ToDictInfraEntries(s: OfferState)
    ensures var d := ToDictInfra(s);
      Get(d, "offeror") == Some(Text(s.carrierId)) && Get(d, "winner") == Some(Text(s.winner))
      && Get(d, "winning_bid") == Some(PriceValue(s.winningBid)) && Get(d, "offer_id") == Some(Text(s.offerId))
      && Get(d, "loc_pickup") == Some(LocValue(s.pickup)) && Get(d, "loc_dropoff") == Some(LocValue(s.dropoff))
      && Get(d, "revenue") == Some(Float(s.revenue)) && Get(d, "min_price") == None
  {
    var d := ToDictInfra(s);
    assert UniqueKeys(d) by {
      forall i, j | 0 <= i < j < |d| ensures d[i].0 != d[j].0 {
        assert d[i].0 == Keys(d)[i] && d[j].0 == Keys(d)[j];
      }
    }
    assert d[0].0 == "offeror" && d[1].0 == "winner" && d[2].0 == "winning_bid" && d[3].0 == "offer_id";
    assert d[4].0 == "loc_pickup" && d[5].0 == "loc_dropoff" && d[6].0 == "revenue";
    assert "min_price" !in Keys(d);
  }

  // ---------------------------------------------------------------------------------------
  // Bundles

  function Revenues(os: seq<Offer>): (rs: seq<real>)
    reads set o | o in os
    ensures |rs| == |os| && forall i :: 0 <= i < |os| ==> rs[i] == os[i].revenue
  {
    if os == [] then [] else Revenues(os[..|os| - 1]) + [os[|os| - 1].revenue]
  }

  /** The share of a member with revenue `r` in a bundle of total revenue `total` sold for `bid`. */
  function Share(r: real, total: real, bid: real): real
    requires total != 0.0
  {
    (r / total) * bid
  }

  function Shares(rs: seq<real>, total: real, bid: real): (ss: seq<real>)
    requires total != 0.0
    ensures |ss| == |rs| && forall i :: 0 <= i < |rs| ==> ss[i] == Share(rs[i], total, bid)
  {
    if rs == [] then [] else Shares(rs[..|rs| - 1], total, bid) + [Share(rs[|rs| - 1], total, bid)]
  }

  /** A share is the revenue scaled by `bid / total`. */
  lemma ShareIsScaled(r: real, total: real, bid: real, k: real)
    requires total != 0.0 && k == bid / total
    ensures Share(r, total, bid) == r * k
  {
  }

  lemma {:induction false} SharesAreScaled(rs: seq<real>, total: real, bid: real, k: real)
    requires total != 0.0
    requires forall i :: 0 <= i < |rs| ==> Share(rs[i], total, bid) == rs[i] * k
    ensures Shares(rs, total, bid) == Scaled(rs, k)
  {
    if rs != [] {
      var init := rs[..|rs| - 1];
      assert forall i :: 0 <= i < |init| ==> init[i] == rs[i];
      SharesAreScaled(init, total, bid, k);
    }
  }

  /** The ratio that turns revenues into shares, returned rather than defined in the caller so
      that the caller's proof stays linear. */
  lemma ShareRatio(rs: seq<real>, total: real, bid: real) returns (k: real)
    requires total != 0.0
    ensures Shares(rs, total, bid) == Scaled(rs, k) && Share(Sum(rs), total, bid) == Sum(rs) * k
  {
    k := bid / total;
    forall i | 0 <= i < |rs|
      ensures Share(rs[i], total, bid) == rs[i] * k
    {
      ShareIsScaled(rs[i], total, bid, k);
    }
    SharesAreScaled(rs, total, bid, k);
    ShareIsScaled(Sum(rs), total, bid, k);
  }

  lemma SharesSumScaled(rs: seq<real>, total: real, bid: real)
    requires total != 0.0
    ensures Sum(Shares(rs, total, bid)) == (Sum(rs) / total) * bid
  {
    var k := ShareRatio(rs, total, bid);
    SumScaled(rs, k);
  }

  lemma RatioOne(s: real, bid: real)
    requires s != 0.0
    ensures (s / s) * bid == bid
  {
  }

  /** The shares of a bundle with nonzero revenue add up to the winning bid. */
  lemma SharesSumToBid(rs: seq<real>, bid: real)
    requires Sum(rs) != 0.0
    ensures Sum(Shares(rs, Sum(rs), bid)) == bid
  {
    SharesSumScaled(rs, Sum(rs), bid);
    RatioOne(Sum(rs), bid);
  }

  /** Several offers auctioned as one lot. */
  class Auction {
    var bundle: seq<Offer>
    var revenue: real
    var bids: Assoc<string, real>
    var winner: string
    var winningBid: Price

    /** `Auction(offers)` for a list of offers: the lot's revenue is the members' total. */
    constructor (offers: seq<Offer>)
      ensures bundle == offers && revenue == Sum(Revenues(offers)) && bids == []
      ensures winner == NONE && winningBid == NoPrice
    {
      bundle := offers;
      revenue := Sum(Revenues(offers));
      bids := [];
      winner := NONE;
      winningBid := NoPrice;
    }

    method AddBid(bidder: string, bid: real)
      modifies this
      ensures bids == Put(old(bids), bidder, bid)
      ensures bundle == old(bundle) && revenue == old(revenue) && winner == old(winner) && winningBid == old(winningBid)
    {
      bids := Put(bids, bidder, bid);
    }

    method UpdateResults()
      modifies this
      ensures (winner, winningBid) == Outcome(bids)
      ensures bundle == old(bundle) && revenue == old(revenue) && bids == old(bids)
    {
      var highest := HighestBid(bids);
      if highest.Some? {
        winner, winningBid := highest.value.0, Amount(highest.value.1);
      } else {
        winner, winningBid := NONE, NoPrice;
      }
    }

    /** `calculate_shares()`: each member's winning bid becomes its revenue share of the lot's
        winning bid. With a zero lot revenue (ZeroDivisionError) or no winning bid yet (the
        sentinel string cannot be multiplied) on a non-empty lot the call fails and nothing
        changes; `ok` tells which happened. */
    method CalculateShares() returns (ok: bool)
      modifies set o | o in bundle
      ensures ok <==> bundle == [] || (revenue != 0.0 && winningBid.Amount?)
      ensures ok && bundle != [] ==> forall o :: o in bundle ==>
                o.winningBid == Amount(Share(old(o.revenue), revenue, winningBid.value))
      ensures forall o :: o in bundle ==> o.State() == old(o.State()).(winningBid := o.winningBid)
      ensures !ok ==> forall o :: o in bundle ==> o.winningBid == old(o.winningBid)
    {
      if bundle == [] {
        return true;
      }
      if revenue == 0.0 || winningBid.NoPrice? {
        return false;
      }
      var i := 0;
      while i < |bundle|
        invariant 0 <= i <= |bundle|
        invariant forall o :: o in bundle[..i] ==> o.winningBid == Amount(Share(o.revenue, revenue, winningBid.value))
        invariant forall o :: o in bundle ==> o.State() == old(o.State()).(winningBid := o.winningBid)
        invariant forall o :: o in bundle && o !in bundle[..i] ==> o.winningBid == old(o.winningBid)
      {
        var o := bundle[i];
        o.winningBid := Amount(Share(o.revenue, revenue, winningBid.value));
        assert bundle[..i + 1] == bundle[..i] + [o];
        i := i + 1;
      }
      assert bundle[..i] == bundle;
      return true;
    }
  }

  /** With the lot's revenue computed from its members, the shares `calculate_shares` writes
      add up to the lot's winning bid (280 of 1000 revenue units of a lot sold for 500 take 140). */
  lemma CalculatedSharesSum(bundle: seq<real>, bid: real)
    requires Sum(bundle) != 0.0
    ensures var shares := seq(|bundle|, i requires 0 <= i < |bundle| => Share(bundle[i], Sum(bundle), bid));
      Sum(shares) == bid
  {
    var shares := seq(|bundle|, i requires 0 <= i < |bundle| => Share(bundle[i], Sum(bundle), bid));
    assert shares == Shares(bundle, Sum(bundle), bid);
    SharesSumToBid(bundle, bid);
  }

  lemma ShareExample()
    ensures Share(280.0, 280.0 + 400.0 + 220.0 + 100.0, 500.0) == 140.0
  {
  }
}
