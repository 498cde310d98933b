/** The request handlers of the agent infrastructure. Unlike the application's, they work on
    the offers whose positions are listed in `indices_on_auction`, and a bid may name a whole
    bundle (`"bundle_" + first offer id`), in which case every member offer on the list gets its
    revenue-proportional share of the bid. */
module InfraHandler {
  import opened Common
  import opened Dict
  import opened Ledger
  import opened Messages
  import opened Utilities

  const BUNDLE_PREFIX: string := "bundle_"

  /** The states at the listed positions, in list order (`[offers[i] for i in indices]`). */
  function Pick(ss: seq<OfferState>, idx: seq<nat>): (r: seq<OfferState>)
    requires forall p :: 0 <= p < |idx| ==> idx[p] < |ss|
    ensures |r| == |idx| && forall p :: 0 <= p < |idx| ==> r[p] == ss[idx[p]]
  {
    seq(|idx|, p requires 0 <= p < |idx| => ss[idx[p]])
  }

  /** `re.match("bundle_.*", offer_id)`: the id starts with the prefix. */
  predicate IsBundleId(id: string)
  {
    |id| >= |BUNDLE_PREFIX| && id[..|BUNDLE_PREFIX|] == BUNDLE_PREFIX
  }

  /** `s` has no occurrence of `pat` anywhere. */
  predicate Free(s: string, pat: string)
    requires pat != []
    decreases |s|
  {
    |s| < |pat| || (s[..|pat|] != pat && Free(s[1..], pat))
  }

  /** `s.replace(pat, "")`: every occurrence of `pat`, scanning left to right, is removed. */
  function RemoveAll(s: string, pat: string): (r: string)
    requires pat != []
    ensures |r| <= |s|
    ensures Free(s, pat) ==> r == s
    decreases |s|
  {
    if |s| < |pat| then s
    else if s[..|pat|] == pat then RemoveAll(s[|pat|..], pat)
    else [s[0]] + RemoveAll(s[1..], pat)
  }

  /** The id a bundle bid names is recovered from `"bundle_" + id` when `id` holds no copy of
      the prefix (otherwise `replace` also cuts into the id). */
  lemma BundleIdRoundTrip(id: string)
    requires Free(id, BUNDLE_PREFIX)
    ensures IsBundleId(BUNDLE_PREFIX + id) && RemoveAll(BUNDLE_PREFIX + id, BUNDLE_PREFIX) == id
  {
    var s := BUNDLE_PREFIX + id;
    assert s[..|BUNDLE_PREFIX|] == BUNDLE_PREFIX;
    assert s[|BUNDLE_PREFIX|..] == id;
  }

  /** Hidden occurrences are removed too: `"bunbundle_dle_"` becomes `"bundle_"`. */
  lemma RemoveAllNested()
    ensures RemoveAll("bun" + BUNDLE_PREFIX + "dle_", BUNDLE_PREFIX) == BUNDLE_PREFIX
  {
    var t := BUNDLE_PREFIX + "dle_";
    RemoveAllCut(BUNDLE_PREFIX, "dle_");
    assert RemoveAll("dle_", BUNDLE_PREFIX) == "dle_";
    RemoveAllSkip('n', t, BUNDLE_PREFIX, 1);
    RemoveAllSkip('u', ['n'] + t, BUNDLE_PREFIX, 2);
    RemoveAllSkip('b', ['u'] + (['n'] + t), BUNDLE_PREFIX, 3);
    assert "bun" + BUNDLE_PREFIX + "dle_" == ['b'] + (['u'] + (['n'] + t));
    PrefixSplit();
  }

  lemma PrefixSplit()
    ensures ['b'] + (['u'] + (['n'] + "dle_")) == BUNDLE_PREFIX
  {
  }

  /** An occurrence at the front is cut away. */
  lemma RemoveAllCut(pat: string, t: string)
    requires pat != []
    ensures RemoveAll(pat + t, pat) == RemoveAll(t, pat)
  {
    assert (pat + t)[..|pat|] == pat && (pat + t)[|pat|..] == t;
  }

  /** A character that does not start an occurrence (the text differs from the pattern at
      position `i`) is kept. */
  lemma RemoveAllSkip(c: char, t: string, pat: string, i: nat)
    requires pat != [] && 0 < i < |pat| <= |t| + 1 && t[i - 1] != pat[i]
    ensures RemoveAll([c] + t, pat) == [c] + RemoveAll(t, pat)
  {
    var s := [c] + t;
    assert s[..|pat|][i] == t[i - 1];
    assert s[1..] == t;
  }

  /** The member list of the bundle a bid names, or `None` when the lookup raises: no bundle
      starts with the named offer (the key is `None`, so `bundles[None]` raises KeyError), or
      the scan meets an empty bundle (IndexError). */
  function BundleMembers(bundles: Assoc<int, seq<string>>, offerId: string): (r: Option<seq<string>>)
    ensures r.Some? ==> exists k :: k in Keys(bundles) && Get(bundles, k) == Some(r.value)
    ensures r.Some? ==> r.value != [] && r.value[0] == RemoveAll(offerId, BUNDLE_PREFIX)
  {
    match FirstKey(bundles, RemoveAll(offerId, BUNDLE_PREFIX))
    case Key(k) =>
      assert k in Keys(bundles);
      var members := Get(bundles, k).value;
      if members != [] && members[0] == RemoveAll(offerId, BUNDLE_PREFIX) then Some(members) else None
    case _ => None
  }

  /** Whether the bid on `offerId` lands on an offer: a bundle bid on every member of the
      bundle (on sale or not), a single bid on the offer with that id that is on sale. */
  predicate Lands(s: OfferState, offerId: string, members: Option<seq<string>>)
  {
    if IsBundleId(offerId) then members.Some? && s.offerId in members.value
    else s.offerId == offerId && s.onAuction
  }

  /** The total revenue of the offers on auction, the denominator of every share. */
  function TotalOnAuction(ss: seq<OfferState>, idx: seq<nat>): real
    requires forall p :: 0 <= p < |idx| ==> idx[p] < |ss|
  {
    Sum(RevenueOf(Pick(ss, idx)))
  }

  /** `calculate_share(offer_id, bid)` as its test fixes it: the offer's revenue over the total
      revenue of the offers on auction, times the bid; a zero total raises ZeroDivisionError. */
  function CalculateShare(revenue: real, total: real, bid: real): (r: Option<real>)
    ensures r.None? <==> total == 0.0
    ensures r.Some? ==> r.value * total == revenue * bid
  {
    if total == 0.0 then None else Some(Share(revenue, total, bid))
  }

  /** The test's numbers: revenue 280 out of 280 + 400 + 220 + 100, bid 500, share 140. */
  lemma CalculateShareExample()
    ensures CalculateShare(280.0, Sum([280.0, 400.0, 220.0, 100.0]), 500.0) == Some(140.0)
  {
    assert [280.0, 400.0, 220.0, 100.0][..3] == [280.0, 400.0, 220.0];
    assert [280.0, 400.0, 220.0][..2] == [280.0, 400.0];
    assert [280.0, 400.0][..1] == [280.0];
  }

  /** When every offer on auction belongs to the bundle, the shares sum to the bid. */
  lemma SharesAddUp(ss: seq<OfferState>, idx: seq<nat>, bid: real)
    requires forall p :: 0 <= p < |idx| ==> idx[p] < |ss|
    requires TotalOnAuction(ss, idx) != 0.0
    ensures var rs := RevenueOf(Pick(ss, idx));
      Sum(seq(|rs|, p requires 0 <= p < |rs| => CalculateShare(rs[p], Sum(rs), bid).value)) == bid
  {
    var rs := RevenueOf(Pick(ss, idx));
    SharesSumToBid(rs, bid);
    assert seq(|rs|, p requires 0 <= p < |rs| => CalculateShare(rs[p], Sum(rs), bid).value) == Shares(rs, Sum(rs), bid);
  }

  /** The bid lands on one of the first `n` listed offers. */
  predicate LandsAmong(ss: seq<OfferState>, idx: seq<nat>, n: nat, offerId: string, members: Option<seq<string>>)
    requires n <= |idx| && forall p :: 0 <= p < |idx| ==> idx[p] < |ss|
  {
    exists q :: 0 <= q < n && Lands(ss[idx[q]], offerId, members)
  }

  lemma LandsAmongStep(ss: seq<OfferState>, idx: seq<nat>, n: nat, offerId: string, members: Option<seq<string>>)
    requires n < |idx| && forall p :: 0 <= p < |idx| ==> idx[p] < |ss|
    ensures LandsAmong(ss, idx, n + 1, offerId, members)
      <==> LandsAmong(ss, idx, n, offerId, members) || Lands(ss[idx[n]], offerId, members)
  {
  }

  /** Position `j` is on the list of offers on auction. */
  predicate Listed(idx: seq<nat>, j: nat)
  {
    exists q :: 0 <= q < |idx| && idx[q] == j
  }

  /** `ts` is `ss` after the bid of `carrierId` was recorded on every listed offer it lands on,
      `amount(revenue)` being what is recorded on an offer with that revenue. */
  ghost predicate BidsPlaced(ss: seq<OfferState>, ts: seq<OfferState>, idx: seq<nat>, carrierId: string,
                             offerId: string, members: Option<seq<string>>, amount: real -> real)
  {
    |ts| == |ss| && forall j: nat :: j < |ss| ==>
      ts[j] == if Listed(idx, j) && Lands(ss[j], offerId, members)
               then ss[j].(bids := Put(ss[j].bids, carrierId, amount(ss[j].revenue))) else ss[j]
  }

  /** A bid of `bid` as recorded on an offer: its share of a bundle bid, the bid itself otherwise. */
  function Recorded(offerId: string, total: real, bid: real): real -> real
  {
    (revenue: real) => if IsBundleId(offerId) && total != 0.0 then Share(revenue, total, bid) else bid
  }

  /** The auctioneer's state as the handlers see it. `started` stands for `auction_time` being
      set. */
  class Auctioneer {
    var offers: seq<Offer>
    var registered: seq<string>
    var active: seq<string>
    var phase: Phase
    var indices: seq<nat>
    var bundles: Assoc<int, seq<string>>
    var idOnAuction: Option<string>
    var nextRound: bool
    var started: bool

    /** The offers are distinct objects and the positions on auction are positions of offers. */
    ghost predicate Valid()
      reads this
    {
      Distinct(offers) && forall p :: 0 <= p < |indices| ==> indices[p] < |offers|
    }

    constructor ()
      ensures Valid() && offers == [] && registered == [] && active == [] && phase == REGIST && indices == []
      ensures bundles == [] && idOnAuction == None && nextRound && !started
    {
      offers, registered, active, phase, indices := [], [], [], REGIST, [];
      bundles, idOnAuction, nextRound, started := [], None, true, false;
    }

    /** `add_offer(carrier_id, payload)`, taken to append a new offer as the application's does. */
    method AddOffer(carrierId: string, payload: OfferPayload)
      requires Valid()
      modifies this
      ensures Valid() && |offers| == |old(offers)| + 1 && offers[..|old(offers)|] == old(offers)
      ensures fresh(offers[|old(offers)|])
      ensures offers[|old(offers)|].State() == OfferState(carrierId, payload.offerId, payload.pickup, payload.dropoff,
                                                           payload.profit, payload.revenue, None, [], false, NONE, NoPrice)
      ensures registered == old(registered) && active == old(active) && phase == old(phase) && indices == old(indices)
      ensures bundles == old(bundles) && idOnAuction == old(idOnAuction) && nextRound == old(nextRound)
      ensures started == old(started)
    {
      var offer := new Offer.WithCost(carrierId, payload.offerId, payload.pickup, payload.dropoff, payload.profit,
                                      payload.revenue, None);
      offers := offers + [offer];
    }
  }

  /** The dictionaries of a list of offers, `[ob.to_dict() for ob in offers_on_auction]`. */
  function InfraDicts(ls: seq<OfferState>): (ds: seq<Assoc<string, Value>>)
    ensures |ds| == |ls| && forall p :: 0 <= p < |ls| ==> ds[p] == ToDictInfra(ls[p])
  {
    seq(|ls|, p requires 0 <= p < |ls| => ToDictInfra(ls[p]))
  }

  /** The loop `for i in indices_on_auction: offers_on_auction.append(offers[i])` followed by
      the dictionaries. */
  method Gather(offers: seq<Offer>, idx: seq<nat>) returns (ds: seq<Assoc<string, Value>>)
    requires forall p :: 0 <= p < |idx| ==> idx[p] < |offers|
    ensures ds == InfraDicts(Pick(States(offers), idx))
  {
    ds := [];
    var p := 0;
    while p < |idx|
      invariant p <= |idx| && |ds| == p
      invariant forall q :: 0 <= q < p ==> ds[q] == ToDictInfra(offers[idx[q]].State())
    {
      ds := ds + [ToDictInfra(offers[idx[p]].State())];
      p := p + 1;
    }
    assert |ds| == |idx|;
  }

  /** `bundles[get_key_from_bundle_by_first_element(bundles, offer_id.replace("bundle_", ""))]`
      and the scan of its first element, `None` where they raise. */
  method LookupBundle(bundles: Assoc<int, seq<string>>, offerId: string) returns (members: Option<seq<string>>)
    ensures members == BundleMembers(bundles, offerId)
  {
    members := None;
    var first := RemoveAll(offerId, BUNDLE_PREFIX);
    var key := GetKeyFromBundleByFirstElement(bundles, first);
    if key.Key? {
      var found := Get(bundles, key.key).value;
      if found != [] && found[0] == first {
        members := Some(found);
      }
    }
  }

  /** The loop of `send_offer` over `indices_on_auction`: the pickups, the dropoffs and the
      revenue sum of the listed offers that are on sale, in list order. */
  method AggregateListed(offers: seq<Offer>, idx: seq<nat>) returns (pickups: seq<Loc>, dropoffs: seq<Loc>, revenue: real)
    requires forall p :: 0 <= p < |idx| ==> idx[p] < |offers|
    ensures var on := OnSale(Pick(States(offers), idx));
      pickups == Pickups(on) && dropoffs == Dropoffs(on) && revenue == Sum(RevenueOf(on))
  {
    ghost var listed := Pick(States(offers), idx);
    pickups, dropoffs, revenue := [], [], 0.0;
    var p := 0;
    while p < |idx|
      invariant 0 <= p <= |idx|
      invariant pickups == Pickups(OnSale(listed[..p])) && dropoffs == Dropoffs(OnSale(listed[..p]))
      invariant revenue == Sum(RevenueOf(OnSale(listed[..p])))
    {
      var offer := offers[idx[p]];
      AggregateStep(listed, p);
      if offer.onAuction {
        pickups := pickups + [offer.pickup];
        dropoffs := dropoffs + [offer.dropoff];
        revenue := revenue + offer.revenue;
      }
      p := p + 1;
    }
    assert listed[..p] == listed;
  }

  class CarrierHandler {
    const auctioneer: Auctioneer

    constructor (auctioneer: Auctioneer)
      ensures this.auctioneer == auctioneer
    {
      this.auctioneer := auctioneer;
    }

    /** What `register_carrier(data)` answers and does: only in the registration phase, and
        only once per carrier, is the id appended to the registered carriers. */
    twostate predicate RegisterOutcome(carrierId: string, r: Reply)
      reads auctioneer
    {
      (auctioneer.phase != REGIST ==> r == Status("NO_REGISTRATION_PHASE") && unchanged(auctioneer))
      && (auctioneer.phase == REGIST && carrierId in old(auctioneer.registered) ==>
            r == Status("ALREADY_REGISTERED") && unchanged(auctioneer))
      && (auctioneer.phase == REGIST && carrierId !in old(auctioneer.registered) ==>
            r == Status("OK") && auctioneer.registered == old(auctioneer.registered) + [carrierId])
      && (old(Distinct(auctioneer.registered)) ==> Distinct(auctioneer.registered))
      && auctioneer.offers == old(auctioneer.offers) && auctioneer.indices == old(auctioneer.indices)
      && auctioneer.active == old(auctioneer.active) && auctioneer.phase == old(auctioneer.phase)
      && auctioneer.bundles == old(auctioneer.bundles) && auctioneer.idOnAuction == old(auctioneer.idOnAuction)
      && auctioneer.nextRound == old(auctioneer.nextRound)
      && auctioneer.started == old(auctioneer.started) && auctioneer.Valid() == old(auctioneer.Valid())
    }

    method RegisterCarrier(carrierId: string) returns (r: Reply)
      modifies auctioneer
      ensures RegisterOutcome(carrierId, r)
      ensures auctioneer.started == old(auctioneer.started) && auctioneer.offers == old(auctioneer.offers)
    {
      if auctioneer.phase != REGIST {
        return Status("NO_REGISTRATION_PHASE");
      }
      if carrierId in auctioneer.registered {
        return Status("ALREADY_REGISTERED");
      }
      auctioneer.registered := auctioneer.registered + [carrierId];
      r := Status("OK");
    }

    /** What `receive_offer(data)` answers and does: phase first, then registration, then one
        new offer is appended. Every other field apart from `started` stays as it was. */
    twostate predicate ReceiveOfferOutcome(carrierId: string, payload: OfferPayload, r: Reply)
      reads auctioneer, set o | o in auctioneer.offers
    {
      auctioneer.Valid()
      && (auctioneer.phase != REGIST ==> r == Response("OFFER_SUBMISSION_TIMEOUT") && auctioneer.offers == old(auctioneer.offers))
      && (auctioneer.phase == REGIST && carrierId !in auctioneer.registered ==>
            r == Response("NOT_REGISTERED") && auctioneer.offers == old(auctioneer.offers))
      && (auctioneer.phase == REGIST && carrierId in auctioneer.registered ==>
            r == OfferAccepted(payload.offerId) && |auctioneer.offers| == |old(auctioneer.offers)| + 1
            && auctioneer.offers[..|old(auctioneer.offers)|] == old(auctioneer.offers)
            && fresh(auctioneer.offers[|old(auctioneer.offers)|])
            && auctioneer.offers[|old(auctioneer.offers)|].State() == OfferState(carrierId, payload.offerId, payload.pickup,
                 payload.dropoff, payload.profit, payload.revenue, None, [], false, NONE, NoPrice))
      && auctioneer.registered == old(auctioneer.registered) && auctioneer.indices == old(auctioneer.indices)
      && auctioneer.active == old(auctioneer.active) && auctioneer.phase == old(auctioneer.phase)
      && auctioneer.bundles == old(auctioneer.bundles) && auctioneer.idOnAuction == old(auctioneer.idOnAuction)
      && auctioneer.nextRound == old(auctioneer.nextRound)
    }

    method ReceiveOffer(carrierId: string, payload: OfferPayload) returns (r: Reply)
      requires auctioneer.Valid()
      modifies auctioneer
      ensures ReceiveOfferOutcome(carrierId, payload, r) && auctioneer.started == old(auctioneer.started)
      ensures auctioneer.Valid()
    {
      if auctioneer.phase != REGIST {
        return Response("OFFER_SUBMISSION_TIMEOUT");
      }
      if carrierId !in auctioneer.registered {
        return Response("NOT_REGISTERED");
      }
      auctioneer.AddOffer(carrierId, payload);
      r := OfferAccepted(payload.offerId);
    }

    /** What `send_offer(data)` answers: the aggregate of the listed offers that are on sale,
        or NO_ACTIVE_OFFERS when none of them is. */
    predicate SendOfferReply(carrierId: string, r: Reply)
      requires auctioneer.Valid()
      reads auctioneer, set o | o in auctioneer.offers
    {
      (auctioneer.phase != REQ_OFFER ==> r == Status("OFFER_REQUEST_TIMEOUT"))
      && (auctioneer.phase == REQ_OFFER && carrierId !in auctioneer.registered ==> r == Status("NOT_REGISTERED"))
      && (auctioneer.phase == REQ_OFFER && carrierId in auctioneer.registered && auctioneer.offers == [] ==>
            r == Status("NO_OFFERS_AVAILABLE"))
      && (auctioneer.phase == REQ_OFFER && carrierId in auctioneer.registered && auctioneer.offers != [] ==>
            var listed := Pick(States(auctioneer.offers), auctioneer.indices);
            r == if OnSale(listed) == [] then Status("NO_ACTIVE_OFFERS") else Aggregate(auctioneer.idOnAuction, listed))
    }

    method SendOffer(carrierId: string) returns (r: Reply)
      requires auctioneer.Valid()
      ensures SendOfferReply(carrierId, r)
    {
      if auctioneer.phase != REQ_OFFER {
        return Status("OFFER_REQUEST_TIMEOUT");
      } else if carrierId !in auctioneer.registered {
        return Status("NOT_REGISTERED");
      } else if auctioneer.offers == [] {
        return Status("NO_OFFERS_AVAILABLE");
      }
      var pickups, dropoffs, revenue := AggregateListed(auctioneer.offers, auctioneer.indices);
      if pickups == [] {
        return Status("NO_ACTIVE_OFFERS");
      }
      r := OfferOnSale(auctioneer.idOnAuction, pickups, dropoffs, revenue);
    }

    /** What `receive_bid(data)` answers and does: a bid on a listed offer or bundle is
        recorded on every listed offer it lands on, a bundle member receiving its share; a
        raised lookup or share leaves every offer as it was and sends no answer. */
    twostate predicate ReceiveBidOutcome(carrierId: string, offerId: string, bid: real, r: Reply)
      requires old(auctioneer.Valid()) && auctioneer.offers == old(auctioneer.offers) && auctioneer.indices == old(auctioneer.indices)
      reads auctioneer, set o | o in auctioneer.offers
    {
      (auctioneer.phase != BID ==> r == Status("BIDDING_TIMEOUT"))
      && (auctioneer.phase == BID && carrierId !in auctioneer.registered ==> r == Status("NOT_REGISTERED"))
      && var ss, idx := old(States(auctioneer.offers)), auctioneer.indices;
        var members := if IsBundleId(offerId) then BundleMembers(auctioneer.bundles, offerId) else None;
        var total := TotalOnAuction(ss, idx);
        var lands := LandsAmong(ss, idx, |idx|, offerId, members);
        var raises := IsBundleId(offerId) && ((idx != [] && members.None?) || (total == 0.0 && lands));
        if auctioneer.phase != BID || carrierId !in auctioneer.registered || raises then
          (auctioneer.phase == BID && carrierId in auctioneer.registered ==> r == NoReply)
          && States(auctioneer.offers) == ss
        else
          r == (if lands then BidAccepted(offerId) else Status("INVALID_BID"))
          && BidsPlaced(ss, States(auctioneer.offers), idx, carrierId, offerId, members, Recorded(offerId, total, bid))
    }

    /** `receive_bid(data)`. The bundle lookup and the total revenue do not change while the
        loop runs, so they are computed once before it; the lookup still raises only if the
        loop is entered, and a zero total only at the first offer the bid lands on. */
    method ReceiveBid(carrierId: string, offerId: string, bid: real) returns (r: Reply)
      requires auctioneer.Valid()
      modifies set o | o in auctioneer.offers
      ensures ReceiveBidOutcome(carrierId, offerId, bid, r)
    {
      if auctioneer.phase != BID {
        return Status("BIDDING_TIMEOUT");
      }
      if carrierId !in auctioneer.registered {
        return Status("NOT_REGISTERED");
      }
      var offers, idx := auctioneer.offers, auctioneer.indices;
      ghost var ss := States(offers);
      var members: Option<seq<string>> := None;
      if IsBundleId(offerId) {
        members := LookupBundle(auctioneer.bundles, offerId);
        if idx != [] && members.None? {
          return NoReply;
        }
      }
      var total := Sum(RevenueOf(Pick(States(offers), idx)));
      assert total == TotalOnAuction(ss, idx);
      r := PlaceBid(offers, idx, ss, carrierId, offerId, members, total, bid);
    }

    /** What `send_results(data)` answers and does: registration is checked before the
        phase; every carrier that asks in time is appended to `active_carriers`, even twice,
        and gets the dictionaries of all listed offers. */
    twostate predicate SendResultsOutcome(carrierId: string, r: Reply)
      reads auctioneer, set o | o in auctioneer.offers
    {
      auctioneer.offers == old(auctioneer.offers) && auctioneer.registered == old(auctioneer.registered)
      && auctioneer.indices == old(auctioneer.indices) && auctioneer.phase == old(auctioneer.phase)
      && auctioneer.bundles == old(auctioneer.bundles) && auctioneer.idOnAuction == old(auctioneer.idOnAuction)
      && auctioneer.nextRound == old(auctioneer.nextRound)
      && auctioneer.started == old(auctioneer.started) && auctioneer.Valid()
      && (carrierId !in auctioneer.registered ==> r == Status("NOT_REGISTERED") && unchanged(auctioneer))
      && (carrierId in auctioneer.registered && auctioneer.phase != RESULTS ==>
            r == Status("NO_RESULTS_PHASE") && unchanged(auctioneer))
      && (carrierId in auctioneer.registered && auctioneer.phase == RESULTS ==>
            auctioneer.active == old(auctioneer.active) + [carrierId]
            && r == if auctioneer.indices == [] then Status("NO_RESULTS_AVAILABLE")
                    else Results(InfraDicts(Pick(States(auctioneer.offers), auctioneer.indices))))
    }

    method SendResults(carrierId: string) returns (r: Reply)
      requires auctioneer.Valid()
      modifies auctioneer
      ensures SendResultsOutcome(carrierId, r)
      ensures auctioneer.Valid() && auctioneer.started == old(auctioneer.started) && auctioneer.offers == old(auctioneer.offers)
    {
      if carrierId !in auctioneer.registered {
        return Status("NOT_REGISTERED");
      }
      if auctioneer.phase != RESULTS {
        return Status("NO_RESULTS_PHASE");
      }
      auctioneer.active := auctioneer.active + [carrierId];
      var ds := Gather(auctioneer.offers, auctioneer.indices);
      if ds == [] {
        return Status("NO_RESULTS_AVAILABLE");
      }
      r := Results(ds);
    }

    /** What `confirm(data)` answers: the phase is checked before the registration; the
        dictionaries of all listed offers with `next_round`. */
    predicate ConfirmReply(carrierId: string, r: Reply)
      requires auctioneer.Valid()
      reads auctioneer, set o | o in auctioneer.offers
    {
      (auctioneer.phase != CONFIRM ==> r == Status("CONFIRMATION_TIMEOUT"))
      && (auctioneer.phase == CONFIRM && carrierId !in auctioneer.registered ==> r == Status("NOT_REGISTERED"))
      && (auctioneer.phase == CONFIRM && carrierId in auctioneer.registered ==>
            r == if auctioneer.indices == [] then Status("NO_CONFIRMATION_AVAILABLE")
                 else LotsConfirmed(InfraDicts(Pick(States(auctioneer.offers), auctioneer.indices)), auctioneer.nextRound))
    }

    method Confirm(carrierId: string) returns (r: Reply)
      requires auctioneer.Valid()
      ensures ConfirmReply(carrierId, r)
    {
      if auctioneer.phase != CONFIRM {
        return Status("CONFIRMATION_TIMEOUT");
      }
      if carrierId !in auctioneer.registered {
        return Status("NOT_REGISTERED");
      }
      var ds := Gather(auctioneer.offers, auctioneer.indices);
      if ds == [] {
        return Status("NO_CONFIRMATION_AVAILABLE");
      }
      r := LotsConfirmed(ds, auctioneer.nextRound);
    }

    /** `run()`: every action goes to its handler, whose answer and effect the handler's
        outcome states, and nothing outside that handler's frame changes. The first offer from
        a registered carrier sets the auction time; an unknown action changes nothing. */
    method Handle(msg: Message) returns (r: Reply)
      requires auctioneer.Valid()
      modifies auctioneer, set o | o in auctioneer.offers
      ensures auctioneer.Valid()
      ensures msg.Register? ==> RegisterOutcome(msg.carrierId, r)
      ensures msg.SubmitOffer? ==> ReceiveOfferOutcome(msg.carrierId, msg.payload, r)
      ensures msg.RequestOffer? ==> SendOfferReply(msg.carrierId, r)
      ensures msg.Bid? ==> unchanged(auctioneer) && ReceiveBidOutcome(msg.carrierId, msg.offerId, msg.bid, r)
      ensures msg.RequestResults? ==> SendResultsOutcome(msg.carrierId, r)
      ensures msg.RequestConfirmation? ==> ConfirmReply(msg.carrierId, r)
      ensures msg.Unknown? ==> r == NoReply
      ensures !msg.Register? && !msg.SubmitOffer? && !msg.RequestResults? ==> unchanged(auctioneer)
      ensures !msg.Bid? ==> forall o :: o in old(auctioneer.offers) ==> unchanged(o)
      ensures msg.SubmitOffer? ==> auctioneer.started == (old(auctioneer.started) || msg.carrierId in old(auctioneer.registered))
      ensures !msg.SubmitOffer? ==> auctioneer.started == old(auctioneer.started)
    {
      match msg {
        case Register(c) => r := RegisterCarrier(c);
        case SubmitOffer(c, payload) =>
          if !auctioneer.started && c in auctioneer.registered {
            auctioneer.started := true;
          }
          r := ReceiveOffer(c, payload);
        case RequestOffer(c) => r := SendOffer(c);
        case Bid(c, id, bid) => r := ReceiveBid(c, id, bid);
        case RequestResults(c) => r := SendResults(c);
        case RequestConfirmation(c) => r := Confirm(c);
        case Unknown(_) => r := NoReply;
      }
    }
  }

  /** The loop of `receive_bid` over the offers on auction, once the bundle is known. */
  method PlaceBid(offers: seq<Offer>, idx: seq<nat>, ghost ss: seq<OfferState>, carrierId: string, offerId: string,
                  members: Option<seq<string>>, total: real, bid: real) returns (r: Reply)
    requires Distinct(offers) && ss == States(offers)
    requires forall p :: 0 <= p < |idx| ==> idx[p] < |offers|
    requires total == TotalOnAuction(ss, idx)
    requires IsBundleId(offerId) && idx != [] ==> members.Some?
    modifies set o | o in offers
    ensures var lands := LandsAmong(ss, idx, |idx|, offerId, members);
      if IsBundleId(offerId) && total == 0.0 && lands then r == NoReply && States(offers) == ss
      else (r == (if lands then BidAccepted(offerId) else Status("INVALID_BID"))
            && BidsPlaced(ss, States(offers), idx, carrierId, offerId, members, Recorded(offerId, total, bid)))
  {
    var landed := false;
    var p := 0;
    while p < |idx|
      invariant p <= |idx|
      invariant landed == LandsAmong(ss, idx, p, offerId, members)
      invariant IsBundleId(offerId) && total == 0.0 ==> !landed
      invariant BidsPlaced(ss, States(offers), idx[..p], carrierId, offerId, members, Recorded(offerId, total, bid))
    {
      var raises, hit := BidPass(offers, idx, ss, p, carrierId, offerId, members, total, bid);
      if raises {
        assert LandsAmong(ss, idx, |idx|, offerId, members) by {
          assert Lands(ss[idx[p]], offerId, members);
        }
        return NoReply;
      }
      LandsAmongStep(ss, idx, p, offerId, members);
      landed := landed || hit;
      p := p + 1;
    }
    assert idx[..p] == idx;
    r := if landed then BidAccepted(offerId) else Status("INVALID_BID");
  }

  /** The body of the bid loop of `receive_bid` on the p-th offer on auction: computing the
      share raises when a bundle bid with a zero total lands there, and then, the bid having
      landed nowhere before, nothing has been recorded; otherwise the bid is recorded there
      when it lands. */
  method BidPass(offers: seq<Offer>, idx: seq<nat>, ghost ss: seq<OfferState>, p: nat, carrierId: string,
                 offerId: string, members: Option<seq<string>>, total: real, bid: real) returns (raises: bool, hit: bool)
    requires Distinct(offers) && |ss| == |offers| && p < |idx|
    requires forall q :: 0 <= q < |idx| ==> idx[q] < |offers|
    requires BidsPlaced(ss, States(offers), idx[..p], carrierId, offerId, members, Recorded(offerId, total, bid))
    requires IsBundleId(offerId) && total == 0.0 ==> !LandsAmong(ss, idx, p, offerId, members)
    modifies set o | o in offers
    ensures hit == Lands(ss[idx[p]], offerId, members)
    ensures raises <==> hit && IsBundleId(offerId) && total == 0.0
    ensures raises ==> States(offers) == ss
    ensures !raises ==> BidsPlaced(ss, States(offers), idx[..p + 1], carrierId, offerId, members, Recorded(offerId, total, bid))
  {
    ghost var amount := Recorded(offerId, total, bid);
    ghost var before := States(offers);
    Unmoved(ss, before, idx[..p], carrierId, offerId, members, amount, idx[p]);
    hit := Lands(offers[idx[p]].State(), offerId, members);
    raises := hit && IsBundleId(offerId) && CalculateShare(offers[idx[p]].revenue, total, bid).None?;
    if raises {
      NothingPlaced(ss, before, idx, p, carrierId, offerId, members, amount);
      return;
    }
    BidStep(offers, idx[p], carrierId, offerId, members, total, bid);
    ghost var after := States(offers);
    PlacedStep(ss, before, after, idx, p, carrierId, offerId, members, amount);
  }

  /** One pass of the bid loop, on the offer at position `i`, once it is known that computing
      a share does not raise: the bid is recorded, as a share for a bundle bid, when it lands
      there. */
  method BidStep(offers: seq<Offer>, i: nat, carrierId: string, offerId: string, members: Option<seq<string>>,
                 total: real, bid: real)
    requires Distinct(offers) && i < |offers|
    requires Lands(offers[i].State(), offerId, members) && IsBundleId(offerId) ==> total != 0.0
    modifies offers[i]
    ensures !Lands(old(offers[i].State()), offerId, members) ==> offers[i].State() == old(offers[i].State())
    ensures Lands(old(offers[i].State()), offerId, members) ==> offers[i].State() == old(offers[i].State()).(bids :=
      Put(old(offers[i].bids), carrierId, Recorded(offerId, total, bid)(old(offers[i].revenue))))
    ensures forall j :: 0 <= j < |offers| && j != i ==> offers[j].State() == old(offers[j].State())
    ensures var before, after := old(States(offers)), States(offers);
      (forall j :: 0 <= j < |before| && j != i ==> after[j] == before[j])
      && after[i] == if Lands(before[i], offerId, members)
                     then before[i].(bids := Put(before[i].bids, carrierId, Recorded(offerId, total, bid)(before[i].revenue)))
                     else before[i]
  {
    var offer := offers[i];
    if Lands(offer.State(), offerId, members) {
      var recorded := bid;
      if IsBundleId(offerId) {
        recorded := CalculateShare(offer.revenue, total, bid).value;
      }
      RecordBid(offers, i, carrierId, recorded);
    }
  }

  /** `offer.add_bid(carrier_id, bid)` on one offer of a list of distinct offers: the others
      keep their state. */
  method RecordBid(offers: seq<Offer>, i: nat, carrierId: string, bid: real)
    requires Distinct(offers) && i < |offers|
    modifies offers[i]
    ensures offers[i].State() == old(offers[i].State()).(bids := Put(old(offers[i].bids), carrierId, bid))
    ensures forall j :: 0 <= j < |offers| && j != i ==> offers[j].State() == old(offers[j].State())
  {
    offers[i].AddBid(carrierId, bid);
  }

  /** An offer whose bids were recorded still has the id, the sale flag and the revenue it had. */
  lemma Unmoved(ss: seq<OfferState>, ts: seq<OfferState>, idx: seq<nat>, carrierId: string, offerId: string,
                members: Option<seq<string>>, amount: real -> real, i: nat)
    requires BidsPlaced(ss, ts, idx, carrierId, offerId, members, amount) && i < |ss|
    ensures ts[i].offerId == ss[i].offerId && ts[i].onAuction == ss[i].onAuction && ts[i].revenue == ss[i].revenue
    ensures Lands(ts[i], offerId, members) == Lands(ss[i], offerId, members)
  {
  }

  /** Before the first offer a bid lands on, nothing has been recorded. */
  lemma NothingPlaced(ss: seq<OfferState>, ts: seq<OfferState>, idx: seq<nat>, p: nat, carrierId: string,
                      offerId: string, members: Option<seq<string>>, amount: real -> real)
    requires p <= |idx| && BidsPlaced(ss, ts, idx[..p], carrierId, offerId, members, amount)
    requires forall q :: 0 <= q < p ==> idx[q] < |ss| && !Lands(ss[idx[q]], offerId, members)
    ensures ts == ss
  {
    forall j: nat | j < |ss|
      ensures ts[j] == ss[j]
    {
      if Listed(idx[..p], j) {
        var q :| 0 <= q < |idx[..p]| && idx[..p][q] == j;
        assert idx[q] == j;
      }
    }
  }

  /** One pass of the bid loop extends the recorded bids from the first `p` listed positions
      to the first `p + 1`. */
  lemma PlacedStep(ss: seq<OfferState>, before: seq<OfferState>, after: seq<OfferState>, idx: seq<nat>, p: nat,
                   carrierId: string, offerId: string, members: Option<seq<string>>, amount: real -> real)
    requires p < |idx| && idx[p] < |ss|
    requires BidsPlaced(ss, before, idx[..p], carrierId, offerId, members, amount)
    requires |after| == |before|
    requires forall j :: 0 <= j < |before| && j != idx[p] ==> after[j] == before[j]
    requires after[idx[p]] == if Lands(before[idx[p]], offerId, members)
      then before[idx[p]].(bids := Put(before[idx[p]].bids, carrierId, amount(before[idx[p]].revenue))) else before[idx[p]]
    ensures BidsPlaced(ss, after, idx[..p + 1], carrierId, offerId, members, amount)
  {
    var i := idx[p];
    Unmoved(ss, before, idx[..p], carrierId, offerId, members, amount, i);
    assert Listed(idx[..p + 1], i) by { assert idx[..p + 1][p] == i; }
    forall j: nat | j < |ss|
      ensures Listed(idx[..p + 1], j) <==> Listed(idx[..p], j) || j == i
    {
      if Listed(idx[..p + 1], j) && j != i {
        var q :| 0 <= q < p + 1 && idx[..p + 1][q] == j;
        assert idx[..p][q] == j;
      }
      if Listed(idx[..p], j) {
        var q :| 0 <= q < p && idx[..p][q] == j;
        assert idx[..p + 1][q] == j;
      }
    }
    forall j: nat | j < |ss|
      ensures after[j] == if Listed(idx[..p + 1], j) && Lands(ss[j], offerId, members)
        then ss[j].(bids := Put(ss[j].bids, carrierId, amount(ss[j].revenue))) else ss[j]
    {
      if j == i && Lands(ss[i], offerId, members) && Listed(idx[..p], i) {
        PutTwice(ss[i].bids, carrierId, amount(ss[i].revenue));
      }
    }
  }
}
