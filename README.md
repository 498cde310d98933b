# Collaborative carrier network: auction core

A collaborative carrier network lets freight carriers trade transport requests that fit their
own tours badly. Each carrier prices its requests with a cost model. It offers the ones whose
profit falls below a threshold to a central auctioneer. It bids on the other carriers' offers
by how little each one would lengthen its own tour. This project models the auction core of
that system in Dafny and proves properties of the model.

It covers two generations of the system.

- **The web application** (`Application/`):
  - the auctioneer's phase engine (registration, offers, bundles, rounds, lot by lot bidding,
    results and confirmation);
  - the carrier request handlers;
  - the offer ledger with its bids and results;
  - the carrier side: routing data, the cost model, request generation, spreadsheet upload.
- **The agent infrastructure** (`Agent_Infrastructure/`):
  - the handlers of the bundle-aware auctioneer, where a bid on a bundle is shared out among
    the bundle's offers;
  - the older dictionary-based auctioneer class;
  - the routing and algorithm classes that turn a carrier's offers into an optimization problem;
  - the dictionary utilities.
- **The simulation**: its request generator (`Agent_Simulation/GenerateRequests.py`).

## Modelling choices

- Offers that several holders share and change in place are a class, `Ledger.Offer`. The
  holders are the auctioneer's list, a bundle and the handlers. `State()` snapshots an offer
  as a value; `States` does the same for a list of offers.
- Python dictionaries are association lists in key order (`Dict`). Overwriting a key keeps
  its position.
- The auctioneers and handlers are classes with the source's fields. Their methods state in
  `ensures` the reply and the whole new state, in terms of functions on values. The lemmas
  beside them prove what those functions mean.
- The web auctioneer's `handle_auction_phases` is a thread that waits on clocks. Here it is a
  step machine, `AppAuctioneer.Auctioneer.Advance`. Each call performs the work between two
  waits; the stage it resumes from is a field.
- The carrier list objects of the web auctioneer are a class, `AppAuctioneer.CarrierList`.
  This keeps the aliasing that `registered_carriers = active_carriers` creates.
- Python's `round(x, 2)` and the tour optimizer's distance are function parameters (`round`
  and `tourDistance`). `np.argsort` is a parameter `order` that must be an ascending argsort
  of the revenues.
- Random draws are parameters or nondeterministic choices (`:|`).
- Where the code and its documentation disagree, the model follows the code. One example: the
  depot of the web application's tour data is read from the configuration's `num_vehicles`
  key (`Algorithm.AlgorithmBase.Application`).

## Model

| member | source | states |
|---|---|---|
| Dict.Get | Application/offer.py:18 | nothing exactly for an absent key; otherwise the value stored with the key, the only one in a dictionary with unique keys |
| Dict.Put | Application/offer.py:18 | `d[k] = v`: an existing key keeps its place, a new one goes last; `k` maps to `v`, every other key keeps its value, and keys stay unique |
| Dict.ReplaceEntry | Application/offer.py:18 | overwriting the entry of a present key keeps every key in its place, stores the new value and leaves every other key's value and the uniqueness of keys |
| Dict.AppendEntry | Application/offer.py:18 | appending the entry of a new key puts it last, stores its value and leaves every other key's value and the uniqueness of keys |
| Dict.PutTwice | Application/offer.py:18 | storing the same bid twice is storing it once |
| Ledger.MaxIndex | Application/offer.py:24 | the position returned holds a value at least every other value, and every earlier position holds a strictly smaller one (the first maximum, as `max` returns it) |
| Ledger.HighestBid | Application/offer.py:20-25 | `None` exactly when every bid value is zero (no value is truthy, including no bids at all); otherwise an entry of the bids whose amount is at least every bid and strictly above every earlier entry's |
| Ledger.OutcomeSpec | Application/offer.py:27-35 | the stored result is ("NONE", "NONE") when no bid is truthy, otherwise a (bidder, amount) pair that is in the bids and holds the largest amount; no reserve price is consulted |
| Ledger.Resolved | Application/offer.py:27-35 | updating the results keeps the bids, the sale flag, the offer id and the offeror |
| Ledger.ResolvedIdempotent | Application/offer.py:27-35 | updating the results twice gives the state a single update gives |
| Ledger.Offer.constructor | Application/offer.py:5-15 | a new offer holds the given offeror, id, locations, price floor and revenue, no bids, is not on auction, and has winner and winning bid "NONE" |
| Ledger.Offer.WithCost | Agent_Infrastructure/offer.py:40-51 | the same for the agent infrastructure's offer, which also stores profit (as the price floor) and cost as given |
| Ledger.Offer.AddBid | Application/offer.py:17-18 | the bidder's entry becomes the new bid, replacing an earlier one, every other bidder's entry and every other field unchanged |
| Ledger.Offer.UpdateResults | Agent_Infrastructure/offer.py:63-71 | the new state is the resolved old state: winner and winning bid from the highest truthy bid or ("NONE", "NONE"), all else unchanged |
| Ledger.ToDict | Application/offer.py:37-47 | the dictionary has exactly the keys offeror, winner, winning_bid, offer_id, loc_pickup, loc_dropoff, min_price, revenue, in this order (their values: `Ledger.ToDictEntries`) |
| Ledger.ToDictInfra | Agent_Infrastructure/offer.py:73-82 | the dictionary has exactly seven keys; it has neither profit, cost nor bids (their values: `Ledger.ToDictInfraEntries`) |
| Ledger.ToDictEntries | Application/offer.py:37-47 | each key holds the offer's own field: offeror the carrier id, winner and winning_bid the stored result, offer_id, the two locations as position dictionaries, min_price the floor and revenue the revenue |
| Ledger.ToDictInfraEntries | Agent_Infrastructure/offer.py:73-82 | each of the seven keys holds the offer's own field (offeror, winner, winning_bid, offer_id, the two locations, revenue), and min_price has no value |
| Ledger.Shares | Agent_Infrastructure/offer.py:33-35 | one share per member revenue, share i being revenue_i / total × winning bid |
| Common.Scaled | Agent_Infrastructure/offer.py:33-35 | a scaled list has one entry per revenue |
| Common.SumScaled | Agent_Infrastructure/offer.py:33-35 | scaling every revenue by k scales their sum by k |
| Ledger.ShareIsScaled | Agent_Infrastructure/offer.py:33-35 | one share is its revenue times the ratio winning bid / total |
| Ledger.SharesAreScaled | Agent_Infrastructure/offer.py:33-35 | when every revenue's share is that revenue times k, the share list is the revenue list scaled by k |
| Ledger.ShareRatio | Agent_Infrastructure/offer.py:33-35 | there is one ratio k such that the share list is the revenue list scaled by k and the share of the revenue sum is that sum times k |
| Ledger.SharesSumScaled | Agent_Infrastructure/offer.py:33-35 | the shares add up to (sum of the revenues / total) × winning bid |
| Ledger.SharesSumToBid | Agent_Infrastructure/offer.py:33-35 | when the total is the members' revenue sum and nonzero, the shares add up to the winning bid |
| Ledger.Auction.constructor | Agent_Infrastructure/offer.py:2-6 | the lot holds the given offers, its revenue is the sum of their revenues, and it has no bids; its result starts as "NONE" and no price, attributes the source sets only in `update_results` |
| Ledger.Auction.AddBid | Agent_Infrastructure/offer.py:8-9 | the lot's bid map gets the bidder's entry overwritten; bundle, revenue and result unchanged |
| Ledger.Auction.UpdateResults | Agent_Infrastructure/offer.py:18-26 | the lot's (winner, winning bid) is the highest truthy bid or ("NONE", "NONE"); bids, bundle and revenue unchanged |
| Ledger.Auction.CalculateShares | Agent_Infrastructure/offer.py:33-35 | on success every member's winning bid is its revenue share of the lot's winning bid and no other field of any member changes; with a zero lot revenue or no winning bid on a non-empty lot the call fails and no member changes |
| Ledger.CalculatedSharesSum | Agent_Infrastructure/offer.py:33-35 | the winning bids `calculate_shares` writes add up to the lot's winning bid |
| Ledger.ShareExample | tests/test_auctioneer.py:70-79 | offer1 with revenue 280 in a bundle of revenue 1000 sold for 500 takes 140 |
| Messages.OnSale | Application/carrier_handler.py:114-115 | the offers on sale are a sub-list of the offers |
| Messages.OnSaleExactly | Application/carrier_handler.py:115 | an offer is listed iff it is one of the offers and is on sale |
| Messages.AggregateLengths | Application/carrier_handler.py:114-126 | the pickup and dropoff lists have one entry per offer on sale |
| Messages.AggregateStep | Application/carrier_handler.py:114-118 | one more offer adds its pickup, dropoff and revenue exactly when it is on sale |
| Utilities.ManhattanDistance | Agent_Infrastructure/utilities.py:60-67 | the manhattan distance is never negative and is zero exactly for identical points |
| Utilities.FirstKey | Agent_Infrastructure/utilities.py:94-98 | the key found is the first, in insertion order, whose list starts with `value`, every earlier list being non-empty and not starting with it; no key exactly when no list starts with it; IndexError when an empty list is met first |
| Utilities.GetKeyFromBundleByFirstElement | Agent_Infrastructure/utilities.py:94-98 | the loop returns what `FirstKey` describes |
| Utilities.FlattenAndRoundDict | Agent_Infrastructure/utilities.py:76-87 | the loops build the flattened dictionary `Flatten` describes |
| Utilities.PutNested | Agent_Infrastructure/utilities.py:79-83 | the inner loop stores every entry of a nested dictionary under "key_subkey", a float rounded when places is not zero |
| Utilities.FlattenKeys | Agent_Infrastructure/utilities.py:76-87 | the flattened keys are exactly the keys of the plain entries and the "key_subkey" names of the nested entries |
| Utilities.FlatKeyStep | Agent_Infrastructure/utilities.py:78-86 | a name is a flattened key of a dictionary exactly when it is one of the entries before the last or the last entry supplies it |
| Utilities.FlattenPlain | Agent_Infrastructure/utilities.py:85-86 | a dictionary without nested values comes back unchanged |
| Utilities.FlattenValues | Agent_Infrastructure/utilities.py:79-84 | every flattened value is a plain top-level value or a (rounded) value of a nested dictionary; nothing deeper |
| Utilities.PutSubsKeys | Agent_Infrastructure/utilities.py:80-84 | storing the nested entries adds exactly the "key_subkey" names |
| Utilities.ToFloat | Agent_Infrastructure/utilities.py:91 | `float(v)` of an int is the same number as a float, a float stays as it is |
| Utilities.PyDict.DictToFloat | Agent_Infrastructure/utilities.py:89-92 | every value is converted in place, keys and their order unchanged, and the same dictionary object is returned |
| Utilities.IndicesBelow | Application/utilities.py:13-14 | at most one position per value, each a valid position |
| Utilities.IndicesBelowSound | Application/utilities.py:14 | every selected position has a value strictly below the threshold |
| Utilities.IndicesBelowComplete | Application/utilities.py:13-14 | a position is selected if and only if its value is below the threshold |
| Utilities.IndicesBelowAscending | Application/utilities.py:13 | selected positions ascend strictly |
| Utilities.BelowThresholdSelects | Agent_Infrastructure/utilities.py:38-55 | the requests are, in row order, the (pickup, dropoff, profit, revenue) tuples of exactly the rows whose profit is below the threshold |
| Utilities.GetRequestsBelowThresh | Agent_Infrastructure/utilities.py:36-58 | the loop returns the requests `BelowThreshold` describes |
| Utilities.ManhattanSymmetric | Agent_Infrastructure/utilities.py:60-67 | the distance is symmetric |
| Utilities.ManhattanTriangle | Agent_Infrastructure/utilities.py:60-67 | the distance obeys the triangle inequality |
| AppUtilities.RequestsBelowSelects | Application/utilities.py:13-25 | the requests are, in ascending position order, those whose profit is below the threshold, request i taking locations 2i+1 and 2i+2 and its own profit; the call fails (IndexError) exactly when a selected position has no such locations |
| AppUtilities.RequestsBelowFailureSticks | Application/utilities.py:15-22 | once a selected position runs past the location list, every longer profit list fails as well |
| AppUtilities.GetRequestsBelowThresh | Application/utilities.py:9-28 | the `multiplier` loop returns what `RequestsBelow` describes |
| Bundles.Placement | Application/auctioneer.py:57-71 | the steps place 2·⌊n/2⌋ ids, the offer of rank i then the offer of rank n-1-i |
| Bundles.PlacementAt | Application/auctioneer.py:70-71 | step i appends the id of rank i, then the id of rank n-1-i |
| Bundles.BundleSizes | Application/auctioneer.py:62-71 | every bundle but the last holds four ids (two per step, `bundle_size` two steps per bundle); the last holds two or four |
| Bundles.BundlesCoverPlacement | Application/auctioneer.py:62-71 | the bundles, concatenated, are exactly the placed ids in placement order |
| Bundles.Step | Application/auctioneer.py:63-71 | after a step its bundle key is present |
| Bundles.StepAt | Application/auctioneer.py:63-71 | a step opens its bundle empty on an even step (`i % 2 == 0`, including i = 0), appends the two ids, and leaves every other key as it was |
| Bundles.FillGet | Application/auctioneer.py:62-71 | after i steps, bundle k holds the ids of steps 2k and 2k+1 run so far |
| Bundles.FillOutside | Application/auctioneer.py:62-71 | a key the first i steps have not written keeps its old value, and stays absent if it was absent |
| Bundles.FillBundles | Application/auctioneer.py:62-71 | after all ⌊n/2⌋ steps the dictionary holds the bundles, and every key no step touched keeps its value from before the call |
| Bundles.PlacePair | Application/auctioneer.py:63-71 | one pass of the loop body, with the `bundle_iterator` counter, gives the dictionary after one more step |
| Bundles.PlaceBundles | Application/auctioneer.py:56-71 | the loop leaves bundle k holding the ids placed by steps 2k and 2k+1 and every other key as it was |
| Bundles.PlacementDistinct | Application/auctioneer.py:62-71 | no offer id is placed twice |
| Bundles.PlacedRank | Application/auctioneer.py:62-71 | every rank except the middle one of an odd count is placed |
| Bundles.PlacementCoverage | Application/auctioneer.py:62-73 | with an even number of offers every offer is in a bundle; with an odd number the offer of middle rank is in none and every other offer is in one |
| Bundles.FixtureOrder | tests/test_auctioneer.py:14 | [4, 3, 5, 2, 0, 1] sorts the fixture revenues 280, 400, 260, 220, 100, 240 |
| Bundles.FixtureBundles | tests/test_auctioneer.py:44-45 | the fixture gives the two bundles [offer5, offer2, offer4, offer1] and [offer6, offer3] |
| AppAuctioneer.CarrierList.constructor | Application/auctioneer.py:48-49 | a carrier list starts empty |
| AppAuctioneer.CarrierList.Append | Application/carrier_handler.py:74 | `append` adds the id at the end and keeps the rest |
| AppAuctioneer.Reset | Application/auctioneer.py:171-174 | a dropped offer loses its winner and winning bid, and its bids only when every bid is below the price floor; nothing else changes |
| AppAuctioneer.ResetIdempotent | Application/auctioneer.py:171-174 | resetting twice is resetting once |
| AppAuctioneer.PurgeClosedForm | Application/auctioneer.py:167-174 | after all registered carriers are looked at, an offer is reset exactly when it is on sale and some registered, inactive carrier wins or owns it; otherwise it is unchanged |
| AppAuctioneer.PurgeAllActive | Application/auctioneer.py:167-168 | when every registered carrier is active, no offer changes |
| AppAuctioneer.Kept | Application/auctioneer.py:177-182 | the new auction list is no longer than the old one |
| AppAuctioneer.KeptExactly | Application/auctioneer.py:179-181 | an offer is kept if and only if it was listed, is unsold and its owner is registered |
| AppAuctioneer.KeptDistinct | Application/auctioneer.py:177-182 | a list without duplicates stays without duplicates |
| AppAuctioneer.ValideBidsAsWritten | Application/auctioneer.py:190-196 | as written, the test fails exactly when some unsold offer holds a bid (`offer.profit` does not exist), and otherwise answers False |
| AppAuctioneer.ValideBidsCrash | Application/auctioneer.py:195 | an unsold offer with floor 10 and a bid of 12: the code as written fails where the intended check finds a legal bid |
| AppAuctioneer.Auctioneer.constructor | Application/auctioneer.py:42-54 | empty offers and carrier lists (two distinct lists), `next_round` set, phase REGIST, no bundles, nothing on sale |
| AppAuctioneer.Auctioneer.AddOffer | Application/auctioneer.py:148-155 | one new offer is appended with the payload's profit as price floor, no bids and no winner; the rest of the list and all other state unchanged |
| AppAuctioneer.Auctioneer.GenerateBundles | Application/auctioneer.py:56-71 | with `order` the argsort of the revenues, the bundles are those placed from the sorted ranks; offers and everything else unchanged |
| AppAuctioneer.Auctioneer.CheckActiveCarriers | Application/auctioneer.py:166-175 | every offer ends as `PurgeBy` of its old state over the old registered and active lists, and the registered list becomes the active list object |
| AppAuctioneer.Auctioneer.DropCarrier | Application/auctioneer.py:169-174 | for one inactive carrier, every offer takes one `PurgeStep` |
| AppAuctioneer.Auctioneer.ConsiderCarrier | Application/auctioneer.py:168-174 | every offer moves one more `PurgeStep` along the registered list, for this carrier |
| AppAuctioneer.PurgeOffer | Application/auctioneer.py:170-174 | the offer takes one `PurgeStep` for the inactive carrier: on sale and won or owned by it, it is reset; otherwise it is left as it was |
| AppAuctioneer.Auctioneer.UpdateAuctionList | Application/auctioneer.py:177-182 | the offer list becomes `Kept` of the old list; nothing else changes |
| AppAuctioneer.Auctioneer.ValideBidsForUnsoldOffer | Application/auctioneer.py:190-196 | True if and only if some unsold offer holds a bid above its price floor (corrected to read `min_price`) |
| AppAuctioneer.Auctioneer.StartRound | Application/auctioneer.py:78-89 | `sold` reset to 0, bundles generated only in round 0, the round's lots are the offers listed now, and an empty list ends the round at once; `print_auction_list` is taken as a no-op, where the source raises (see "## Left out") |
| AppAuctioneer.Auctioneer.ResetRound | Application/auctioneer.py:81-89 | the sold counter is 0 and the lots of the round are the offers listed now, from the first; an empty list goes straight to the end of the round; nothing else changes; `print_auction_list` is taken as a no-op, where the source raises (see "## Left out") |
| AppAuctioneer.Auctioneer.AnnounceLot | Application/auctioneer.py:98-103 | the lot's offer goes on sale, `id_on_auction` names it, phase REQ_OFFER |
| AppAuctioneer.Auctioneer.OpenBids | Application/auctioneer.py:109 | phase BID; nothing else changes |
| AppAuctioneer.Auctioneer.ResolveLot | Application/auctioneer.py:115-116 | phase RESULTS and the lot's offer resolved by `update_results` |
| AppAuctioneer.Auctioneer.ConfirmLot | Application/auctioneer.py:121-133 | inactive carriers' offers purged, phase CONFIRM, a sale counted when the lot has a winner, and `next_round` cleared exactly when the last lot closes a round with no sale and no legal bid |
| AppAuctioneer.Auctioneer.CountSale | Application/auctioneer.py:127-133 | a sale is counted exactly when the lot has a winner; `next_round` is cleared exactly after the last lot of a round without a sale or legal bid |
| AppAuctioneer.Auctioneer.RetireLot | Application/auctioneer.py:89-135 | the lot's offer leaves the sale and the next lot follows, or the round ends after the last one |
| AppAuctioneer.Auctioneer.EndRound | Application/auctioneer.py:137-141 | the list becomes `Kept`; the day closes when `next_round` is clear, otherwise the next round starts, back to round 0 after `max_rounds` |
| AppAuctioneer.Auctioneer.NextRound | Application/auctioneer.py:76-78 | the day closes when `next_round` is clear; otherwise the round counter moves on, back to 0 after `max_rounds`, and the next round starts; the offers and nothing else change |
| AppAuctioneer.Auctioneer.Advance | Application/auctioneer.py:75-141 | for each stage it resumes from, the whole new state is that stage's step: waiting starts round 0 once an offer has arrived (and any round is allowed), a round start bundles on round 0 and starts the round, then announcement, bidding, resolution, confirmation (unsold offers purged and `next_round` set), retirement and the round's end, each with the contract of its own step, and a closed day changes nothing; only the offer on the lot may change; one step keeps `Valid`, `next_round` once cleared stays clear and is cleared only at a confirmation; `print_auction_list` is taken as a no-op, where the source raises (see "## Left out") |
| AppHandler.FindOnSale | Application/carrier_handler.py:173-175 | the loop stops at the first offer on sale, or finds none |
| AppHandler.CarrierHandler.constructor | Application/carrier_handler.py:10-14 | the handler shares the engine it is given |
| AppHandler.CarrierHandler.RegisterCarrier | Application/carrier_handler.py:65-75 | NO_REGISTRATION_PHASE outside REGIST, ALREADY_REGISTERED for a known id (list unchanged), otherwise OK with the id appended; the list stays free of duplicates |
| AppHandler.CarrierHandler.ReceiveOffer | Application/carrier_handler.py:79-93 | phase checked before registration; only a registered carrier in REGIST gets OK with its offer id and exactly one new offer appended |
| AppHandler.CarrierHandler.SendOffer | Application/carrier_handler.py:97-127 | phase, then registration, then an empty list are refused in that order; otherwise the reply is the aggregate of the offers on sale under `id_on_auction` |
| AppHandler.CollectOnSale | Application/carrier_handler.py:111-118 | the pickups and dropoffs of exactly the offers on sale, in list order, and the sum of their revenues |
| AppHandler.CarrierHandler.ReceiveBid | Application/carrier_handler.py:132-160 | BIDDING_TIMEOUT, NOT_REGISTERED, INVALID_BID when no offer with that id is on sale (nothing changes); otherwise exactly the first such offer records the bid |
| AppHandler.BidOn | Application/carrier_handler.py:151 | offer i's bid map gets the carrier's entry set to the bid, every other field of offer i and every other offer of the list unchanged |
| AppHandler.CarrierHandler.SendResults | Application/carrier_handler.py:164-183 | registration checked before the phase; the carrier is marked active and the first offer on sale returned only when one is on sale |
| AppHandler.CarrierHandler.Confirm | Application/carrier_handler.py:186-204 | phase checked before registration; the first offer on sale is returned with `next_round`, or NO_CONFIRMATION_AVAILABLE |
| AppHandler.CarrierHandler.Handle | Application/carrier_handler.py:16-41 | each action's reply and new state are exactly those its handler promises (`RegisterOutcome`, `ReceiveOfferOutcome`, `SendOfferReply`, `ReceiveBidOutcome`, `SendResultsOutcome`, `ConfirmReply`); only an offer may change the auctioneer, only a bid the offers, and only registration or results the carrier lists; the first offer from a registered carrier starts the engine, nothing else does; an unknown action gets no reply |
| InfraHandler.Pick | Agent_Infrastructure/carrier_handler.py:195-196 | the picked list has one state per listed index, `offers[i]` at its position |
| InfraHandler.RemoveAll | Agent_Infrastructure/carrier_handler.py:158 | `replace` never lengthens the id and leaves an id without the prefix unchanged |
| InfraHandler.BundleIdRoundTrip | Agent_Infrastructure/carrier_handler.py:156-158 | `"bundle_" + id` matches the bundle pattern and stripping the prefix gives `id` back, for every id without a copy of the prefix |
| InfraHandler.RemoveAllNested | Agent_Infrastructure/carrier_handler.py:158 | occurrences that `replace` scans past are removed too: "bunbundle_dle_" becomes "bundle_" |
| InfraHandler.RemoveAllCut | Agent_Infrastructure/carrier_handler.py:158 | an occurrence of the prefix at the front of the id is cut away and the scan goes on after it |
| InfraHandler.RemoveAllSkip | Agent_Infrastructure/carrier_handler.py:158 | a character that does not start an occurrence is kept and the scan goes on from the next one |
| InfraHandler.BundleMembers | Agent_Infrastructure/carrier_handler.py:159-161 | a found member list is the value of some bundle key and starts with the offer the bid names; otherwise the lookup raises |
| InfraHandler.CalculateShare | tests/test_auctioneer.py:70-79 | the share fails exactly on a zero total, and otherwise is revenue/total times the bid |
| InfraHandler.CalculateShareExample | tests/test_auctioneer.py:74-79 | revenue 280 of 280 + 400 + 220 + 100 and bid 500 give 140 |
| InfraHandler.SharesAddUp | tests/test_auctioneer.py:70-79 | over the offers on auction, the shares of a bid sum to the bid |
| InfraHandler.LandsAmongStep | Agent_Infrastructure/carrier_handler.py:153-169 | the bid lands among the first n+1 listed offers iff it lands among the first n or on offer n+1 |
| InfraHandler.InfraDicts | Agent_Infrastructure/carrier_handler.py:203 | one dictionary per offer, `to_dict()` of that offer |
| InfraHandler.Auctioneer.constructor | Application/auctioneer.py:44-54 | no offers, carriers, listed positions or bundles; phase REGIST, `next_round` set, not started |
| InfraHandler.Auctioneer.AddOffer | Agent_Infrastructure/carrier_handler.py:91 | exactly one new offer is appended and nothing else changes |
| InfraHandler.Gather | Agent_Infrastructure/carrier_handler.py:195-203 | the loop returns the dictionaries of the listed offers in list order |
| InfraHandler.AggregateListed | Agent_Infrastructure/carrier_handler.py:111-122 | the loop over the listed offers returns the pickups, the dropoffs and the revenue sum of those on sale, in list order |
| InfraHandler.LookupBundle | Agent_Infrastructure/carrier_handler.py:158-161 | the member list of the bundle whose first element the bid names, or none where the lookup raises |
| InfraHandler.CarrierHandler.constructor | Agent_Infrastructure/carrier_handler.py:14-17 | the handler shares the engine it is given |
| InfraHandler.CarrierHandler.RegisterCarrier | Agent_Infrastructure/carrier_handler.py:68-78 | NO_REGISTRATION_PHASE, ALREADY_REGISTERED (nothing changes), or OK with the id appended; no duplicates arise |
| InfraHandler.CarrierHandler.ReceiveOffer | Agent_Infrastructure/carrier_handler.py:82-96 | phase before registration; only a registered carrier in REGIST gets its offer appended and OK |
| InfraHandler.CarrierHandler.SendOffer | Agent_Infrastructure/carrier_handler.py:100-133 | refusals in source order, then the aggregate of the listed offers on sale, or NO_ACTIVE_OFFERS when none is on sale |
| InfraHandler.CarrierHandler.ReceiveBid | Agent_Infrastructure/carrier_handler.py:137-177 | BIDDING_TIMEOUT, NOT_REGISTERED, no reply (and no change) when the bundle lookup or the share raises; otherwise the bid (a share for a bundle) is recorded on exactly the listed offers it lands on, and the reply is OK iff it landed somewhere |
| InfraHandler.CarrierHandler.SendResults | Agent_Infrastructure/carrier_handler.py:181-206 | registration before phase; in RESULTS the carrier is appended to the active list, even again, and gets every listed offer's dictionary or NO_RESULTS_AVAILABLE |
| InfraHandler.CarrierHandler.Confirm | Agent_Infrastructure/carrier_handler.py:209-234 | phase before registration; every listed offer's dictionary with `next_round`, or NO_CONFIRMATION_AVAILABLE; nothing changes |
| InfraHandler.CarrierHandler.Handle | Agent_Infrastructure/carrier_handler.py:19-45 | each action's reply and new state are exactly those its handler promises (`RegisterOutcome`, `ReceiveOfferOutcome`, `SendOfferReply`, `ReceiveBidOutcome`, `SendResultsOutcome`, `ConfirmReply`); requests, confirmations, bids and unknown actions leave the auctioneer unchanged, only a bid changes an offer; the first offer of a registered carrier starts the engine and nothing else does; an unknown action gets no reply |
| InfraHandler.PlaceBid | Agent_Infrastructure/carrier_handler.py:153-177 | the loop records the bid on every listed offer it lands on and no other, answers OK iff it landed, and stops with no change when the first landing share divides by zero |
| InfraHandler.BidPass | Agent_Infrastructure/carrier_handler.py:154-169 | one pass raises exactly when a bundle bid with a zero total lands on the offer, with nothing recorded so far; otherwise the recorded bids extend to one more listed offer |
| InfraHandler.BidStep | Agent_Infrastructure/carrier_handler.py:154-169 | one pass records the bid (or its share) on offer i exactly when it lands there; every other offer unchanged |
| InfraHandler.RecordBid | Agent_Infrastructure/offer.py:53-54 | `add_bid` on one offer of a list of distinct offers changes that offer's bids only |
| InfraHandler.Unmoved | Agent_Infrastructure/carrier_handler.py:153-169 | recording bids keeps every offer's id, sale flag and revenue, so whether a bid lands does not change |
| InfraHandler.NothingPlaced | Agent_Infrastructure/carrier_handler.py:153-165 | before the first offer a bid lands on, no offer has changed |
| InfraHandler.PlacedStep | Agent_Infrastructure/carrier_handler.py:153-169 | one pass extends the recorded bids from the first p listed positions to the first p+1 |
| LegacyAuctioneer.AddBid | Agent_Infrastructure/auctioneer_class.py:59-66 | the bidder's entry becomes the bid, every other bidder's entry and every other field are unchanged |
| LegacyAuctioneer.HighestBid | Agent_Infrastructure/auctioneer_class.py:68-78 | nothing exactly when there are no bids; otherwise a stored entry with the largest bid, the first such in dictionary order |
| LegacyAuctioneer.HighestBidVersusLedger | Agent_Infrastructure/auctioneer_class.py:74-78 | agrees with the later offers' selection except on all-zero bids, which have a winner here and none there |
| LegacyAuctioneer.ToDict | Agent_Infrastructure/auctioneer_class.py:80-92 | the keys offeror, offer_id, loc_pickup, loc_dropoff, min_price in that order; bids are not exposed (their values: `LegacyAuctioneer.ToDictEntries`) |
| LegacyAuctioneer.ResultDict | Agent_Infrastructure/auctioneer_class.py:320-332 | the keys offer_id, winner_carrier_id, winning_bet, loc_pickup, loc_dropoff in that order (their values: `LegacyAuctioneer.ResultDictEntries`) |
| LegacyAuctioneer.ToDictEntries | Agent_Infrastructure/auctioneer_class.py:80-92 | offeror is the offering carrier, offer_id the offer's id, the two locations the offer's own, min_price its floor |
| LegacyAuctioneer.ResultDictEntries | Agent_Infrastructure/auctioneer_class.py:320-332 | offer_id is the stored id; winner_carrier_id and winning_bet are "NONE" without bids, otherwise the highest bidder and its amount; the locations are the offer's own |
| LegacyAuctioneer.ResultList | Agent_Infrastructure/auctioneer_class.py:318-332 | one result per stored offer, in dictionary order |
| LegacyAuctioneer.ResultWinners | Agent_Infrastructure/auctioneer_class.py:320-324 | each result names the highest bidder, and "NONE" exactly for an offer without bids |
| LegacyAuctioneer.CollectResults | Agent_Infrastructure/auctioneer_class.py:318-332 | the loop builds exactly `ResultList` |
| LegacyAuctioneer.ReceiveBidAsWritten | Agent_Infrastructure/auctioneer_class.py:284-305 | as written, the carrier gets no answer exactly when a registered carrier's bid in BID does not exceed the floor of a stored offer |
| LegacyAuctioneer.UnboundPayload | Agent_Infrastructure/auctioneer_class.py:296-305 | a bid of 5 on an offer with floor 10 is left without an answer |
| LegacyAuctioneer.AnyBid | Agent_Infrastructure/auctioneer_class.py:159 | true exactly when some stored offer has a bid |
| LegacyAuctioneer.WithdrawSold | Agent_Infrastructure/auctioneer_class.py:169-171 | the loop keeps exactly the entries without bids, in order |
| LegacyAuctioneer.WithdrawnExactly | Agent_Infrastructure/auctioneer_class.py:169-171 | an entry survives iff its offer has no bid; afterwards no offer has a bid and the ids stay unique |
| LegacyAuctioneer.Auctioneer.constructor | Agent_Infrastructure/auctioneer_class.py:105-120 | no carriers, offers or fetched results; phase REGIST, `next_round` set, not started, not closed |
| LegacyAuctioneer.Auctioneer.RegisterCarrier | Agent_Infrastructure/auctioneer_class.py:218-233 | NO_REGISTRATION_PHASE, ALREADY_REGISTERED, or OK with the id appended; no duplicates arise; nothing else changes |
| LegacyAuctioneer.Auctioneer.ReceiveOffer | Agent_Infrastructure/auctioneer_class.py:237-261 | phase before registration; the offer is stored under its id with the payload's profit as floor, replacing an earlier one in place; other ids unchanged |
| LegacyAuctioneer.Auctioneer.SendOffersList | Agent_Infrastructure/auctioneer_class.py:264-281 | refusals in source order, then the dictionaries of all stored offers in dictionary order |
| LegacyAuctioneer.Auctioneer.ReceiveBid | Agent_Infrastructure/auctioneer_class.py:284-305 | unknown id INVALID_OFFER_ID; a bid above the floor is recorded and accepted; a bid at or below it gets INVALID_BID (corrected); always an answer, agreeing with the code as written wherever that answers |
| LegacyAuctioneer.Auctioneer.SendResults | Agent_Infrastructure/auctioneer_class.py:308-339 | registration before phase; in the results phase the carrier is recorded as having fetched and gets `ResultList` with `str(next_round)` |
| LegacyAuctioneer.Auctioneer.Advance | Agent_Infrastructure/auctioneer_class.py:140-171 | REGIST waits for the first offer, then REQ_OFFER, BID, RESULTS; `next_round` cleared exactly when a non-empty list has no bid; after the results the day closes or the bid offers are withdrawn; CONFIRM never occurs; a closed day stays closed |
| LegacyAuctioneer.Auctioneer.Handle | Agent_Infrastructure/auctioneer_class.py:186-214 | each action's reply and new state are exactly those its handler promises (`RegisterOutcome`, `ReceiveOfferOutcome`, `OffersListReply`, `ReceiveBidOutcome`, `SendResultsOutcome`); the first offer from a registered carrier starts the day; a request for offers changes nothing; confirmations and unknown actions get no answer and change nothing |
| Algorithm.Excluded | Agent_Infrastructure/algorithm.py:22-24 | both endpoint locations of every ignored request are excluded |
| Algorithm.Kept | Agent_Infrastructure/algorithm.py:23-27 | a sweep keeps at most the locations it passes |
| Algorithm.KeptSound | Agent_Infrastructure/algorithm.py:23-27 | every kept location is one of the original locations and none of the excluded ones |
| Algorithm.Renumber | Agent_Infrastructure/algorithm.py:32 | one renumbered pair per surviving request, each endpoint replaced by its new index |
| Algorithm.RanksStep | Agent_Infrastructure/algorithm.py:23-29 | one more location extends the mapping by its new index exactly when it is kept |
| Algorithm.Sweep | Agent_Infrastructure/algorithm.py:23-29 | the loop over the locations returns exactly the kept locations in order and the mapping of their old positions to their new ones |
| Algorithm.KeptGrows | Agent_Infrastructure/algorithm.py:23-29 | a kept location at old position j is the next entry of the kept list after the first j positions |
| Algorithm.RanksTranslate | Agent_Infrastructure/algorithm.py:23-29 | the mapping is defined exactly on the kept positions, sends each to the position of the same location in the kept list, and is strictly increasing |
| Algorithm.FilterRequestsSpec | Agent_Infrastructure/algorithm.py:16-33 | the filtered pairs are valid indices into the filtered locations, name the same locations as the surviving requests did, and no ignored request survives |
| Algorithm.FilterSingleAgrees | Agent_Infrastructure/algorithm.py:22-33 | with one ignored request the code as written gives the intended result |
| Algorithm.FilterTwiceDuplicates | Agent_Infrastructure/algorithm.py:22-29 | ignoring both requests of a five-location list yields six locations as written, the depot alone as intended |
| Algorithm.SweepFirst | Agent_Infrastructure/algorithm.py:23-27 | the sweep for the first request keeps three locations |
| Algorithm.SweepSecond | Agent_Infrastructure/algorithm.py:23-27 | the sweep for the second request keeps three locations |
| Algorithm.SweepBoth | Agent_Infrastructure/algorithm.py:23-27 | one sweep over both requests keeps the depot alone |
| Algorithm.Interleave | Agent_Infrastructure/algorithm.py:69-70 | the first k pickups and dropoffs alternate, pickup first |
| Algorithm.NewPairs | Agent_Infrastructure/algorithm.py:71 | the t-th appended pair is (base + 2t, base + 2t + 1), the last two locations after each extension |
| Algorithm.Include | Agent_Infrastructure/algorithm.py:68-71 | the extension loop appends the zipped locations and one pair per zipped request |
| Algorithm.IncludedRequests | Agent_Infrastructure/algorithm.py:68-71 | each appended request names its own pickup and dropoff, and valid indices stay valid |
| Algorithm.DistanceMatrix | Agent_Infrastructure/algorithm.py:44-51 | the matrix is square with one row per location |
| Algorithm.DistanceMatrixShape | Agent_Infrastructure/algorithm.py:44-51 | the matrix is symmetric, each entry the rounded taxicab distance, zero on the diagonal when rounding keeps zero |
| Algorithm.CreateDistanceMatrix | Agent_Infrastructure/algorithm.py:35-51 | the nested append loops build exactly `DistanceMatrix` |
| Algorithm.TourDataFor | Application/tour_calculation.py:8-23 | the stand-alone tour data: the matrix of the locations, the deliveries passed through, one vehicle, depot 0 |
| Algorithm.AlgorithmBase.Infra | Agent_Infrastructure/algorithm.py:6-13 | the given lists, one vehicle, depot 0 |
| Algorithm.AlgorithmBase.Application | Application/algorithm.py:17-28 | the given lists; vehicles and depot both read from the `num_vehicles` configuration key |
| Algorithm.AlgorithmBase.FilterRequestsByIndex | Agent_Infrastructure/algorithm.py:16-33 | corrected: one sweep dropping the endpoints of all ignored requests, giving `FilterRequests` |
| Algorithm.AlgorithmBase.CreateTourData | Agent_Infrastructure/algorithm.py:53-79 | corrected, via `FilterRequests` (see the finding on Agent_Infrastructure/algorithm.py:22-29): the tour data of the filtered (or own) lists with the included requests appended; without ignored requests the object's own lists are extended too, with them they are left alone |
| Algorithm.AlgorithmBase.UpdateLocationsAndAssignments | Agent_Infrastructure/algorithm.py:181-187 | corrected: the object's lists become the filtered lists with the included requests appended, and valid indices stay valid |
| Algorithm.UpdateAsWritten | Agent_Infrastructure/algorithm.py:181-187 | as written, it raises exactly when a request is to be included, after extending the locations by two and leaving the requests as they were |
| Algorithm.MisspeltAssignments | Agent_Infrastructure/algorithm.py:186-187 | one included request leaves two new locations and no request naming them |
| Routing.TourShape | Agent_Infrastructure/routing.py:64-78 | depot first; with k unsold-or-own offers there are 2k+1 locations and k pairs, pair t is (2t+1, 2t+2) and names the t-th such offer's pickup and dropoff |
| Routing.ShapedStep | Agent_Infrastructure/routing.py:70-76 | appending one offer's pickup and dropoff, and the pair of their two new positions, keeps the shape for the offers with that one added |
| Routing.CollectTour | Agent_Infrastructure/routing.py:64-78 | the loop builds exactly `TourOf` |
| Routing.NewTour | Agent_Infrastructure/routing.py:20-23 | a fresh optimiser object whose locations and pairs are `TourOf` the offers |
| Routing.OnAuctionAt | Agent_Infrastructure/routing.py:81-86 | exactly the positions of the offers on auction, ascending |
| Routing.GetOffersOnAuction | Agent_Infrastructure/routing.py:81-86 | the loop returns `OnAuctionAt` of the offers |
| Routing.MarkOne | Application/routing.py:84-89 | one pass sets the offer on auction and selects it exactly when its floor is below the threshold; no other offer of the list changes |
| Routing.MarkBelow | Application/routing.py:84-89 | the selected positions are exactly those below the threshold, ascending; the selected offers are the offers there, and only they are set on auction |
| Routing.UpdatedStatesSpec | Application/routing.py:106-115 | a result for one's own offer changes only winner and winning bid of the offers with that id; any other appends exactly one unsold offer not on auction |
| Routing.OwnResultAppended | Agent_Infrastructure/routing.py:118 | under the id comparison of the agent infrastructure, a carrier reporting its own offer's result gets a second copy and no result; the offeror comparison copies the result |
| Routing.SetResult | Application/routing.py:110-112 | offer i takes the update's winner and winning bid when its id is the update's and is otherwise unchanged; no other offer of the list changes |
| Routing.ApplyResult | Application/routing.py:109-112 | every offer with the update's id takes its result, every other offer is unchanged |
| Routing.AddOffer | Application/routing.py:117-124 | a new offer owned by the offeror, not on auction, unsold |
| Routing.AppendNewOffer | Application/routing.py:115 | the list grows by one fresh offer at the end, built from the update, and stays free of duplicates |
| Routing.CalculateBidConstant | Application/routing.py:94-103 | the bid is 190 whatever the request |
| Routing.Routing.constructor | Agent_Infrastructure/routing.py:13-23 | for a non-empty offer list (line 17 reads the first offer): the offers, depot and carrier are stored, no offer is on auction yet, and the base problem is `TourOf` the offers |
| Routing.Routing.GetLocationsAndAssignments | Application/routing.py:56-70 | the tour of the carrier's current offers |
| Routing.RequestsBelowAsWritten | Application/routing.py:81-91 | as written, the selection raises exactly when there is an offer to compare, and only the empty list gets a (empty) selection |
| Routing.ProfitAttributeRaises | Application/routing.py:85 | one offer with floor 10 below the threshold 100: the code as written raises, where the corrected selection picks position 0 and puts the offer on auction |
| Routing.Routing.GetRequestsBelowThreshold | Application/routing.py:81-91 | corrected, reading `min_price`: the selected offers are, in order, those with floor below the threshold; they are set on auction and their positions appended to `on_auction_indices`; every other offer is unchanged |
| Routing.Routing.UpdateOfferList | Application/routing.py:106-115 | corrected for the agent infrastructure too: comparing with the offeror, an own result is copied onto the list in place and any other result appends one fresh offer |
| Routing.Routing.ReceiveWonOffer | Application/routing.py:113-115 | the won request is appended as one new unsold offer of the offeror, fresh, after the unchanged old list; the on-auction positions are kept |
| Generate.GenerateOddRandom | Application/generate_requests.py:30-35 | the first odd draw is returned, always 7, 9 or 11; none when no draw is odd |
| Generate.CreateRandomLocations | Application/generate_requests.py:37-50 | the locations are the first `count` draws in order, an odd number from 7 to 11 for a count from `generate_odd_random` |
| Generate.DeliveryAmount | Application/generate_requests.py:63 | at most (len-1)/2 requests with at most one location left over; an empty list gives 0, since `int` truncates toward zero |
| Generate.AssignDeliveries | Application/generate_requests.py:52-71 | the `multiplier` loop returns `NewPairs(1, k)` for the computed amount |
| Generate.DeliveriesWellFormed | Application/generate_requests.py:61-68 | pair t is (2t+1, 2t+2), pickup before dropoff, every index a non-depot location and none used twice |
| Generate.FlatPositions | Agent_Simulation/GenerateRequests.py:67 | pair t's indices stand at 2t and 2t+1 of the flattened list |
| Generate.Remove | Agent_Simulation/GenerateRequests.py:68-69 | `remove` drops one occurrence of a present value, leaves an absent one's list unchanged, and adds nothing |
| Generate.RemoveDistinct | Agent_Simulation/GenerateRequests.py:68-69 | on a list without repetitions the value is gone and the list stays without repetitions |
| Generate.Range | Agent_Simulation/GenerateRequests.py:64 | `range(lo, hi)` in order |
| Generate.TakePair | Agent_Simulation/GenerateRequests.py:65-69 | moving two distinct unused indices keeps both lists repetition-free, disjoint and within the locations |
| Generate.AssignRandomDeliveries | Agent_Simulation/GenerateRequests.py:54-70 | ⌊(n-1)/2⌋ pairs of distinct non-depot indices, no index used twice |
| HandleFiles.LowerChar | Application/handle_files.py:48 | ASCII upper-case letters are lowered, every other character kept |
| HandleFiles.Lower | Application/handle_files.py:48 | `lower()` character by character |
| HandleFiles.LastDot | Application/handle_files.py:48 | none iff the name has no '.', otherwise the position of its last '.' |
| HandleFiles.LastDotUnique | Application/handle_files.py:48 | the last '.' is unique |
| HandleFiles.AllowedFile | Application/handle_files.py:47-48 | allowed iff the name has a '.' and the text after its last '.' lowers to "xls" or "xlsx" |
| HandleFiles.AllowedFileAccepts | Application/handle_files.py:47-48 | "orders.XLSX" and "a.b.xls" pass |
| HandleFiles.AllowedFileRefuses | Application/handle_files.py:47-48 | "orders.csv", "xlsx" (no '.') and "orders.xlsx.csv" (Excel extension not last) do not pass |
| HandleFiles.ProcessExcel | Application/handle_files.py:50-82 | the depot from the header, then per data row from row 1 its pickup and dropoff at 2r-1 and 2r, and one delivery per such row naming exactly that row's pickup and dropoff |
| CostModel.Delete | Application/cost_model.py:11-12 | `del s[k]`: the elements before k stay, the rest move down by one |
| CostModel.WithoutRequest | Application/cost_model.py:8-13 | the locations without request i: positions up to 2i kept, the later ones moved down by two |
| CostModel.RemainingRequestsIntact | Application/cost_model.py:8-17 | dropping the last pair renumbers the requests exactly as removing request i moves the locations: every other request still names its own pickup and dropoff |
| CostModel.GetCostList | Application/cost_model.py:3-23 | one cost per request: the loading cost plus the kilometer cost of the distance request i adds to the total tour, rounded; the inputs are unchanged |
| CostModel.RevenueAtLeastBase | Application/cost_model.py:31-33 | without rounding a request pays at least the base price, and more iff the kilometer price is positive and pickup and dropoff differ |
| CostModel.GetRevenueList | Application/cost_model.py:25-36 | revenue i prices the rounded taxicab distance between locations 2i+1 and 2i+2 |
| CostModel.RevenueOfRequest | Application/cost_model.py:28-33 | with the numbering of `assign_deliveries`, revenue i is the price of request i's own pickup and dropoff, in either direction |
| CostModel.RequestRevenueSymmetric | Application/cost_model.py:32 | the revenue does not depend on the direction of travel |
| CostModel.ProfitSign | Application/cost_model.py:42 | without rounding, a profit is positive iff revenue exceeds cost, and profit plus cost is revenue |
| CostModel.GetProfitList | Application/cost_model.py:38-45 | one profit per revenue, the cost of the same index subtracted and rounded |

## Left out

- Sockets, JSON envelopes, threads, stop events, SocketIO emits and every wait on
  `time.time()` deadlines are I/O or concurrency. Each handler is one method call. Each
  stretch of the web auctioneer between two waits is one `Advance` step, including the
  busy-wait in `send_offer` (Application/carrier_handler.py:109-110).
- Reading spreadsheets and configuration files (pandas, yaml) is I/O. A sheet is its header
  row and data rows (`HandleFiles.Sheet`).
- HandleFiles.Lower: lowers ASCII letters only, because Unicode case mapping is not
  modelled.
- The OR-Tools optimizer (`calculate_optimal_tour`, `get_optimal_tour` and
  `Application/tour_calculation.py:45-119`) is a foreign solver. Where a distance is needed
  it is the parameter `tourDistance`. `calculate_tour`, which the cost model calls, is not
  part of the repository.
- `round(x, 2)` is floating-point rounding. It is the parameter `round`, and lemmas that
  compare magnitudes assume it is the identity.
- The Euclidean branch of `get_distance` is floating-point numerics. Only the Manhattan
  branch is modelled.
- Generate.CreateRandomLocations: does not model the rounding of the random coordinates, because
  they arrive as draws.
- Routing.AddOffer: stores a price floor of 0, because both `add_offer` methods
  store the `(pickup, dropoff)` tuple as the offer's profit (Application/routing.py:122),
  which is not a number.
- One price floor per offer: the web application's offer has `min_price`, while
  Application/routing.py:85 and Application/auctioneer.py:195 read `offer.profit`. The model
  reads the floor; both cases are findings below.
- Routing.Routing.GetRequestsBelowThreshold: selects by `min_price` where the source raises
  AttributeError on the first offer. For offers built by `create_offer_list` that field holds
  the revenue, because Application/routing.py:41 passes revenue and profit to the `Offer`
  constructor in swapped positions; the model does not correct that swap.
- Algorithm.AlgorithmBase.CreateTourData: builds on the corrected one-sweep filter. With two
  or more ignored requests the source's filter duplicates locations
  (`Algorithm.FilterTwiceDuplicates`), and so would its tour data.
- `create_offer_list` and `set_depot_location` build data frames from files. Note that
  `create_offer_list` also fills revenue and profit positionally, swapped
  (Application/routing.py:41).
- The agent infrastructure's `get_requests_below_threshold` and `calculate_bid` need the
  optimizer. The latter also passes an unsupported keyword (Agent_Infrastructure/routing.py:108).
  `get_mariginal_revenue` is likewise left out.
- Routing.Routing.constructor: builds its base with the agent infrastructure's algorithm
  constructor, which fixes one vehicle and depot 0 (Agent_Infrastructure/algorithm.py:6-7).
  The web application's base (`Algorithm.AlgorithmBase.Application`) would instead carry the
  configuration's `num_vehicles` as both the vehicle count and the depot
  (Application/algorithm.py:17-18).
- The older auctioneer's `for i in range(5)` round count inside an endless loop, and
  `stop_server`/`exit`, are process control. Rounds are unbounded in the model.
- The auctioneer class that the agent infrastructure's handlers call is not part of the
  repository (Agent_Infrastructure/auctioneer.py is a socket relay). Its fields are modelled
  as the handlers read them. `calculate_share` follows its test (tests/test_auctioneer.py:70-79).
- Indices the source uses unchecked (offer positions, location positions) are required to be
  in range, where the source would raise IndexError. Routing.Routing.constructor likewise
  requires a non-empty offer list, because Agent_Infrastructure/routing.py:17 reads
  `self.offers[0]`.
- Ledger.Auction.constructor: starts `winner` and `winning_bid` at "NONE" and no price, where
  `Auction.__init__` (Agent_Infrastructure/offer.py:2-6) leaves both unset until
  `update_results`; reading them earlier would raise AttributeError in the source.
- InfraHandler.CarrierHandler.ReceiveBid: looks up the bundle once before the loop over
  the lot, rather than on every iteration; the lookup does not change inside the loop.
- The import of `Auction` from Application/offer.py, which does not define it, would fail at
  start-up. The model takes the bundle class of the agent infrastructure.
- AppAuctioneer.Auctioneer.CheckActiveCarriers: after the first check,
  `registered_carriers` and `active_carriers` are one list, which is never emptied again.
  The model keeps this aliasing. If every offer sells, the list of offers becomes empty and
  `next_round` stays true in the model; in the source the next round's `print_auction_list`
  raises first (see `AppAuctioneer.Auctioneer.StartRound` below).
- Offers in a list are required to be distinct objects; the source never holds one offer twice.
- AppAuctioneer.Auctioneer.StartRound: treats `print_auction_list` (Application/auctioneer.py:88)
  as a no-op where the source raises. For a non-empty list it calls
  `utils.flatten_and_round_dict` (line 185), which Application/utilities.py does not define, so
  it raises AttributeError; for an empty list `pd.DataFrame([]).drop(columns=['offer_id'])`
  (line 186) raises KeyError. As written, the phase thread therefore dies at the start of its
  first round; the model starts the round and goes on, as a printing step would let it.
- AppAuctioneer.Auctioneer.ResetRound: an empty list goes straight to the end of the round
  only in the model; the source has already raised KeyError in `print_auction_list`
  (Application/auctioneer.py:186) at that point.
- AppAuctioneer.Auctioneer.Advance: its round-start step proceeds where the source's
  `print_auction_list` raises (Application/auctioneer.py:88, 185-186), so every step after the
  first round start describes the engine with the printing treated as a no-op.
- The `if False:` bundle branch at Application/auctioneer.py:93-96 is dead code.
- LegacyAuctioneer.Auctioneer.ReceiveBid: answers INVALID_BID where the source, with a bid
  not above the floor, raises (see the finding below).
- Plotting, Flask, the front end, the carrier-side network clients and the mesa simulation
  classes are user interface or framework wrappers. `Agent_Infrastructure/cost_model.py`
  holds stubs only; `Auction.to_dict` of Agent_Infrastructure/offer.py builds a set
  containing a list and cannot run.

## Findings

| source | as written | input that shows it | evidently intended | confidence | as-written member | corrected member |
|---|---|---|---|---|---|---|
| Agent_Infrastructure/algorithm.py:22-29 | with two or more ignored requests, each sweep over the locations appends its kept locations again, and the index mapping keeps only the last sweep | locations at x = 0..4, pairs [(1,2),(3,4)], ignore [0,1]: six locations come back | one sweep that drops every ignored request's endpoints, leaving the depot alone | not executed | Algorithm.FilterTwiceDuplicates | Algorithm.AlgorithmBase.FilterRequestsByIndex |
| Agent_Infrastructure/routing.py:118 | `update_offer_list` compares the carrier id with the update's offer id, so a carrier's own result is appended as a new offer | carrier "c1" receives the result of its offer "o1" (offeror "c1"): the list grows to two and the original keeps winner "NONE" | compare with the update's offeror, as Application/routing.py:107 does, and write the winner onto the own offer | not executed | Routing.OwnResultAppended | Routing.Routing.UpdateOfferList |
| Agent_Infrastructure/algorithm.py:187 | `self.assignmets.append(...)` names a field that does not exist, so including a request raises AttributeError after the locations were already extended | no ignored requests, one included request (1,1)-(2,2): two locations and no assignment are left behind | append the pair of the two new locations to `self.assignments` | not executed | Algorithm.MisspeltAssignments | Algorithm.AlgorithmBase.UpdateLocationsAndAssignments |
| Agent_Infrastructure/auctioneer_class.py:296-305 | `payload` is assigned only when the bid exceeds `min_price`, so a lower bid raises UnboundLocalError and the carrier gets no reply | registered carrier "c2" bids 5 on offer "o1" with `min_price` 10 in the BID phase | reply INVALID_BID, as every other rejected bid is answered | not executed | LegacyAuctioneer.UnboundPayload | LegacyAuctioneer.Auctioneer.ReceiveBid |
| Application/routing.py:85 | `get_requests_below_threshold` reads `offer.profit`, which the web application's offer (Application/offer.py:3-13) does not have, so it raises AttributeError on the first offer | one offer with floor 10 and sell threshold 100 | compare each offer's price floor `min_price` with the threshold | not executed | Routing.ProfitAttributeRaises | Routing.Routing.GetRequestsBelowThreshold |
| Application/auctioneer.py:195 | `valide_bids_for_unsold_offer` reads `offer.profit`, which the web application's offer does not have, so it raises AttributeError as soon as an unsold offer holds a bid | one unsold offer with floor 10 and one bid of 12 | compare each bid of an unsold offer with the offer's price floor `min_price` | not executed | AppAuctioneer.ValideBidsCrash | AppAuctioneer.Auctioneer.ValideBidsForUnsoldOffer |
