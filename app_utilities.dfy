/** The request selection of the carrier application: a request whose profit is below the
    threshold is offered for sale, its pickup and dropoff read from the location list, where
    request `i` owns the locations `2i+1` and `2i+2` (location 0 is the depot). */
module AppUtilities {
  import opened Common
  import opened Utilities

  /** The default threshold `THRESHOLD`. */
  const THRESHOLD: real := 9.2

  /** The tuple `(loc_pickup, loc_dropoff, profit)`. */
  datatype AppRequest = AppRequest(pickup: Loc, dropoff: Loc, profit: real)

  /** What `get_requests_below_thresh(locations, profit_list, thresh)` returns for the first
      `|profits|` requests: the requests, or `None` when a location index runs past the list
      (Python's IndexError). */
  function RequestsBelow(locations: seq<Loc>, profits: seq<real>, thresh: real): Option<seq<AppRequest>>
  {
    if profits == [] then Some([])
    else
      var n := |profits| - 1;
      var prev := RequestsBelow(locations, profits[..n], thresh);
      if !(profits[n] < thresh) then prev
      else if prev.None? || 2 * n + 2 >= |locations| then None
      else Some(prev.value + [AppRequest(locations[2 * n + 1], locations[2 * n + 2], profits[n])])
  }

  /** Once an index has failed, every longer profit list fails too. */
  lemma {:induction false} RequestsBelowFailureSticks(locations: seq<Loc>, profits: seq<real>, thresh: real, i: nat)
    requires i <= |profits| && RequestsBelow(locations, profits[..i], thresh).None?
    ensures RequestsBelow(locations, profits, thresh).None?
  {
    if i < |profits| {
      var n := |profits| - 1;
      assert profits[..n][..i] == profits[..i];
      RequestsBelowFailureSticks(locations, profits[..n], thresh, i);
    } else {
      assert profits[..i] == profits;
    }
  }

  /** The requests are those of the positions whose profit is below the threshold, with the
      locations `2i+1` and `2i+2`; the call fails exactly when one of those positions has no
      such locations. */
  lemma {:induction false} RequestsBelowSelects(locations: seq<Loc>, profits: seq<real>, thresh: real)
    ensures var idx := IndicesBelow(profits, thresh);
      var r := RequestsBelow(locations, profits, thresh);
      (r.None? <==> exists k :: 0 <= k < |idx| && 2 * idx[k] + 2 >= |locations|)
      && (r.Some? ==> |r.value| == |idx| && forall k :: 0 <= k < |idx| ==>
            r.value[k] == AppRequest(locations[2 * idx[k] + 1], locations[2 * idx[k] + 2], profits[idx[k]]))
  {
    if profits != [] {
      var n := |profits| - 1;
      RequestsBelowSelects(locations, profits[..n], thresh);
      IndicesBelowStep(profits, thresh);
      var idx0 := IndicesBelow(profits[..n], thresh);
      var idx := IndicesBelow(profits, thresh);
      assert forall k :: 0 <= k < |idx0| ==> idx[k] == idx0[k] && profits[..n][idx0[k]] == profits[idx0[k]];
      if profits[n] < thresh {
        assert idx[|idx0|] == n;
      }
    }
  }

  method GetRequestsBelowThresh(locations: seq<Loc>, profits: seq<real>, thresh: real)
    returns (r: Option<seq<AppRequest>>)
    ensures r == RequestsBelow(locations, profits, thresh)
  {
    var requests: seq<AppRequest> := [];
    var multiplier := 0;
    var i := 0;
    while i < |profits|
      invariant 0 <= i <= |profits| && multiplier == i
      invariant RequestsBelow(locations, profits[..i], thresh) == Some(requests)
    {
      assert profits[..i + 1][..i] == profits[..i];
      if profits[i] < thresh {
        if i + 2 + multiplier >= |locations| {
          RequestsBelowFailureSticks(locations, profits, thresh, i + 1);
          return None;
        }
        requests := requests + [AppRequest(locations[i + 1 + multiplier], locations[i + 2 + multiplier], profits[i])];
      }
      multiplier := multiplier + 1;
      i := i + 1;
    }
    assert profits[..i] == profits;
    r := Some(requests);
  }
}
