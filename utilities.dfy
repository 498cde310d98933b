/** The helper functions of the agent infrastructure: the taxicab distance, the bundle lookup
    used by the bid handler, dictionary flattening and conversion, and the selection of the
    transport requests whose profit falls below a threshold. */
module Utilities {
  import opened Common
  import opened Dict

  /** `get_distance(p0, p1, mode="manhattan")`. */
  function ManhattanDistance(p0: Loc, p1: Loc): (d: real)
    ensures d >= 0.0
    ensures d == 0.0 <==> p0 == p1
  {
    Abs(p0.x - p1.x) + Abs(p0.y - p1.y)
  }

  lemma ManhattanSymmetric(p0: Loc, p1: Loc)
    ensures ManhattanDistance(p0, p1) == ManhattanDistance(p1, p0)
  {
  }

  lemma ManhattanTriangle(a: Loc, b: Loc, c: Loc)
    ensures ManhattanDistance(a, c) <= ManhattanDistance(a, b) + ManhattanDistance(b, c)
  {
  }

  /** A location as it travels in a message: `{"pos_x": x, "pos_y": y}`. */
  function LocValue(l: Loc): Value
  {
    Nested([("pos_x", Float(l.x)), ("pos_y", Float(l.y))])
  }

  // ---------------------------------------------------------------------------------------
  // get_key_from_bundle_by_first_element

  datatype KeyLookup<K> = Key(key: K) | NoKey | IndexError

  /** The first `n` entries of `d` were looked at: each holds a non-empty list that does not
      start with `value`. */
  ghost predicate Passed<K, V>(d: Assoc<K, seq<V>>, n: nat, value: V)
  {
    n <= |d| && forall j :: 0 <= j < n ==> d[j].1 != [] && d[j].1[0] != value
  }

  /** The first key, in insertion order, whose list starts with `value`; `val[0]` raises
      IndexError when the scan meets an empty list first. */
  function FirstKey<K, V(==)>(d: Assoc<K, seq<V>>, value: V): (r: KeyLookup<K>)
    ensures r.Key? ==> exists i :: 0 <= i < |d| && d[i].0 == r.key && d[i].1 != [] && d[i].1[0] == value && Passed(d, i, value)
    ensures r.NoKey? <==> Passed(d, |d|, value)
    ensures r.IndexError? ==> exists i :: 0 <= i < |d| && d[i].1 == [] && Passed(d, i, value)
  {
    if d == [] then NoKey
    else if d[0].1 == [] then IndexError
    else if d[0].1[0] == value then Key(d[0].0)
    else
      var r := FirstKey(d[1..], value);
      assert forall j :: 1 <= j < |d| ==> d[j] == d[1..][j - 1];
      assert forall n :: 1 <= n <= |d| ==> (Passed(d, n, value) <==> Passed(d[1..], n - 1, value));
      assert r.Key? ==> exists i :: 0 <= i < |d| && d[i].0 == r.key && d[i].1 != [] && d[i].1[0] == value && Passed(d, i, value) by {
        if r.Key? {
          var i :| 0 <= i < |d[1..]| && d[1..][i].0 == r.key && d[1..][i].1 != [] && d[1..][i].1[0] == value && Passed(d[1..], i, value);
          assert Passed(d, i + 1, value);
        }
      }
      assert r.IndexError? ==> exists i :: 0 <= i < |d| && d[i].1 == [] && Passed(d, i, value) by {
        if r.IndexError? {
          var i :| 0 <= i < |d[1..]| && d[1..][i].1 == [] && Passed(d[1..], i, value);
          assert Passed(d, i + 1, value);
        }
      }
      r
  }

  /** `get_key_from_bundle_by_first_element(dictionary, value)`. */
  method GetKeyFromBundleByFirstElement<K, V(==)>(d: Assoc<K, seq<V>>, value: V) returns (r: KeyLookup<K>)
    ensures r == FirstKey(d, value)
  {
    var i := 0;
    while i < |d|
      invariant i <= |d| && FirstKey(d[i..], value) == FirstKey(d, value)
    {
      assert d[i..][1..] == d[i + 1..];
      if d[i].1 == [] {
        return IndexError;
      }
      if d[i].1[0] == value {
        return Key(d[i].0);
      }
      i := i + 1;
    }
    return NoKey;
  }

  // ---------------------------------------------------------------------------------------
  // flatten_and_round_dict

  /** A nested float is rounded to `places` decimals when `places` is not zero. */
  function RoundIfFloat(v: Value, places: int, round: (real, int) -> real): Value
  {
    if v.Float? && places != 0 then Float(round(v.f, places)) else v
  }

  /** The nested entries of `key`, stored as `key_subkey`. */
  function PutSubs(acc: Assoc<string, Value>, key: string, subs: Assoc<string, Value>,
                   places: int, round: (real, int) -> real): Assoc<string, Value>
  {
    if subs == [] then acc
    else
      var last := subs[|subs| - 1];
      Put(PutSubs(acc, key, subs[..|subs| - 1], places, round), key + "_" + last.0, RoundIfFloat(last.1, places, round))
  }

  function FlattenEntry(acc: Assoc<string, Value>, entry: (string, Value), places: int,
                        round: (real, int) -> real): Assoc<string, Value>
  {
    if entry.1.Nested? then PutSubs(acc, entry.0, entry.1.entries, places, round)
    else Put(acc, entry.0, entry.1)
  }

  /** The dictionary `flatten_and_round_dict(d, places)` builds. */
  function Flatten(d: Assoc<string, Value>, places: int, round: (real, int) -> real): Assoc<string, Value>
  {
    if d == [] then []
    else FlattenEntry(Flatten(d[..|d| - 1], places, round), d[|d| - 1], places, round)
  }

  /** The inner loop of `flatten_and_round_dict`: every entry of a nested dictionary stored
      under `key_subkey`, its float rounded. */
  method PutNested(acc: Assoc<string, Value>, key: string, subs: Assoc<string, Value>, places: int,
                   round: (real, int) -> real) returns (flat: Assoc<string, Value>)
    ensures flat == PutSubs(acc, key, subs, places, round)
  {
    flat := acc;
    var j := 0;
    while j < |subs|
      invariant 0 <= j <= |subs|
      invariant flat == PutSubs(acc, key, subs[..j], places, round)
    {
      assert subs[..j + 1][..j] == subs[..j];
      flat := Put(flat, key + "_" + subs[j].0, RoundIfFloat(subs[j].1, places, round));
      j := j + 1;
    }
    assert subs[..j] == subs;
  }

  method FlattenAndRoundDict(d: Assoc<string, Value>, places: int, round: (real, int) -> real)
    returns (flat: Assoc<string, Value>)
    ensures flat == Flatten(d, places, round)
  {
    flat := [];
    var i := 0;
    while i < |d|
      invariant 0 <= i <= |d|
      invariant flat == Flatten(d[..i], places, round)
    {
      var (key, value) := d[i];
      assert d[..i + 1][..i] == d[..i];
      if value.Nested? {
        flat := PutNested(flat, key, value.entries, places, round);
      } else {
        flat := Put(flat, key, value);
      }
      assert flat == FlattenEntry(Flatten(d[..i], places, round), d[i], places, round);
      i := i + 1;
    }
    assert d[..i] == d;
  }

  /** The names `key_subkey` under which the entries of a nested dictionary are stored. */
  function SubKeys(key: string, subs: Assoc<string, Value>): (ks: seq<string>)
    ensures |ks| == |subs| && forall j :: 0 <= j < |subs| ==> ks[j] == key + "_" + subs[j].0
  {
    if subs == [] then []
    else
      var init := subs[..|subs| - 1];
      assert forall j :: 0 <= j < |init| ==> init[j] == subs[j];
      SubKeys(key, init) + [key + "_" + subs[|subs| - 1].0]
  }

  /** The key a plain top-level entry keeps, or a name one of its nested entries is stored under. */
  ghost predicate FlatKey(d: Assoc<string, Value>, x: string)
  {
    (exists i :: 0 <= i < |d| && !d[i].1.Nested? && d[i].0 == x)
    || (exists i :: 0 <= i < |d| && d[i].1.Nested? && x in SubKeys(d[i].0, d[i].1.entries))
  }

  lemma {:induction false} PutSubsKeys(acc: Assoc<string, Value>, key: string, subs: Assoc<string, Value>,
                                        places: int, round: (real, int) -> real, x: string)
    ensures x in Keys(PutSubs(acc, key, subs, places, round)) <==> x in Keys(acc) || x in SubKeys(key, subs)
  {
    if subs != [] {
      var init, last := subs[..|subs| - 1], subs[|subs| - 1];
      PutSubsKeys(acc, key, init, places, round, x);
      var acc0, k := PutSubs(acc, key, init, places, round), key + "_" + last.0;
      assert PutSubs(acc, key, subs, places, round) == Put(acc0, k, RoundIfFloat(last.1, places, round));
      assert x in Keys(Put(acc0, k, RoundIfFloat(last.1, places, round))) <==> x in Keys(acc0) || x == k;
    }
  }

  /** `x` is a flat key of `d` exactly when it is one of `d` without its last entry, or the last
      entry supplies it. */
  lemma FlatKeyStep(d: Assoc<string, Value>, x: string)
    requires d != []
    ensures var init, last := d[..|d| - 1], d[|d| - 1];
      FlatKey(d, x) <==> FlatKey(init, x) || (!last.1.Nested? && last.0 == x)
                         || (last.1.Nested? && x in SubKeys(last.0, last.1.entries))
  {
    var init, last := d[..|d| - 1], d[|d| - 1];
    assert forall i :: 0 <= i < |init| ==> init[i] == d[i];
    if FlatKey(d, x) && !FlatKey(init, x) {
      if exists i :: 0 <= i < |d| && !d[i].1.Nested? && d[i].0 == x {
        var i :| 0 <= i < |d| && !d[i].1.Nested? && d[i].0 == x;
        assert i == |d| - 1;
      } else {
        var i :| 0 <= i < |d| && d[i].1.Nested? && x in SubKeys(d[i].0, d[i].1.entries);
        assert i == |d| - 1;
      }
    }
    if FlatKey(init, x) {
      if exists i :: 0 <= i < |init| && !init[i].1.Nested? && init[i].0 == x {
        var i :| 0 <= i < |init| && !init[i].1.Nested? && init[i].0 == x;
        assert d[i] == init[i];
      } else {
        var i :| 0 <= i < |init| && init[i].1.Nested? && x in SubKeys(init[i].0, init[i].1.entries);
        assert d[i] == init[i];
      }
    }
    if !last.1.Nested? && last.0 == x {
      assert d[|d| - 1] == last;
    }
    if last.1.Nested? && x in SubKeys(last.0, last.1.entries) {
      assert d[|d| - 1] == last;
    }
  }

  /** The flattened dictionary holds exactly the keys of the plain entries and the
      `key_subkey` names of the nested ones. */
  lemma {:induction false} FlattenKeys(d: Assoc<string, Value>, places: int, round: (real, int) -> real, x: string)
    ensures x in Keys(Flatten(d, places, round)) <==> FlatKey(d, x)
  {
    if d != [] {
      var init, last := d[..|d| - 1], d[|d| - 1];
      FlattenKeys(init, places, round, x);
      FlatKeyStep(d, x);
      var acc := Flatten(init, places, round);
      assert Flatten(d, places, round) == FlattenEntry(acc, last, places, round);
      if last.1.Nested? {
        PutSubsKeys(acc, last.0, last.1.entries, places, round, x);
      } else {
        assert x in Keys(Put(acc, last.0, last.1)) <==> x in Keys(acc) || x == last.0;
      }
    }
  }

  /** A dictionary without nested values (and, as every dict, with unique keys) is copied
      unchanged. */
  lemma {:induction false} FlattenPlain(d: Assoc<string, Value>, places: int, round: (real, int) -> real)
    requires UniqueKeys(d)
    requires forall i :: 0 <= i < |d| ==> !d[i].1.Nested?
    ensures Flatten(d, places, round) == d
  {
    if d != [] {
      var init, last := d[..|d| - 1], d[|d| - 1];
      PlainPrefix(d);
      FlattenPlain(init, places, round);
      PlainStep(init, last, places, round);
      assert init + [last] == d;
    }
  }

  /** The entries before the last of a dictionary with unique keys and plain values: the same
      holds of them, and none of them has the last key. */
  lemma PlainPrefix(d: Assoc<string, Value>)
    requires d != [] && UniqueKeys(d)
    requires forall i :: 0 <= i < |d| ==> !d[i].1.Nested?
    ensures var init := d[..|d| - 1];
      UniqueKeys(init) && (forall i :: 0 <= i < |init| ==> !init[i].1.Nested?)
      && d[|d| - 1].0 !in Keys(init) && !d[|d| - 1].1.Nested?
  {
    var init := d[..|d| - 1];
    assert forall i :: 0 <= i < |init| ==> init[i] == d[i];
    forall i | 0 <= i < |init| ensures Keys(init)[i] != d[|d| - 1].0 {
      assert Keys(init)[i] == d[i].0;
    }
  }

  /** A plain entry under a new key is appended. */
  lemma PlainStep(acc: Assoc<string, Value>, entry: (string, Value), places: int, round: (real, int) -> real)
    requires !entry.1.Nested? && entry.0 !in Keys(acc)
    ensures FlattenEntry(acc, entry, places, round) == acc + [entry]
  {
    PutNew(acc, entry.0, entry.1);
  }

  /** Flattening goes one level deep: every value of the result is a plain top-level value of
      `d` or a (possibly rounded) value of one of its nested dictionaries. */
  lemma {:induction false} FlattenValues(d: Assoc<string, Value>, places: int, round: (real, int) -> real, v: Value)
    requires v in Values(Flatten(d, places, round))
    ensures (exists i :: 0 <= i < |d| && !d[i].1.Nested? && d[i].1 == v)
         || (exists i, j :: 0 <= i < |d| && d[i].1.Nested? && 0 <= j < |d[i].1.entries|
                            && v == RoundIfFloat(d[i].1.entries[j].1, places, round))
  {
    var init, last := d[..|d| - 1], d[|d| - 1];
    var acc := Flatten(init, places, round);
    assert forall i :: 0 <= i < |init| ==> init[i] == d[i];
    if last.1.Nested? {
      PutSubsValues(acc, last.0, last.1.entries, places, round, v);
      if v in Values(acc) {
        FlattenValues(init, places, round, v);
      } else {
        var j :| 0 <= j < |last.1.entries| && v == RoundIfFloat(last.1.entries[j].1, places, round);
        assert d[|d| - 1].1.Nested? && v == RoundIfFloat(d[|d| - 1].1.entries[j].1, places, round);
      }
    } else {
      PutValues(acc, last.0, last.1, v);
      if v in Values(acc) {
        FlattenValues(init, places, round, v);
      }
    }
  }

  /** A value of `d[k] = w` is `w` or a value of `d`. */
  lemma PutValues(d: Assoc<string, Value>, k: string, w: Value, v: Value)
    requires v in Values(Put(d, k, w))
    ensures v == w || v in Values(d)
  {
    var r := Put(d, k, w);
    var i :| 0 <= i < |r| && Values(r)[i] == v;
    if k in Keys(d) {
      if i != IndexOf(d, k) {
        assert Values(d)[i] == v;
      }
    } else if i < |d| {
      assert Values(d)[i] == v;
    }
  }

  lemma {:induction false} PutSubsValues(acc: Assoc<string, Value>, key: string, subs: Assoc<string, Value>,
                                          places: int, round: (real, int) -> real, v: Value)
    requires v in Values(PutSubs(acc, key, subs, places, round))
    ensures v in Values(acc) || exists j :: 0 <= j < |subs| && v == RoundIfFloat(subs[j].1, places, round)
  {
    if subs != [] {
      var init, last := subs[..|subs| - 1], subs[|subs| - 1];
      PutValues(PutSubs(acc, key, init, places, round), key + "_" + last.0, RoundIfFloat(last.1, places, round), v);
      if v != RoundIfFloat(last.1, places, round) {
        PutSubsValues(acc, key, init, places, round, v);
        assert forall j :: 0 <= j < |init| ==> init[j] == subs[j];
      }
    }
  }

  // ---------------------------------------------------------------------------------------
  // dict_to_float

  /** A numeric value after `float(v)`. */
  function ToFloat(v: Value): (f: Value)
    requires v.Int? || v.Float?
    ensures f.Float? && (v.Int? ==> f.f == v.i as real) && (v.Float? ==> f == v)
  {
    if v.Int? then Float(v.i as real) else v
  }

  /** A Python dictionary object, which `dict_to_float` updates in place. */
  class PyDict {
    var entries: Assoc<string, Value>

    constructor (entries: Assoc<string, Value>)
      ensures this.entries == entries
    {
      this.entries := entries;
    }

    /** `dict_to_float(d)`: every value converted with `float`, the same dictionary returned. */
    method DictToFloat() returns (r: PyDict)
      requires UniqueKeys(entries)
      requires forall i :: 0 <= i < |entries| ==> entries[i].1.Int? || entries[i].1.Float?
      modifies this
      ensures r == this
      ensures Keys(entries) == old(Keys(entries)) && |entries| == |old(entries)|
      ensures forall i :: 0 <= i < |entries| ==> entries[i] == (old(entries)[i].0, ToFloat(old(entries)[i].1))
    {
      var i := 0;
      while i < |entries|
        invariant 0 <= i <= |entries| == |old(entries)|
        invariant Keys(entries) == old(Keys(entries)) && UniqueKeys(entries)
        invariant forall j :: 0 <= j < i ==> entries[j] == (old(entries)[j].0, ToFloat(old(entries)[j].1))
        invariant forall j :: i <= j < |entries| ==> entries[j] == old(entries)[j]
      {
        var (k, v) := entries[i];
        IndexOfIsFirst(entries, k, i);
        entries := Put(entries, k, ToFloat(v));
        i := i + 1;
      }
      r := this;
    }
  }

  // ---------------------------------------------------------------------------------------
  // get_requests_below_thresh

  /** The positions whose value is strictly below `thresh`, in ascending order. */
  function IndicesBelow(values: seq<real>, thresh: real): (idx: seq<nat>)
    ensures |idx| <= |values|
    ensures forall k :: 0 <= k < |idx| ==> idx[k] < |values|
  {
    if values == [] then []
    else
      var n := |values| - 1;
      IndicesBelow(values[..n], thresh) + (if values[n] < thresh then [n] else [])
  }

  /** Every selected position holds a value below the threshold. */
  lemma {:induction false} IndicesBelowSound(values: seq<real>, thresh: real)
    ensures var idx := IndicesBelow(values, thresh);
      forall k :: 0 <= k < |idx| ==> values[idx[k]] < thresh
  {
    if values != [] {
      var n := |values| - 1;
      IndicesBelowSound(values[..n], thresh);
      IndicesBelowStep(values, thresh);
      var idx0 := IndicesBelow(values[..n], thresh);
      assert forall k :: 0 <= k < |idx0| ==> values[..n][idx0[k]] == values[idx0[k]];
    }
  }

  /** The selected positions ascend strictly, so none is selected twice. */
  lemma {:induction false} IndicesBelowAscending(values: seq<real>, thresh: real)
    ensures var idx := IndicesBelow(values, thresh);
      forall k, l :: 0 <= k < l < |idx| ==> idx[k] < idx[l]
  {
    if values != [] {
      IndicesBelowAscending(values[..|values| - 1], thresh);
      IndicesBelowStep(values, thresh);
    }
  }

  /** A position is selected exactly when its value is below the threshold. */
  lemma {:induction false} IndicesBelowComplete(values: seq<real>, thresh: real)
    ensures forall i :: 0 <= i < |values| ==> (values[i] < thresh <==> i in IndicesBelow(values, thresh))
  {
    if values != [] {
      var n := |values| - 1;
      IndicesBelowComplete(values[..n], thresh);
      IndicesBelowStep(values, thresh);
      var idx0 := IndicesBelow(values[..n], thresh);
      assert n !in idx0;
      assert forall i :: 0 <= i < n ==> values[..n][i] == values[i];
    }
  }

  lemma IndicesBelowStep(values: seq<real>, thresh: real)
    requires values != []
    ensures IndicesBelow(values, thresh)
         == IndicesBelow(values[..|values| - 1], thresh) + (if values[|values| - 1] < thresh then [|values| - 1] else [])
  {
  }

  /** A row of the transport-request table. */
  datatype RequestRow = RequestRow(pickupLong: real, pickupLat: real, deliveryLong: real, deliveryLat: real,
                                   profit: real, revenue: real)

  /** The tuple `(loc_pickup, loc_dropoff, profit, revenue)` sent to the auctioneer. */
  datatype Request = Request(pickup: Loc, dropoff: Loc, profit: real, revenue: real)

  function Profits(rows: seq<RequestRow>): (ps: seq<real>)
    ensures |ps| == |rows| && forall i :: 0 <= i < |rows| ==> ps[i] == rows[i].profit
  {
    seq(|rows|, i requires 0 <= i < |rows| => rows[i].profit)
  }

  function ToRequest(row: RequestRow): Request
  {
    Request(Loc(row.pickupLong, row.pickupLat), Loc(row.deliveryLong, row.deliveryLat), row.profit, row.revenue)
  }

  /** The requests built from the rows whose profit is strictly below `thresh`. */
  function BelowThreshold(rows: seq<RequestRow>, thresh: real): seq<Request>
  {
    if rows == [] then []
    else
      var last := rows[|rows| - 1];
      BelowThreshold(rows[..|rows| - 1], thresh) + (if last.profit < thresh then [ToRequest(last)] else [])
  }

  /** The requests are those of exactly the rows whose profit is below the threshold, in row
      order. */
  lemma {:induction false} BelowThresholdSelects(rows: seq<RequestRow>, thresh: real)
    ensures var idx := IndicesBelow(Profits(rows), thresh);
      |BelowThreshold(rows, thresh)| == |idx|
      && forall k :: 0 <= k < |idx| ==> BelowThreshold(rows, thresh)[k] == ToRequest(rows[idx[k]])
  {
    if rows != [] {
      var n := |rows| - 1;
      var init := rows[..n];
      var last := rows[n];
      BelowThresholdSelects(init, thresh);
      assert Profits(rows)[..n] == Profits(init);
      IndicesBelowStep(Profits(rows), thresh);
      var idx0 := IndicesBelow(Profits(init), thresh);
      var idx := IndicesBelow(Profits(rows), thresh);
      var head := BelowThreshold(init, thresh);
      var extra := if last.profit < thresh then [ToRequest(last)] else [];
      assert idx == idx0 + (if last.profit < thresh then [n] else []);
      assert BelowThreshold(rows, thresh) == head + extra;
      forall k | 0 <= k < |idx|
        ensures BelowThreshold(rows, thresh)[k] == ToRequest(rows[idx[k]])
      {
        if k < |idx0| {
          assert idx[k] == idx0[k] && (head + extra)[k] == head[k];
          assert rows[idx0[k]] == init[idx0[k]];
        } else {
          assert idx[k] == n && (head + extra)[k] == ToRequest(last);
        }
      }
    }
  }

  /** `get_requests_below_thresh(df, thresh)`. */
  method GetRequestsBelowThresh(rows: seq<RequestRow>, thresh: real) returns (requests: seq<Request>)
    ensures requests == BelowThreshold(rows, thresh)
  {
    requests := [];
    var i := 0;
    while i < |rows|
      invariant 0 <= i <= |rows|
      invariant requests == BelowThreshold(rows[..i], thresh)
    {
      assert rows[..i + 1][..i] == rows[..i];
      if rows[i].profit < thresh {
        requests := requests + [ToRequest(rows[i])];
      }
      i := i + 1;
    }
    assert rows[..i] == rows;
  }
}
