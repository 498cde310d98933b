/** Types shared by every part of the transport-auction model. */
module Common {

  datatype Option<T> = None | Some(value: T)

  /** The sentinel the system stores in `winner` and `winning_bid` while an offer is unsold. */
  const NONE: string := "NONE"

  /** A point of the plane, `(pos_x, pos_y)` on the wire. */
  datatype Loc = Loc(x: real, y: real)

  /** The value of `winning_bid`: the sentinel "NONE" or a number. */
  datatype Price = NoPrice | Amount(value: real)

  /** The phases of the auction day, as the strings the engine stores in `phase`. */
  datatype Phase = REGIST | REQ_OFFER | BID | RESULTS | CONFIRM

  /** An entry `[pickup_index, dropoff_index]` of an assignment (pickup-and-delivery) list. */
  type Pair = (nat, nat)

  function Abs(x: real): (r: real)
    ensures r >= 0.0 && (r == x || r == -x)
  {
    if x < 0.0 then -x else x
  }

  /** No element occurs twice. */
  predicate Distinct<T(==)>(s: seq<T>)
  {
    forall i, j :: 0 <= i < j < |s| ==> s[i] != s[j]
  }

  function Sum(s: seq<real>): real
  {
    if s == [] then 0.0 else Sum(s[..|s| - 1]) + s[|s| - 1]
  }

  lemma {:induction false} SumAppend(s: seq<real>, x: real)
    ensures Sum(s + [x]) == Sum(s) + x
  {
    assert (s + [x])[..|s + [x]| - 1] == s;
  }

  /** Every element times `k`. */
  function Scaled(rs: seq<real>, k: real): (ss: seq<real>)
    ensures |ss| == |rs|
  {
    if rs == [] then [] else Scaled(rs[..|rs| - 1], k) + [rs[|rs| - 1] * k]
  }

  /** Scaling every element scales the sum. */
  lemma {:induction false} SumScaled(rs: seq<real>, k: real)
    ensures Sum(Scaled(rs, k)) == Sum(rs) * k
  {
    if rs != [] {
      var init, last := rs[..|rs| - 1], rs[|rs| - 1];
      SumScaled(init, k);
      SumAppend(Scaled(init, k), last * k);
    }
  }

  /** The position of the first element satisfying `p`, if any: a `for` loop with an early
      `return`. */
  function FirstIndex<T>(s: seq<T>, p: T -> bool): (r: Option<nat>)
    ensures r.None? <==> forall i :: 0 <= i < |s| ==> !p(s[i])
    ensures r.Some? ==> r.value < |s| && p(s[r.value]) && forall j :: 0 <= j < r.value ==> !p(s[j])
  {
    if s == [] then None
    else if p(s[0]) then Some(0)
    else
      var rest := FirstIndex(s[1..], p);
      assert forall i :: 1 <= i < |s| ==> s[i] == s[1..][i - 1];
      if rest.None? then None else Some(rest.value + 1)
  }

  /** The first index is the only one that satisfies `p` with no earlier element doing so. */
  lemma FirstIndexUnique<T>(s: seq<T>, p: T -> bool, k: nat)
    requires k < |s| && p(s[k]) && forall j :: 0 <= j < k ==> !p(s[j])
    ensures FirstIndex(s, p) == Some(k)
  {
    var r := FirstIndex(s, p);
    assert r.Some?;
    assert !(r.value < k) && !(k < r.value);
  }

  /** The elements of `s` that satisfy `p`, in their original order. */
  function Filter<T>(s: seq<T>, p: T -> bool): (r: seq<T>)
    ensures |r| <= |s|
    ensures forall i :: 0 <= i < |r| ==> r[i] in s && p(r[i])
    ensures forall i :: 0 <= i < |s| && p(s[i]) ==> s[i] in r
  {
    if s == [] then [] else Filter(s[..|s| - 1], p) + (if p(s[|s| - 1]) then [s[|s| - 1]] else [])
  }

  lemma {:induction false} FilterAppend<T>(s: seq<T>, x: T, p: T -> bool)
    ensures Filter(s + [x], p) == Filter(s, p) + (if p(x) then [x] else [])
  {
    assert (s + [x])[..|s + [x]| - 1] == s;
  }

  /** One more element of a prefix, for loops that filter from the front. */
  lemma FilterPrefixStep<T>(s: seq<T>, i: nat, p: T -> bool)
    requires i < |s|
    ensures Filter(s[..i + 1], p) == Filter(s[..i], p) + (if p(s[i]) then [s[i]] else [])
  {
    assert s[..i + 1] == s[..i] + [s[i]];
    FilterAppend(s[..i], s[i], p);
  }
}
