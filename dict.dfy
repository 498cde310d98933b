/** Python's dictionary, which remembers insertion order, as an association list.
    Assigning to a key that is present replaces its value where it stands; assigning to a new
    key appends it. */
module Dict {
  import opened Common

  type Assoc<K, V> = seq<(K, V)>

  /** The values the system keeps in its dictionaries: strings, integers, floats and nested
      dictionaries (a location travels as `{pos_x, pos_y}`). */
  datatype Value = Text(text: string) | Int(i: int) | Float(f: real) | Nested(entries: Assoc<string, Value>)

  function Keys<K, V>(d: Assoc<K, V>): (ks: seq<K>)
    ensures |ks| == |d| && forall i :: 0 <= i < |d| ==> ks[i] == d[i].0
  {
    seq(|d|, i requires 0 <= i < |d| => d[i].0)
  }

  function Values<K, V>(d: Assoc<K, V>): (vs: seq<V>)
    ensures |vs| == |d| && forall i :: 0 <= i < |d| ==> vs[i] == d[i].1
  {
    seq(|d|, i requires 0 <= i < |d| => d[i].1)
  }

  /** Keys are unique, as in every Python dict. */
  predicate UniqueKeys<K(==), V>(d: Assoc<K, V>)
  {
    forall i, j :: 0 <= i < j < |d| ==> d[i].0 != d[j].0
  }

  /** Where key `k` stands in the insertion order. */
  function IndexOf<K(==), V>(d: Assoc<K, V>, k: K): (i: nat)
    requires k in Keys(d)
    ensures i < |d| && d[i].0 == k
    ensures forall j :: 0 <= j < i ==> d[j].0 != k
  {
    if d[0].0 == k then 0
    else
      assert Keys(d) == [d[0].0] + Keys(d[1..]);
      1 + IndexOf(d[1..], k)
  }

  /** The insertion position of a key is the first position holding it. */
  lemma IndexOfIsFirst<K, V>(d: Assoc<K, V>, k: K, i: nat)
    requires i < |d| && d[i].0 == k && forall j :: 0 <= j < i ==> d[j].0 != k
    ensures k in Keys(d) && IndexOf(d, k) == i
  {
    assert Keys(d)[i] == k;
  }

  /** Extending a dict leaves the positions of its keys where they were. */
  lemma IndexOfPrefix<K, V>(d: Assoc<K, V>, e: Assoc<K, V>, k: K)
    requires k in Keys(d)
    ensures k in Keys(d + e) && IndexOf(d + e, k) == IndexOf(d, k)
  {
    IndexOfIsFirst(d + e, k, IndexOf(d, k));
  }

  /** `d.get(k)`: the value stored under `k`, if any. */
  function Get<K(==), V>(d: Assoc<K, V>, k: K): (r: Option<V>)
    ensures r.None? <==> k !in Keys(d)
    ensures r.Some? ==> (k, r.value) in d
    ensures UniqueKeys(d) ==> forall i :: 0 <= i < |d| && d[i].0 == k ==> r == Some(d[i].1)
  {
    if k in Keys(d) then Some(d[IndexOf(d, k)].1)
    else
      assert forall i :: 0 <= i < |d| ==> d[i].0 == Keys(d)[i];
      None
  }

  /** `d[k] = v`. */
  function Put<K(==,!new), V>(d: Assoc<K, V>, k: K, v: V): (r: Assoc<K, V>)
    ensures Keys(r) == if k in Keys(d) then Keys(d) else Keys(d) + [k]
    ensures Get(r, k) == Some(v)
    ensures forall k' :: k' != k ==> Get(r, k') == Get(d, k')
    ensures UniqueKeys(d) ==> UniqueKeys(r)
  {
    if k in Keys(d) then
      ReplaceEntry(d, k, v);
      d[IndexOf(d, k) := (k, v)]
    else
      AppendEntry(d, k, v);
      d + [(k, v)]
  }

  /** Overwriting the entry of a present key keeps the keys and their positions. */
  lemma ReplaceEntry<K(!new), V>(d: Assoc<K, V>, k: K, v: V)
    requires k in Keys(d)
    ensures var r := d[IndexOf(d, k) := (k, v)];
      Keys(r) == Keys(d) && Get(r, k) == Some(v)
      && (forall k' :: k' != k ==> Get(r, k') == Get(d, k'))
      && (UniqueKeys(d) ==> UniqueKeys(r))
  {
    var r := d[IndexOf(d, k) := (k, v)];
    assert Keys(r) == Keys(d);
    assert IndexOf(r, k) == IndexOf(d, k);
    forall k' | k' != k
      ensures Get(r, k') == Get(d, k')
    {
      if k' in Keys(d) {
        assert IndexOf(r, k') == IndexOf(d, k');
      }
    }
  }

  /** Appending the entry of a new key leaves the positions of the other keys. */
  lemma AppendEntry<K(!new), V>(d: Assoc<K, V>, k: K, v: V)
    requires k !in Keys(d)
    ensures var r := d + [(k, v)];
      Keys(r) == Keys(d) + [k] && Get(r, k) == Some(v)
      && (forall k' :: k' != k ==> Get(r, k') == Get(d, k'))
      && (UniqueKeys(d) ==> UniqueKeys(r))
  {
    var r := d + [(k, v)];
    assert Keys(r) == Keys(d) + [k];
    IndexOfIsFirst(r, k, |d|);
    forall k' | k' != k
      ensures Get(r, k') == Get(d, k')
    {
      if k' in Keys(d) {
        IndexOfPrefix(d, [(k, v)], k');
      }
    }
  }

  /** Storing under a new key appends the entry. */
  lemma PutNew<K(!new), V>(d: Assoc<K, V>, k: K, v: V)
    requires k !in Keys(d)
    ensures Put(d, k, v) == d + [(k, v)]
  {
  }

  /** Storing the same value under the same key twice is storing it once. */
  lemma PutTwice<K(!new), V>(d: Assoc<K, V>, k: K, v: V)
    ensures Put(Put(d, k, v), k, v) == Put(d, k, v)
  {
    var r := Put(d, k, v);
    assert k in Keys(r);
    var i := IndexOf(r, k);
    assert r[i] == (k, v) by {
      if k in Keys(d) {
        IndexOfIsFirst(r, k, IndexOf(d, k));
      } else {
        IndexOfIsFirst(r, k, |d|);
      }
    }
    assert r[i := (k, v)] == r;
  }

  /** The value stored under a key, for keys known to be present. */
  function At<K(==), V>(d: Assoc<K, V>, k: K): V
    requires k in Keys(d)
  {
    Get(d, k).value
  }
}
