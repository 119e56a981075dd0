/** `DictionaryEx.FilterNotNull`: a fresh dictionary holding exactly the
    entries of its argument whose value is not null. A C# null is `None`. */
module DictionaryEx {
  import opened Wrappers

  function FilterNotNull<K(!new), V>(m: map<K, Option<V>>): (r: map<K, V>)
    // an entry survives exactly when its value is present
    ensures forall k :: k in r <==> k in m && m[k].Some?
    // and it keeps that value
    ensures forall k :: k in r ==> m[k] == Some(r[k])
  {
    map k | k in m && m[k].Some? :: m[k].value
  }

  /** The result is no larger than its argument. */
  lemma FilterNotNullSize<K(!new), V>(m: map<K, Option<V>>)
    ensures FilterNotNull(m).Keys <= m.Keys
    ensures |FilterNotNull(m)| <= |m|
  {
    var r := FilterNotNull(m);
    assert r.Keys <= m.Keys;
    SubsetCard(r.Keys, m.Keys);
  }

  lemma {:induction false} SubsetCard<K>(a: set<K>, b: set<K>)
    requires a <= b
    ensures |a| <= |b|
    decreases |b|
  {
    if a != {} {
      var x :| x in a;
      SubsetCard(a - {x}, b - {x});
    }
  }

  /** Nothing is dropped from an argument that has no null values, and the
      filter is idempotent once lifted back into optional values. */
  lemma FilterNotNullKeepsPresent<K(!new), V>(m: map<K, V>)
    ensures FilterNotNull(map k | k in m :: Some(m[k])) == m
  {
    var lifted := map k | k in m :: Some(m[k]);
    assert FilterNotNull(lifted).Keys == m.Keys;
  }

  /** Setting an entry to a value sets it in the result; nothing else moves. */
  lemma FilterNotNullUpdate<K(!new), V>(m: map<K, Option<V>>, k: K, v: V)
    ensures FilterNotNull(m[k := Some(v)]) == FilterNotNull(m)[k := v]
  {
    assert FilterNotNull(m[k := Some(v)]).Keys == FilterNotNull(m)[k := v].Keys;
  }
}
