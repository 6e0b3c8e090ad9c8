/** Java's LinkedHashMap as an association list in insertion order: a put of a new key
    appends the entry, a put of a present key replaces its value where it stands. */
module LinkedMaps {
  import opened Wrappers

  function Keys<K, V>(m: seq<(K, V)>): (r: seq<K>)
    ensures |r| == |m| && forall i :: 0 <= i < |m| ==> r[i] == m[i].0
  {
    seq(|m|, i requires 0 <= i < |m| => m[i].0)
  }

  predicate DistinctKeys<K(==), V>(m: seq<(K, V)>)
  {
    forall i, j :: 0 <= i < j < |m| ==> m[i].0 != m[j].0
  }

  /** get: the value stored under k, if any. */
  function Get<K(==), V>(m: seq<(K, V)>, k: K): (r: Option<V>)
    ensures r.None? <==> k !in Keys(m)
    ensures r.Some? && DistinctKeys(m) ==> forall i :: 0 <= i < |m| && m[i].0 == k ==> m[i].1 == r.value
  {
    if |m| == 0 then None
    else if m[0].0 == k then Some(m[0].1)
    else Get(m[1..], k)
  }

  /** put: replace the value of a present key in place, or append a new entry. */
  function Put<K(==), V>(m: seq<(K, V)>, k: K, v: V): (r: seq<(K, V)>)
    ensures k in Keys(m) ==> |r| == |m|
    ensures k !in Keys(m) ==> r == m + [(k, v)]
    ensures forall i :: 0 <= i < |m| ==> r[i].0 == m[i].0
    ensures forall i :: 0 <= i < |m| && m[i].0 != k ==> r[i] == m[i]
  {
    if |m| == 0 then [(k, v)]
    else if m[0].0 == k then [(k, v)] + m[1..]
    else [m[0]] + Put(m[1..], k, v)
  }

  /** After a put the key maps to the new value, every other key keeps its value, and the keys stay distinct. */
  lemma PutGet<K, V>(m: seq<(K, V)>, k: K, v: V, k': K)
    requires DistinctKeys(m)
    ensures DistinctKeys(Put(m, k, v))
    ensures Get(Put(m, k, v), k) == Some(v)
    ensures k' != k ==> Get(Put(m, k, v), k') == Get(m, k')
  {
    PutDistinct(m, k, v);
    PutGetSame(m, k, v);
    if k' != k { PutGetOther(m, k, v, k'); }
  }

  /** A put keeps the keys distinct: it either keeps the key list or appends a new key. */
  lemma PutDistinct<K, V>(m: seq<(K, V)>, k: K, v: V)
    requires DistinctKeys(m)
    ensures DistinctKeys(Put(m, k, v))
  {
    var r := Put(m, k, v);
    if k !in Keys(m) {
      forall i | 0 <= i < |m|
        ensures r[i].0 != k
      {
        assert Keys(m)[i] == m[i].0;
      }
    }
  }

  lemma {:induction false} PutGetSame<K, V>(m: seq<(K, V)>, k: K, v: V)
    ensures Get(Put(m, k, v), k) == Some(v)
  {
    if |m| > 0 && m[0].0 != k {
      PutGetSame(m[1..], k, v);
      assert Put(m, k, v)[1..] == Put(m[1..], k, v);
    }
  }

  lemma {:induction false} PutGetOther<K, V>(m: seq<(K, V)>, k: K, v: V, k': K)
    requires k' != k
    ensures Get(Put(m, k, v), k') == Get(m, k')
  {
    if |m| > 0 {
      if m[0].0 == k {
        assert Put(m, k, v)[1..] == m[1..];
      } else if m[0].0 != k' {
        PutGetOther(m[1..], k, v, k');
        assert Put(m, k, v)[1..] == Put(m[1..], k, v);
      }
    }
  }
}
