/**
 * JavaScript's `Map`: entries in insertion order, each key once. Setting an
 * existing key replaces its value in place; a new key goes to the end.
 */
module OrderedMaps {
  import opened Wrappers

  datatype OrderedMap<K(==), V> = OrderedMap(entries: seq<(K, V)>)
  {
    /** Each key occurs once. */
    predicate Valid()
    {
      forall i, j :: 0 <= i < j < |entries| ==> entries[i].0 != entries[j].0
    }

    function Keys(): (r: seq<K>)
      ensures |r| == |entries| && forall i :: 0 <= i < |r| ==> r[i] == entries[i].0
    {
      seq(|entries|, i requires 0 <= i < |entries| => entries[i].0)
    }

    /** `map.values()`, in insertion order. */
    function Values(): (r: seq<V>)
      ensures |r| == |entries| && forall i :: 0 <= i < |r| ==> r[i] == entries[i].1
    {
      seq(|entries|, i requires 0 <= i < |entries| => entries[i].1)
    }

    predicate Has(k: K)
    {
      exists i :: 0 <= i < |entries| && entries[i].0 == k
    }

    /** The position of a key, or -1. */
    function IndexOf(k: K): (r: int)
      ensures -1 <= r < |entries|
      ensures r >= 0 ==> entries[r].0 == k
      ensures r == -1 <==> !Has(k)
      decreases |entries|
    {
      if entries == [] then -1
      else if entries[|entries| - 1].0 == k then |entries| - 1
      else OrderedMap(entries[..|entries| - 1]).IndexOf(k)
    }

    /** `map.get(k)`. */
    function Get(k: K): Option<V>
    {
      var i := IndexOf(k);
      if i < 0 then None else Some(entries[i].1)
    }

    /**
     * `map.set(k, v)`: an existing key keeps its position and takes the new
     * value; a new key is appended.
     */
    function Set(k: K, v: V): (r: OrderedMap<K, V>)
      requires Valid()
      ensures r.Valid()
      ensures Has(k) ==> |r.entries| == |entries| && r.Keys() == Keys()
                         && r.entries[IndexOf(k)] == (k, v)
                         && forall i :: 0 <= i < |entries| && i != IndexOf(k) ==> r.entries[i] == entries[i]
      ensures !Has(k) ==> r.entries == entries + [(k, v)]
    {
      var i := IndexOf(k);
      if i < 0 then OrderedMap(entries + [(k, v)])
      else OrderedMap(entries[i := (k, v)])
    }
  }

  /** After a set, the key maps to the new value. */
  lemma GetAfterSet<K, V>(m: OrderedMap<K, V>, k: K, v: V)
    requires m.Valid()
    ensures m.Set(k, v).Get(k) == Some(v)
  {
    var r := m.Set(k, v);
    var i := r.IndexOf(k);
    assert r.entries[i].0 == k;
    if m.Has(k) {
      assert r.entries[m.IndexOf(k)].0 == k;
    } else {
      assert r.entries[|m.entries|].0 == k;
    }
  }

  /** A set leaves every other key's value alone. */
  lemma GetOtherAfterSet<K, V>(m: OrderedMap<K, V>, k: K, v: V, k': K)
    requires m.Valid() && k' != k
    ensures m.Set(k, v).Get(k') == m.Get(k')
  {
    var r := m.Set(k, v);
    var i, j := r.IndexOf(k'), m.IndexOf(k');
    if j >= 0 {
      assert r.entries[j] == m.entries[j];
      assert r.Has(k');
    }
    if i >= 0 {
      if !m.Has(k) {
        assert i < |m.entries|;
        assert m.entries[i].0 == k';
      } else {
        assert i != m.IndexOf(k);
        assert m.entries[i].0 == k';
      }
      assert m.Has(k');
      assert i == j;
    }
  }
}
