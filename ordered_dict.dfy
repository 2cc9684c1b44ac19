// Python dicts keep insertion order; the model keeps the key order beside the map.
module OrderedDicts {
  datatype ODict<K(==), V> = ODict(keys: seq<K>, values: map<K, V>)

  predicate Distinct<K(==)>(s: seq<K>)
  {
    forall i, j :: 0 <= i < j < |s| ==> s[i] != s[j]
  }

  predicate Valid<K(==), V>(d: ODict<K, V>)
  {
    Distinct(d.keys) && d.values.Keys == (set i | 0 <= i < |d.keys| :: d.keys[i])
  }

  function Empty<K(==), V>(): (d: ODict<K, V>)
    ensures Valid(d) && d.keys == []
  {
    ODict([], map[])
  }

  /** `d[k] = v`: a new key goes to the end, an existing key keeps its place. */
  function Put<K(==), V>(d: ODict<K, V>, k: K, v: V): (r: ODict<K, V>)
    requires Valid(d)
    ensures Valid(r)
    ensures r.values == d.values[k := v]
    ensures k in d.values ==> r.keys == d.keys
    ensures k !in d.values ==> r.keys == d.keys + [k]
  {
    if k in d.values then ODict(d.keys, d.values[k := v])
    else
      var ks := d.keys + [k];
      assert forall i :: 0 <= i < |d.keys| ==> d.keys[i] in d.values.Keys;
      assert (set i | 0 <= i < |ks| :: ks[i]) == d.values.Keys + {k} by {
        forall x | x in d.values.Keys ensures x in (set i | 0 <= i < |ks| :: ks[i]) {
          var i :| 0 <= i < |d.keys| && d.keys[i] == x;
          assert ks[i] == x;
        }
        assert ks[|d.keys|] == k;
      }
      ODict(ks, d.values[k := v])
  }

  /** Writing a key twice leaves what the second write leaves. */
  lemma PutPut<K, V>(d: ODict<K, V>, k: K, v: V, w: V)
    requires Valid(d)
    ensures Put(Put(d, k, v), k, w) == Put(d, k, w)
  {
  }
}
