/** A JavaScript `Map`: its entries, and the order in which their keys were
    first inserted, which is the order `forEach` and `values()` visit them.
    `set` on a key already present replaces the value in place; `delete`
    drops the key and keeps the others in order. */
module OrderedMaps {
  import opened Wrappers

  datatype OrderedMap<K(==, !new), V> = OrderedMap(keys: seq<K>, entries: map<K, V>)
  {
    /** Every key is listed once, and the listed keys are the entries'. */
    ghost predicate Valid() {
      && Distinct(keys)
      && (forall k :: k in entries <==> k in keys)
    }

    /** `Map.prototype.get`. */
    function Get(k: K): (r: Option<V>)
      ensures r.Some? <==> k in entries
      ensures r.Some? ==> r.value == entries[k]
    {
      if k in entries then Some(entries[k]) else None
    }

    /** `Map.prototype.set`: a new key goes last, an existing key keeps its
        place. */
    function Set(k: K, v: V): (r: OrderedMap<K, V>)
      requires Valid()
      ensures r.Valid()
      ensures r.Get(k) == Some(v)
      ensures forall k' :: k' != k ==> r.Get(k') == Get(k')
      ensures k in entries ==> r.keys == keys
      ensures k !in entries ==> r.keys == keys + [k]
    {
      if k in entries then OrderedMap(keys, entries[k := v])
      else OrderedMap(keys + [k], entries[k := v])
    }

    /** `Map.prototype.delete`: the remaining keys keep their order. */
    function Delete(k: K): (r: OrderedMap<K, V>)
      requires Valid()
      ensures r.Valid()
      ensures r.Get(k) == None
      ensures forall k' :: k' != k ==> r.Get(k') == Get(k')
      ensures k !in entries ==> r == this
      ensures forall i :: 0 <= i < |keys| && keys[i] == k ==> r.keys == keys[..i] + keys[i + 1..]
    {
      DistinctWithout(keys, k);
      forall i | 0 <= i < |keys| && keys[i] == k
        ensures Without(keys, k) == keys[..i] + keys[i + 1..]
      {
        WithoutSplit(keys, k, i);
      }
      if k !in keys then WithoutAbsent(keys, k); OrderedMap(keys, entries)
      else OrderedMap(Without(keys, k), entries - {k})
    }

    /** `Array.from(map.values())`: the values in key order. */
    function Values(): (r: seq<V>)
      requires Valid()
      ensures |r| == |keys|
      ensures forall i :: 0 <= i < |keys| ==> r[i] == entries[keys[i]]
    {
      seq(|keys|, i requires 0 <= i < |keys| => entries[keys[i]])
    }
  }

  /** `new Map()`. */
  function Empty<K(==, !new), V>(): (r: OrderedMap<K, V>)
    ensures r.Valid() && forall k :: r.Get(k) == None
  {
    OrderedMap([], map[])
  }

  ghost predicate Distinct<K>(s: seq<K>) {
    forall i, j :: 0 <= i < j < |s| ==> s[i] != s[j]
  }

  lemma DistinctCons<K(!new)>(x: K, t: seq<K>)
    requires x !in t && Distinct(t)
    ensures Distinct([x] + t)
  {
    var r := [x] + t;
    forall i, j | 0 <= i < j < |r| ensures r[i] != r[j] {
      assert r[j] == t[j - 1];
      if i > 0 {
        assert r[i] == t[i - 1];
      }
    }
  }

  /** `s` with every occurrence of `k` removed, the rest in order. */
  function Without<K(==, !new)>(s: seq<K>, k: K): (r: seq<K>)
    ensures forall x :: x in r <==> x in s && x != k
  {
    if |s| == 0 then []
    else (if s[0] == k then [] else [s[0]]) + Without(s[1..], k)
  }

  lemma {:induction false} DistinctWithout<K(!new)>(s: seq<K>, k: K)
    requires Distinct(s)
    ensures Distinct(Without(s, k))
  {
    if |s| > 0 {
      assert Distinct(s[1..]) by {
        forall i, j | 0 <= i < j < |s| - 1 ensures s[1..][i] != s[1..][j] {
          assert s[1..][i] == s[i + 1] && s[1..][j] == s[j + 1];
        }
      }
      DistinctWithout(s[1..], k);
      var t := Without(s[1..], k);
      if s[0] != k {
        assert s[0] !in s[1..];
        DistinctCons(s[0], t);
      } else {
        assert Without(s, k) == [] + t;
      }
    }
  }

  lemma {:induction false} WithoutAbsent<K(!new)>(s: seq<K>, k: K)
    requires k !in s
    ensures Without(s, k) == s
  {
    if |s| > 0 {
      WithoutAbsent(s[1..], k);
      assert s == [s[0]] + s[1..];
    }
  }

  /** In a sequence without repeats, removing `k` cuts out its one
      position and leaves the keys before and after it in order. */
  lemma {:induction false} WithoutSplit<K(!new)>(s: seq<K>, k: K, i: int)
    requires Distinct(s) && 0 <= i < |s| && s[i] == k
    ensures Without(s, k) == s[..i] + s[i + 1..]
  {
    if i == 0 {
      assert k !in s[1..] by {
        forall j | 0 <= j < |s| - 1 ensures s[1..][j] != k {
          assert s[1..][j] == s[j + 1];
        }
      }
      WithoutAbsent(s[1..], k);
      assert Without(s, k) == [] + Without(s[1..], k);
    } else {
      assert Distinct(s[1..]) by {
        forall a, b | 0 <= a < b < |s| - 1 ensures s[1..][a] != s[1..][b] {
          assert s[1..][a] == s[a + 1] && s[1..][b] == s[b + 1];
        }
      }
      WithoutSplit(s[1..], k, i - 1);
      assert s[0] != k;
      assert s[1..][..i - 1] + s[1..][i..] == s[1..i] + s[i + 1..];
      assert s[..i] == [s[0]] + s[1..i];
    }
  }

  lemma {:induction false} WithoutAppended<K(!new)>(s: seq<K>, k: K)
    requires k !in s
    ensures Without(s + [k], k) == s
  {
    if |s| == 0 {
      assert Without([k], k) == [] + Without([k][1..], k);
    } else {
      assert (s + [k])[1..] == s[1..] + [k];
      WithoutAppended(s[1..], k);
      assert s == [s[0]] + s[1..];
    }
  }

  /** Inserting a new key and deleting it again gives back the map. */
  lemma SetThenDelete<K(!new), V>(m: OrderedMap<K, V>, k: K, v: V)
    requires m.Valid() && k !in m.entries
    ensures m.Set(k, v).Delete(k) == m
  {
    WithoutAppended(m.keys, k);
    assert m.entries[k := v] - {k} == m.entries;
  }

  /** Setting a key twice is setting it once, to the second value. */
  lemma SetTwice<K(!new), V>(m: OrderedMap<K, V>, k: K, v: V, w: V)
    requires m.Valid()
    ensures m.Set(k, v).Set(k, w) == m.Set(k, w)
  {
    assert m.entries[k := v][k := w] == m.entries[k := w];
  }

  /** Setting two different keys commutes when both are already present. */
  lemma SetPresentCommutes<K(!new), V>(m: OrderedMap<K, V>, j: K, v: V, k: K, w: V)
    requires m.Valid() && j in m.entries && k in m.entries && j != k
    ensures m.Set(j, v).Set(k, w) == m.Set(k, w).Set(j, v)
  {
    assert m.entries[j := v][k := w] == m.entries[k := w][j := v];
  }
}
