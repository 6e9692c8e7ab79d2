/** A JavaScript `Map`: a list of entries in insertion order. `set` on a key that is
    present replaces its value in place; on a new key it appends an entry; `values()`
    iterates in insertion order. */
module OrderedMaps {
  import opened Wrappers

  datatype Entry<K, V> = Entry(key: K, value: V)

  type OrderedMap<K, V> = seq<Entry<K, V>>

  predicate HasKey<K(==), V>(m: OrderedMap<K, V>, k: K) {
    exists i :: 0 <= i < |m| && m[i].key == k
  }

  /** No key is stored twice; every map built by `Set` from the empty map keeps this. */
  predicate DistinctKeys<K(==), V>(m: OrderedMap<K, V>) {
    forall i, j :: 0 <= i < j < |m| ==> m[i].key != m[j].key
  }

  /** `map.values()` in insertion order. */
  function Values<K, V>(m: OrderedMap<K, V>): (vs: seq<V>)
    ensures |vs| == |m|
    ensures forall i :: 0 <= i < |m| ==> vs[i] == m[i].value
  {
    seq(|m|, i requires 0 <= i < |m| => m[i].value)
  }

  /** `map.get(k)`: the value of the entry with key `k`, or `undefined`. */
  function Get<K(==), V>(m: OrderedMap<K, V>, k: K): (r: Option<V>)
    ensures r.None? <==> !HasKey(m, k)
    ensures r.Some? ==> exists i :: 0 <= i < |m| && m[i] == Entry(k, r.value)
  {
    if |m| == 0 then None
    else if m[0].key == k then Some(m[0].value)
    else
      assert forall i :: 1 <= i < |m| ==> m[i] == m[1..][i - 1];
      Get(m[1..], k)
  }

  /** `map.set(k, v)`: an existing entry is updated where it stands, a new key is
      appended; the lemmas below state what this means for `Get`. */
  function Set<K(==), V>(m: OrderedMap<K, V>, k: K, v: V): (r: OrderedMap<K, V>)
    ensures |r| == if HasKey(m, k) then |m| else |m| + 1
  {
    if |m| == 0 then [Entry(k, v)]
    else if m[0].key == k then [Entry(k, v)] + m[1..]
    else
      assert HasKey(m, k) <==> HasKey(m[1..], k) by { HasKeyTail(m, k); }
      [m[0]] + Set(m[1..], k, v)
  }

  lemma HasKeyTail<K, V>(m: OrderedMap<K, V>, k: K)
    requires |m| > 0 && m[0].key != k
    ensures HasKey(m, k) <==> HasKey(m[1..], k)
  {
    if HasKey(m, k) {
      var i :| 0 <= i < |m| && m[i].key == k;
      assert m[1..][i - 1].key == k;
    }
    if HasKey(m[1..], k) {
      var i :| 0 <= i < |m[1..]| && m[1..][i].key == k;
      assert m[i + 1].key == k;
    }
  }

  /** After `set(k, v)`, `get(k)` returns `v`. */
  lemma {:induction false} GetSetSame<K, V>(m: OrderedMap<K, V>, k: K, v: V)
    ensures Get(Set(m, k, v), k) == Some(v)
    decreases |m|
  {
    if |m| > 0 && m[0].key != k {
      GetSetSame(m[1..], k, v);
    }
  }

  /** `set(k, v)` leaves the value of every other key as it was. */
  lemma {:induction false} GetSetOther<K, V>(m: OrderedMap<K, V>, k: K, v: V, other: K)
    requires other != k
    ensures Get(Set(m, k, v), other) == Get(m, other)
    decreases |m|
  {
    if |m| > 0 && m[0].key != k && m[0].key != other {
      GetSetOther(m[1..], k, v, other);
    }
  }

  /** Setting a key that is absent appends one entry and touches nothing else. */
  lemma {:induction false} SetNewKeyAppends<K, V>(m: OrderedMap<K, V>, k: K, v: V)
    requires !HasKey(m, k)
    ensures Set(m, k, v) == m + [Entry(k, v)]
    decreases |m|
  {
    if |m| > 0 {
      HasKeyTail(m, k);
      SetNewKeyAppends(m[1..], k, v);
      assert [m[0]] + (m[1..] + [Entry(k, v)]) == m + [Entry(k, v)];
    }
  }

  /** `Set` keeps keys distinct. */
  lemma {:induction false} SetKeepsDistinct<K, V>(m: OrderedMap<K, V>, k: K, v: V)
    requires DistinctKeys(m)
    ensures DistinctKeys(Set(m, k, v))
    decreases |m|
  {
    if |m| > 0 && m[0].key != k {
      SetKeepsDistinct(m[1..], k, v);
      var r := Set(m, k, v);
      var rest := Set(m[1..], k, v);
      assert r == [m[0]] + rest;
      forall j | 0 <= j < |rest| ensures rest[j].key != m[0].key {
        SetKeys(m[1..], k, v, j);
        if rest[j].key != k {
          assert m[1..][j].key == rest[j].key;
          assert m[j + 1].key == rest[j].key;
        }
      }
    }
  }

  /** Position by position, `Set` changes only the key-`k` slot (or adds it last). */
  lemma {:induction false} SetKeys<K, V>(m: OrderedMap<K, V>, k: K, v: V, j: int)
    requires 0 <= j < |Set(m, k, v)|
    ensures Set(m, k, v)[j].key == k || (j < |m| && Set(m, k, v)[j] == m[j])
    decreases |m|
  {
    if |m| > 0 && m[0].key != k && j > 0 {
      SetKeys(m[1..], k, v, j - 1);
    }
  }
}
