/**
 * A JavaScript `Map`: a finite map together with the order in which its
 * keys were first inserted. `set` on a present key replaces the value and
 * keeps the key's place; `set` on a new key appends it; `delete` removes
 * the key from both; `values()` follows insertion order.
 */
module OrderedMaps {
  import opened Wrappers

  datatype OrderedMap<V> = OrderedMap(keys: seq<string>, entries: map<string, V>) {

    /** The order lists every key of `entries` exactly once. */
    ghost predicate Valid() {
      && Distinct(keys)
      && entries.Keys == (set k | k in keys)
    }
  }

  function Empty<V>(): (m: OrderedMap<V>)
    ensures m.Valid() && m.entries == map[]
  {
    OrderedMap([], map[])
  }

  /** `m.get(k)`. */
  function Get<V>(m: OrderedMap<V>, k: string): (r: Option<V>)
    ensures r.Some? <==> k in m.entries
    ensures r.Some? ==> r.value == m.entries[k]
  {
    if k in m.entries then Some(m.entries[k]) else None
  }

  /** `m.set(k, v)`. */
  function Set<V>(m: OrderedMap<V>, k: string, v: V): (r: OrderedMap<V>)
    requires m.Valid()
    ensures r.Valid()
    ensures Get(r, k) == Some(v)
    ensures forall k' :: k' != k ==> Get(r, k') == Get(m, k')
    ensures k in m.entries ==> r.keys == m.keys
    ensures k !in m.entries ==> r.keys == m.keys + [k]
  {
    OrderedMap(if k in m.entries then m.keys else m.keys + [k], m.entries[k := v])
  }

  /** `keys` with every occurrence of `k` taken out, the others in order. */
  function Without(keys: seq<string>, k: string): (r: seq<string>)
    ensures forall x :: x in r <==> x in keys && x != k
  {
    if keys == [] then []
    else if keys[0] == k then Without(keys[1..], k)
    else [keys[0]] + Without(keys[1..], k)
  }

  /** No key occurs twice in `keys`. */
  predicate Distinct(keys: seq<string>) {
    forall i, j :: 0 <= i < j < |keys| ==> keys[i] != keys[j]
  }

  lemma {:induction false} WithoutKeepsDistinct(keys: seq<string>, k: string)
    requires Distinct(keys)
    ensures Distinct(Without(keys, k))
  {
    if keys != [] {
      WithoutKeepsDistinct(keys[1..], k);
      assert keys[0] !in keys[1..];
      if keys[0] != k {
        var r := Without(keys, k);
        var rest := Without(keys[1..], k);
        assert r == [keys[0]] + rest;
        assert keys[0] !in rest;
        forall i, j | 0 <= i < j < |r| ensures r[i] != r[j] {
          if i == 0 {
            assert r[j] == rest[j - 1];
          } else {
            assert r[i] == rest[i - 1] && r[j] == rest[j - 1];
          }
        }
      }
    }
  }

  /** `m.delete(k)`; whether `k` was present is `Has(m, k)` before the call. */
  function Delete<V>(m: OrderedMap<V>, k: string): (r: OrderedMap<V>)
    requires m.Valid()
    ensures r.Valid()
    ensures Get(r, k) == None
    ensures forall k' :: k' != k ==> Get(r, k') == Get(m, k')
    ensures r.keys == Without(m.keys, k)
  {
    WithoutKeepsDistinct(m.keys, k);
    OrderedMap(Without(m.keys, k), map k' | k' in m.entries && k' != k :: m.entries[k'])
  }

  /** `m.has(k)`. */
  predicate Has<V>(m: OrderedMap<V>, k: string) {
    k in m.entries
  }

  /** The values stored under `keys`, in that order. */
  function ValuesOf<V>(keys: seq<string>, entries: map<string, V>): (r: seq<V>)
    requires forall k :: k in keys ==> k in entries
    ensures |r| == |keys|
    ensures forall i :: 0 <= i < |keys| ==> r[i] == entries[keys[i]]
  {
    if keys == [] then [] else [entries[keys[0]]] + ValuesOf(keys[1..], entries)
  }

  /** `Array.from(m.values())`: the values in insertion order. */
  function Values<V>(m: OrderedMap<V>): (r: seq<V>)
    requires m.Valid()
    ensures |r| == |m.keys|
    ensures forall i :: 0 <= i < |m.keys| ==> r[i] == m.entries[m.keys[i]]
  {
    ValuesOf(m.keys, m.entries)
  }

  /** Setting a new key appends its value to `values()`. */
  lemma ValuesOfSetNew<V>(m: OrderedMap<V>, k: string, v: V)
    requires m.Valid() && k !in m.entries
    ensures Values(Set(m, k, v)) == Values(m) + [v]
  {
    var r := Set(m, k, v);
    assert forall i :: 0 <= i < |m.keys| ==> m.keys[i] != k;
    assert forall i :: 0 <= i < |m.keys| ==> Values(r)[i] == Values(m)[i];
  }

  /** Setting a present key replaces its value in place within `values()`. */
  lemma ValuesOfSetPresent<V>(m: OrderedMap<V>, k: string, v: V)
    requires m.Valid() && k in m.entries
    ensures exists i :: 0 <= i < |m.keys| && m.keys[i] == k && Values(Set(m, k, v)) == Values(m)[i := v]
  {
    var i :| 0 <= i < |m.keys| && m.keys[i] == k;
    var r, before := Values(Set(m, k, v)), Values(m);
    assert Set(m, k, v).keys == m.keys;
    forall j | 0 <= j < |m.keys| ensures r[j] == before[i := v][j] {
      if j != i {
        assert m.keys[j] != k;
      }
    }
    assert r == before[i := v];
  }
}
