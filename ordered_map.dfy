/**
 A JavaScript `Map` with string keys: a table from keys to values that
 remembers the order in which keys were first inserted. `set` on a key already
 present replaces its value and keeps its position; `delete` removes the key;
 iteration (`values()`) follows insertion order.

 `Entries` is the value of such a map. The mutable object whose methods update
 it in place, as `Map.prototype.set` and `Map.prototype.delete` do, is class
 `JsMap` of module JsMaps (js_map.dfy).
 */
module OrderedMap {

  datatype Option<T> = None | Some(value: T)

  /** Keys are participant ids, which are strings. */
  type Key = string

  /** The keys in first-insertion order, and the value held for each key. */
  datatype Entries<V> = Entries(keys: seq<Key>, table: map<Key, V>)

  predicate Distinct(s: seq<Key>)
  {
    forall i, j :: 0 <= i < j < |s| ==> s[i] != s[j]
  }

  /** The order lists every key of the table exactly once. */
  predicate Valid<V>(m: Entries<V>)
  {
    && Distinct(m.keys)
    && (forall k :: k in m.keys ==> k in m.table)
    && (forall k :: k in m.table ==> k in m.keys)
  }

  /** `new Map()` */
  function Empty<V>(): (m: Entries<V>)
    ensures Valid(m)
    ensures forall k :: Get(m, k) == None
  {
    Entries([], map[])
  }

  /** `map.get(k)`, with `undefined` as None. */
  function Get<V>(m: Entries<V>, k: Key): Option<V>
  {
    if k in m.table then Some(m.table[k]) else None
  }

  /** `map.set(k, v)`: upsert. */
  function Set<V>(m: Entries<V>, k: Key, v: V): (r: Entries<V>)
    requires Valid(m)
    ensures Valid(r)
    ensures Get(r, k) == Some(v)
    ensures forall j :: j != k ==> Get(r, j) == Get(m, j)
  {
    Entries(if k in m.table then m.keys else m.keys + [k], m.table[k := v])
  }

  /** `s` with every occurrence of `k` taken out, the rest in order. */
  function Without(s: seq<Key>, k: Key): (r: seq<Key>)
    ensures forall j :: j in r <==> j in s && j != k
    ensures Distinct(s) ==> Distinct(r)
    ensures k !in s ==> r == s
  {
    if s == [] then []
    else if s[0] == k then Without(s[1..], k)
    else
      var rest := Without(s[1..], k);
      assert Distinct(s) ==> s[0] !in s[1..] by {
        if Distinct(s) {
          forall i | 0 <= i < |s[1..]| ensures s[1..][i] != s[0] {
            assert s[1..][i] == s[i + 1];
          }
        }
      }
      [s[0]] + rest
  }

  /** `map.delete(k)`: removes the entry; nothing happens when `k` is absent. */
  function Delete<V>(m: Entries<V>, k: Key): (r: Entries<V>)
    requires Valid(m)
    ensures Valid(r)
    ensures Get(r, k) == None
    ensures forall j :: j != k ==> Get(r, j) == Get(m, j)
    ensures k !in m.table ==> r == m
  {
    var r := Entries(Without(m.keys, k), m.table - {k});
    assert k !in m.table ==> m.table - {k} == m.table;
    r
  }

  /** The values held for `keys`, in the order of `keys`. */
  function ValuesOf<V>(keys: seq<Key>, table: map<Key, V>): (r: seq<V>)
    requires forall k :: k in keys ==> k in table
    ensures |r| == |keys|
    ensures forall i :: 0 <= i < |keys| ==> r[i] == table[keys[i]]
  {
    if keys == [] then [] else [table[keys[0]]] + ValuesOf(keys[1..], table)
  }

  /** `Array.from(map.values())`: each key's value, one per key, in first-insertion order. */
  function Values<V>(m: Entries<V>): (r: seq<V>)
    requires Valid(m)
    ensures |r| == |m.keys|
    ensures forall i :: 0 <= i < |m.keys| ==> r[i] == m.table[m.keys[i]]
  {
    ValuesOf(m.keys, m.table)
  }

  /** A distinct sequence has as many elements as the set of its elements. */
  lemma {:induction false} DistinctCardinality(s: seq<Key>)
    requires Distinct(s)
    ensures |set k | k in s| == |s|
  {
    if s != [] {
      var tail := s[1..];
      assert Distinct(tail) by {
        forall i, j | 0 <= i < j < |tail| ensures tail[i] != tail[j] {
          assert tail[i] == s[i + 1] && tail[j] == s[j + 1];
        }
      }
      DistinctCardinality(tail);
      assert s[0] !in tail by {
        forall i | 0 <= i < |tail| ensures tail[i] != s[0] {
          assert tail[i] == s[i + 1];
        }
      }
      assert (set k | k in s) == (set k | k in tail) + {s[0]};
    }
  }

  /**
   The map holds at most one entry per key: the rendered list of values has
   exactly one element for each key in the table.
   */
  lemma OneValuePerKey<V>(m: Entries<V>)
    requires Valid(m)
    ensures |Values(m)| == |m.table|
  {
    DistinctCardinality(m.keys);
    assert m.table.Keys == set k | k in m.keys;
  }

  /** Setting a key that is not yet present appends its value at the end. */
  lemma SetNewAppends<V>(m: Entries<V>, k: Key, v: V)
    requires Valid(m) && k !in m.table
    ensures Values(Set(m, k, v)) == Values(m) + [v]
  {
    var before, after := Values(m), Values(Set(m, k, v));
    assert |after| == |before| + 1;
    forall i | 0 <= i < |before| ensures after[i] == before[i] {
      assert m.keys[i] != k;
    }
  }

  /**
   Overwriting a key that is present keeps its position in the rendered list:
   only that one element changes.
   */
  lemma SetExistingKeepsPosition<V>(m: Entries<V>, k: Key, v: V, i: nat)
    requires Valid(m) && i < |m.keys| && m.keys[i] == k
    ensures Set(m, k, v).keys == m.keys
    ensures Values(Set(m, k, v)) == Values(m)[i := v]
  {
    var before, after := Values(m), Values(Set(m, k, v));
    forall j | 0 <= j < |before| ensures after[j] == before[i := v][j] {
      if j != i {
        assert m.keys[j] != k;
      }
    }
  }

  /** Two upserts of the same key leave one entry, holding the later value. */
  lemma SetTwice<V>(m: Entries<V>, k: Key, v1: V, v2: V)
    requires Valid(m)
    ensures Set(Set(m, k, v1), k, v2) == Set(m, k, v2)
    ensures |Values(Set(Set(m, k, v1), k, v2))| == |Values(Set(m, k, v1))|
  {
    assert m.table[k := v1][k := v2] == m.table[k := v2];
  }

  /** Taking `k` out of a distinct sequence that holds it at `i` closes the gap at `i`. */
  lemma {:induction false} WithoutAt(s: seq<Key>, k: Key, i: nat)
    requires Distinct(s) && i < |s| && s[i] == k
    ensures Without(s, k) == s[..i] + s[i + 1..]
  {
    if i == 0 {
      assert k !in s[1..] by {
        forall j | 0 <= j < |s[1..]| ensures s[1..][j] != k {
          assert s[1..][j] == s[j + 1];
        }
      }
    } else {
      var tail := s[1..];
      assert Distinct(tail) by {
        forall a, b | 0 <= a < b < |tail| ensures tail[a] != tail[b] {
          assert tail[a] == s[a + 1] && tail[b] == s[b + 1];
        }
      }
      WithoutAt(tail, k, i - 1);
      assert s[0] != k;
      assert s[..i] == [s[0]] + tail[..i - 1];
      assert s[i + 1..] == tail[i..];
    }
  }

  /**
   Deleting a key that is present removes exactly its value from the rendered
   list; the others keep their relative order.
   */
  lemma DeleteClosesGap<V>(m: Entries<V>, k: Key, i: nat)
    requires Valid(m) && i < |m.keys| && m.keys[i] == k
    ensures Values(Delete(m, k)) == Values(m)[..i] + Values(m)[i + 1..]
  {
    WithoutAt(m.keys, k, i);
    var before, after := Values(m), Values(Delete(m, k));
    var expected := before[..i] + before[i + 1..];
    assert |after| == |expected|;
    forall j | 0 <= j < |after| ensures after[j] == expected[j] {
      if j < i {
        assert Delete(m, k).keys[j] == m.keys[j];
      } else {
        assert Delete(m, k).keys[j] == m.keys[j + 1];
      }
    }
  }

  /** Deleting twice is deleting once. */
  lemma DeleteIdempotent<V>(m: Entries<V>, k: Key)
    requires Valid(m)
    ensures Delete(Delete(m, k), k) == Delete(m, k)
  {
  }
}
