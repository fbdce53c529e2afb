/**
 The mutable JavaScript `Map` object, whose `set` and `delete` change its
 entries in place. Each method states its new entries in terms of the value
 model in module OrderedMap.
 */
module JsMaps {
  import OrderedMap

  /**
   The mutable `Map` object. Its fields are the entries; the methods change
   them in place and say what the new entries are in terms of the functions of
   module OrderedMap.
   */
  class JsMap<V> {
    var keys: seq<OrderedMap.Key>
    var table: map<OrderedMap.Key, V>

    function Model(): OrderedMap.Entries<V>
      reads this
    {
      OrderedMap.Entries(keys, table)
    }

    predicate Valid()
      reads this
    {
      OrderedMap.Valid(Model())
    }

    /** `new Map()` */
    constructor Empty()
      ensures Valid() && Model() == OrderedMap.Empty()
    {
      keys, table := [], map[];
    }

    /** `new Map(other)`: a fresh map with the same entries in the same order. */
    constructor Copy(other: JsMap<V>)
      requires other.Valid()
      ensures Valid() && Model() == other.Model()
    {
      keys, table := other.keys, other.table;
    }

    /** `map.set(k, v)` */
    method Set(k: OrderedMap.Key, v: V)
      requires Valid()
      modifies this
      ensures Valid() && Model() == OrderedMap.Set(old(Model()), k, v)
    {
      if k !in table {
        keys := keys + [k];
      }
      table := table[k := v];
    }

    /** `map.delete(k)`, which answers whether `k` was present. */
    method Delete(k: OrderedMap.Key) returns (existed: bool)
      requires Valid()
      modifies this
      ensures existed <==> k in old(table)
      ensures Valid() && Model() == OrderedMap.Delete(old(Model()), k)
    {
      existed := k in table;
      keys := OrderedMap.Without(keys, k);
      table := table - {k};
    }

    /** `Array.from(map.values())` */
    function Values(): seq<V>
      reads this
      requires Valid()
    {
      OrderedMap.Values(Model())
    }
  }
}
