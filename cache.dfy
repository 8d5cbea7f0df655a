/**
 * The PSR-6 cache pool the adapter writes through to: a mutable store from
 * keys to values with a time-to-live. Expiry over time is not modelled; an
 * entry is a hit while it is present.
 */
module Cache {

  import opened Wrappers
  import opened Sessions

  /** A saved cache item: its value and the `expiresAfter` seconds it was saved with. */
  datatype Entry = Entry(value: Value, ttl: int)

  class CacheStore {
    var items: map<string, Entry>

    constructor (items: map<string, Entry>)
      ensures this.items == items
    {
      this.items := items;
    }

    /** `hasItem`. */
    method HasItem(key: string) returns (hit: bool)
      ensures hit <==> key in items
    {
      hit := key in items;
    }

    /** `getItem` followed by `isHit` and `get`: the value on a hit, None on a miss. */
    method GetItem(key: string) returns (item: Option<Value>)
      ensures key in items ==> item == Some(items[key].value)
      ensures key !in items ==> item == None
    {
      if key in items {
        item := Some(items[key].value);
      } else {
        item := None;
      }
    }

    /** `deleteItem`. */
    method DeleteItem(key: string)
      modifies this
      ensures items == old(items) - {key}
    {
      items := items - {key};
    }

    /** `getItem`, `set`, `expiresAfter` and `save`: stores `value` under `key`. */
    method Save(key: string, value: Value, ttl: int)
      modifies this
      ensures items == old(items)[key := Entry(value, ttl)]
    {
      items := items[key := Entry(value, ttl)];
    }
  }
}
