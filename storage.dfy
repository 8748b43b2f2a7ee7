/** Browser `localStorage`, reduced to a map from keys to string values, and
    the truthiness test the code applies to what it reads from it. The model
    keeps only the `auth_token` key here; the keys zustand's `persist` writes
    (`auth-storage`, `cart-storage`) are not in this map. */
module Browser {
  import opened Wrappers

  /** The key under which the bearer token is kept (src/lib/api.ts:53). */
  const AuthTokenKey := "auth_token"

  /** JavaScript truthiness of a `string | null`: `null` and the empty
      string both count as "no token". */
  predicate Truthy(v: Option<string>) {
    v.Some? && v.value != ""
  }

  /** `localStorage.getItem(key)` on a given content. */
  function Lookup(entries: map<string, string>, key: string): (r: Option<string>)
    ensures r.Some? <==> key in entries
    ensures r.Some? ==> r.value == entries[key]
  {
    if key in entries then Some(entries[key]) else None
  }

  class Storage {
    var entries: map<string, string>

    constructor (entries: map<string, string>)
      ensures this.entries == entries
    {
      this.entries := entries;
    }

    function GetItem(key: string): Option<string>
      reads this
    {
      Lookup(entries, key)
    }

    method SetItem(key: string, value: string)
      modifies this
      ensures entries == old(entries)[key := value]
    {
      entries := entries[key := value];
    }

    method RemoveItem(key: string)
      modifies this
      ensures entries == old(entries) - {key}
    {
      entries := entries - {key};
    }
  }
}
