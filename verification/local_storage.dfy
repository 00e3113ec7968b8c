/** The key-value store the cart writes through to: the in-memory stand-in for
    the browser's `localStorage` that the cart's test suite installs on
    `window`. Its state is one string-to-string dictionary, replaced or
    updated in place by `clear`, `removeItem` and `setItem`. */
module LocalStorage {
  import opened Types

  class Store {
    var items: map<string, string>

    /** The store starts out empty. */
    constructor ()
      ensures items == map[]
    {
      items := map[];
    }

    /** `getItem`: the stored text, or None (`null`) when the key is absent
        or holds the empty string, since `store[key] || null` treats the empty
        string as missing. */
    function GetItem(key: string): (r: Option<string>)
      reads this
      ensures r.Some? <==> key in items && items[key] != ""
      ensures r.Some? ==> r.value == items[key]
    {
      if key in items && items[key] != "" then Some(items[key]) else None
    }

    /** `clear`: the dictionary is replaced by an empty one. */
    method Clear()
      modifies this
      ensures items == map[]
      ensures forall k :: GetItem(k) == None
    {
      items := map[];
    }

    /** `removeItem`: deletes `key` and leaves every other key as it was. */
    method RemoveItem(key: string)
      modifies this
      ensures items == old(items) - {key}
      ensures GetItem(key) == None
      ensures forall k :: k != key ==> GetItem(k) == old(GetItem(k))
    {
      items := items - {key};
    }

    /** `setItem`: `key` now holds `value`, every other key is unchanged.
        A value that is stored empty reads back as None. */
    method SetItem(key: string, value: string)
      modifies this
      ensures items == old(items)[key := value]
      ensures GetItem(key) == if value == "" then None else Some(value)
      ensures forall k :: k != key ==> GetItem(k) == old(GetItem(k))
    {
      // A falsy value is stored as the empty string; among strings the only
      // falsy value is the empty string itself.
      var stored := if value == "" then "" else value;
      items := items[key := stored];
    }
  }
}
