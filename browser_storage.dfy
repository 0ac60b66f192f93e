/**
 * The browser's `localStorage`: a durable map from string keys to string
 * values shared by every part of the client. The session token lives under
 * `TokenKey`.
 */
module BrowserStorage {
  import opened Wrappers

  const TokenKey: string := "token"
  const UserKey: string := "user"

  /** `getItem` on a snapshot of the store: `null` (None) for a missing key. */
  function GetItem(items: map<string, string>, key: string): (v: Option<string>)
    ensures v.Some? <==> key in items
    ensures v.Some? ==> v.value == items[key]
  {
    if key in items then Some(items[key]) else None
  }

  class LocalStorage {
    var items: map<string, string>

    constructor (initial: map<string, string>)
      ensures items == initial
    {
      items := initial;
    }

    /** `localStorage.getItem(key)`. */
    function Get(key: string): Option<string>
      reads this
    {
      GetItem(items, key)
    }

    /** `localStorage.setItem(key, value)`. */
    method SetItem(key: string, value: string)
      modifies this
      ensures items == old(items)[key := value]
    {
      items := items[key := value];
    }

    /** `localStorage.removeItem(key)`: a missing key is not an error. */
    method RemoveItem(key: string)
      modifies this
      ensures items == old(items) - {key}
    {
      items := items - {key};
    }
  }
}
