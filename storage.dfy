/**
 * The browser's `localStorage`: a string-to-string store shared by every
 * page. The user session lives under `user_access_token` and `username`,
 * the admin session under `admin_access_token`; the two never touch each
 * other's keys.
 */
module Storage {
  import opened Wrappers

  const UserTokenKey := "user_access_token"
  const UsernameKey := "username"
  const AdminTokenKey := "admin_access_token"

  /** `getItem`: the stored string, or None (JavaScript's null) when the key is absent. */
  function Get(items: map<string, string>, key: string): Option<string> {
    if key in items then Some(items[key]) else None
  }

  /** JavaScript truthiness of `getItem(key)`: present and not the empty string. */
  predicate HasValue(items: map<string, string>, key: string) {
    key in items && items[key] != ""
  }

  /** `String(v)`, as `setItem` applies it to its value: an undefined field is stored as "undefined". */
  function Stored(v: Option<string>): string {
    match v
    case Some(s) => s
    case None => "undefined"
  }

  /** The navigation a mount-time check issues: `path` when `key` holds a truthy value, none otherwise. */
  function RedirectIfPresent(items: map<string, string>, key: string, path: string): (navigations: seq<string>)
    ensures navigations == [] || navigations == [path]
    ensures navigations == [path] <==> HasValue(items, key)
  {
    if HasValue(items, key) then [path] else []
  }

  /** The navigation a route guard issues: `path` when `key` holds no truthy value, none otherwise. */
  function RedirectIfMissing(items: map<string, string>, key: string, path: string): (navigations: seq<string>)
    ensures navigations == [] || navigations == [path]
    ensures navigations == [path] <==> !HasValue(items, key)
  {
    if HasValue(items, key) then [] else [path]
  }

  class LocalStorage {
    var items: map<string, string>

    constructor (initial: map<string, string>)
      ensures items == initial
    {
      items := initial;
    }

    method GetItem(key: string) returns (v: Option<string>)
      ensures v == Get(items, key)
      ensures v.Some? <==> key in items
    {
      v := if key in items then Some(items[key]) else None;
    }

    /** Overwrites any earlier value of `key`; every other key is untouched. */
    method SetItem(key: string, value: string)
      modifies this
      ensures items == old(items)[key := value]
      ensures Get(items, key) == Some(value)
      ensures forall k :: k != key ==> Get(items, k) == Get(old(items), k)
    {
      items := items[key := value];
    }

    /** Removing an absent key is a no-op. */
    method RemoveItem(key: string)
      modifies this
      ensures items == old(items) - {key}
      ensures Get(items, key) == None
      ensures forall k :: k != key ==> Get(items, k) == Get(old(items), k)
      ensures key !in old(items) ==> items == old(items)
    {
      items := items - {key};
    }
  }
}
