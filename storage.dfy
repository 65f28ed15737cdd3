/** The browser's `localStorage`, where the session lives: the key `token`
    holds the raw access token and the key `user` the JSON text of the
    signed-in user. */
module Storage {
  import opened Outcomes

  type Items = map<string, string>

  const TokenKey := "token"
  const UserKey := "user"

  /** The user record the backend returns at login and the pages read back. */
  datatype User = User(id: string, username: string, email: string, role: string)

  /** `JSON.stringify` and `JSON.parse` on a user record. The browser's JSON
      implementation is not part of this model, so it is a parameter;
      `decode` answers `None` where `JSON.parse` throws. */
  datatype UserCodec = UserCodec(encode: User -> string, decode: string -> Option<User>)

  /** What is known of the browser's JSON: parsing the text of a record gives
      the record back, and that text is never empty (it is at least `{}`). */
  ghost predicate Faithful(codec: UserCodec)
  {
    forall u :: codec.decode(codec.encode(u)) == Some(u) && codec.encode(u) != ""
  }

  /** `localStorage.getItem(key)`: `null` for a missing key. */
  function Get(items: Items, key: string): (v: Option<string>)
    ensures v.Some? <==> key in items
    ensures v.Some? ==> v.value == items[key]
  {
    if key in items then Some(items[key]) else None
  }

  /** The session is consistent when the two keys are present or absent
      together. */
  predicate SessionConsistent(items: Items)
  {
    TokenKey in items <==> UserKey in items
  }

  class LocalStorage {
    var items: Items

    constructor (initial: Items)
      ensures items == initial
    {
      items := initial;
    }

    /** `localStorage.setItem(key, value)` */
    method SetItem(key: string, value: string)
      modifies this
      ensures items == old(items)[key := value]
    {
      items := items[key := value];
    }

    /** `localStorage.removeItem(key)`; removing a missing key does nothing. */
    method RemoveItem(key: string)
      modifies this
      ensures items == old(items) - {key}
    {
      items := items - {key};
    }
  }
}
