/** The browser's `localStorage` as the client uses it: a string-to-string
    map holding the session under two keys, `authToken` (the JWT) and
    `user` (the JSON text of the signed-in user). */
module BrowserStorage {
  import opened Common

  const AUTH_TOKEN: string := "authToken"
  const USER: string := "user"

  /** `localStorage`. `inBrowser` is `typeof window !== "undefined"`: false
      while a page is rendered on the server, where the library functions
      neither read nor write the store. */
  class Storage {
    const inBrowser: bool
    var items: map<string, string>

    constructor (inBrowser: bool, items: map<string, string>)
      ensures this.inBrowser == inBrowser && this.items == items
    {
      this.inBrowser := inBrowser;
      this.items := items;
    }

    /** `localStorage.setItem(key, value)`. */
    method SetItem(key: string, value: string)
      modifies this
      ensures items == old(items)[key := value]
    {
      items := items[key := value];
    }

    /** `localStorage.removeItem(key)`; removing an absent key does nothing. */
    method RemoveItem(key: string)
      modifies this
      ensures items == old(items) - {key}
    {
      items := items - {key};
    }
  }

  /** `localStorage.getItem(key)`: the stored text, or null. */
  function Item(items: map<string, string>, key: string): Option<string>
  {
    if key in items then Some(items[key]) else None
  }

  /** The stored token. */
  function TokenIn(items: map<string, string>): Option<string>
  {
    Item(items, AUTH_TOKEN)
  }

  /** The stored user: null when the key is absent or holds "", and when its
      text does not parse; `parse` stands for `JSON.parse`. */
  function UserIn<U>(items: map<string, string>, parse: string -> Option<U>): (r: Option<U>)
    ensures USER !in items || items[USER] == "" ==> r == None
    ensures r.Some? ==> USER in items && parse(items[USER]) == r
    ensures USER in items && items[USER] != "" ==> r == parse(items[USER])
  {
    match Item(items, USER)
    case None => None
    case Some(text) => if text == "" then None else parse(text)
  }

  /** The store after a successful sign-in wrote the token and the user text. */
  function StoreSession(items: map<string, string>, token: string, userText: string): (r: map<string, string>)
    ensures r.Keys == items.Keys + {AUTH_TOKEN, USER}
    ensures forall k :: k in items && k != AUTH_TOKEN && k != USER ==> r[k] == items[k]
  {
    items[AUTH_TOKEN := token][USER := userText]
  }

  /** The store after both session keys were removed. */
  function Cleared(items: map<string, string>): (r: map<string, string>)
    ensures r.Keys == items.Keys - {AUTH_TOKEN, USER}
    ensures forall k :: k in r ==> r[k] == items[k]
  {
    items - {AUTH_TOKEN, USER}
  }

  /** `JSON.stringify` and `JSON.parse` agree on users: the text of a user is
      never empty and parses back to that user. */
  ghost predicate JsonCodec<U(!new)>(parse: string -> Option<U>, stringify: U -> string)
  {
    forall u :: stringify(u) != "" && parse(stringify(u)) == Some(u)
  }

  /** What a sign-in stored reads back: the same token and the same user. */
  lemma SessionReadsBack<U>(items: map<string, string>, token: string, u: U,
                            parse: string -> Option<U>, stringify: U -> string)
    requires stringify(u) != "" && parse(stringify(u)) == Some(u)
    ensures TokenIn(StoreSession(items, token, stringify(u))) == Some(token)
    ensures UserIn(StoreSession(items, token, stringify(u)), parse) == Some(u)
  {
    var r := StoreSession(items, token, stringify(u));
    assert AUTH_TOKEN != USER;
    assert r[AUTH_TOKEN] == token && r[USER] == stringify(u);
  }

  /** After the session keys are removed neither a token nor a user reads
      back, and removing them again changes nothing. */
  lemma ClearedEmpty<U>(items: map<string, string>, parse: string -> Option<U>)
    ensures TokenIn(Cleared(items)) == None
    ensures UserIn(Cleared(items), parse) == None
    ensures Cleared(Cleared(items)) == Cleared(items)
  {
  }
}
