/** `tokenStorage` of lib/api.ts: the one bearer credential, kept in the
    browser's localStorage under the key "accessToken". */
module Storage {
  import opened Wrappers

  const TokenKey := "accessToken"

  /** What the store looks like from this origin. `hasWindow` is false while
      the page is rendered outside a browser; then nothing is stored. */
  datatype Store = Store(hasWindow: bool, items: map<string, string>)

  /** `tokenStorage.get()`; `None` stands for `null`. */
  function Token(s: Store): (t: Option<string>)
    ensures !s.hasWindow ==> t == None
    ensures t.Some? <==> s.hasWindow && TokenKey in s.items
    ensures t.Some? ==> t.value == s.items[TokenKey]
  {
    if s.hasWindow && TokenKey in s.items then Some(s.items[TokenKey]) else None
  }

  /** `tokenStorage.set(token)`. */
  function Put(s: Store, token: string): (r: Store)
    ensures r.hasWindow == s.hasWindow
    ensures s.hasWindow ==> Token(r) == Some(token)
    ensures !s.hasWindow ==> r == s
    ensures r.items - {TokenKey} == s.items - {TokenKey}
  {
    if s.hasWindow then s.(items := s.items[TokenKey := token]) else s
  }

  /** `tokenStorage.remove()`. */
  function Delete(s: Store): (r: Store)
    ensures r.hasWindow == s.hasWindow
    ensures Token(r) == None
    ensures !s.hasWindow ==> r == s
    ensures r.items - {TokenKey} == s.items - {TokenKey}
  {
    if s.hasWindow then s.(items := s.items - {TokenKey}) else s
  }

  /** Removing twice is removing once, and a later write replaces an earlier
      one: the store holds one credential at most. */
  lemma DeleteIdempotent(s: Store)
    ensures Delete(Delete(s)) == Delete(s)
  {
  }

  lemma LastPutWins(s: Store, a: string, b: string)
    ensures Put(Put(s, a), b) == Put(s, b)
    ensures Delete(Put(s, a)) == Delete(s)
  {
  }

  /** The store object itself: `set` and `remove` change it in place. */
  class TokenStorage {
    const hasWindow: bool
    var items: map<string, string>

    constructor (hasWindow: bool, items: map<string, string>)
      ensures Model() == Store(hasWindow, items)
    {
      this.hasWindow := hasWindow;
      this.items := items;
    }

    function Model(): Store
      reads this
    {
      Store(hasWindow, items)
    }

    method Get() returns (t: Option<string>)
      ensures t == Token(Model())
    {
      if hasWindow && TokenKey in items {
        t := Some(items[TokenKey]);
      } else {
        t := None;
      }
    }

    method Set(token: string)
      modifies this
      ensures Model() == Put(old(Model()), token)
    {
      if hasWindow {
        items := items[TokenKey := token];
      }
    }

    method Remove()
      modifies this
      ensures Model() == Delete(old(Model()))
    {
      if hasWindow {
        items := items - {TokenKey};
      }
    }
  }
}
