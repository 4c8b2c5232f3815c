/**
 * `tokenStorage`: the session token kept under one AsyncStorage key. No call
 * ever throws; backend failures are swallowed (a failed read reads as `null`).
 */
module TokenStorage {
  import opened Common
  import opened Storage

  const TOKEN_KEY: string := "office-manager/token"

  /** What `get()` yields while the backend is in state `b`. */
  function GetResult(b: KvState<string>): (r: Option<string>)
    ensures b.failure.Some? ==> r == None
    ensures b.failure.None? ==> r == if TOKEN_KEY in b.items then Some(b.items[TOKEN_KEY]) else None
  {
    if b.failure.None? && TOKEN_KEY in b.items then Some(b.items[TOKEN_KEY]) else None
  }

  /** The backend after `set(token)`; `String(token ?? "")` is what gets written. */
  function AfterSet(b: KvState<string>, token: Option<string>): (r: KvState<string>)
    ensures r.failure == b.failure
    ensures b.failure.None? ==> GetResult(r) == Some(token.GetOr(""))
    ensures b.failure.Some? ==> r == b
    ensures r.items - {TOKEN_KEY} == b.items - {TOKEN_KEY}
  {
    if b.failure.Some? then b else KvState(b.items[TOKEN_KEY := token.GetOr("")], b.failure)
  }

  /** The backend after `remove()`. */
  function AfterRemove(b: KvState<string>): (r: KvState<string>)
    ensures r.failure == b.failure
    ensures GetResult(r) == None
    ensures b.failure.None? ==> TOKEN_KEY !in r.items
    ensures b.failure.Some? ==> r == b
    ensures r.items - {TOKEN_KEY} == b.items - {TOKEN_KEY}
  {
    if b.failure.Some? then b else KvState(b.items - {TOKEN_KEY}, b.failure)
  }

  /** `tokenStorage.get()`. */
  method Get(store: AsyncStorage) returns (value: Option<string>)
    ensures value == GetResult(store.State())
  {
    var read := store.GetItem(TOKEN_KEY);
    match read
    case Threw(_) => value := None;
    case Done(v) => value := v;
  }

  /** `tokenStorage.set(token)`. */
  method Set(store: AsyncStorage, token: Option<string>)
    modifies store
    ensures store.State() == AfterSet(old(store.State()), token)
  {
    var _ := store.SetItem(TOKEN_KEY, token.GetOr(""));
  }

  /** `tokenStorage.remove()`. */
  method Remove(store: AsyncStorage)
    modifies store
    ensures store.State() == AfterRemove(old(store.State()))
  {
    var _ := store.RemoveItem(TOKEN_KEY);
  }

  /** A token written and read back comes back unchanged, while the backend works. */
  method SetThenGet(store: AsyncStorage, token: string) returns (read: Option<string>)
    requires store.failure.None?
    modifies store
    ensures read == Some(token)
  {
    Set(store, Some(token));
    read := Get(store);
  }

  /** After `remove()`, `get()` reads `null`, whether or not the backend works. */
  method RemoveThenGet(store: AsyncStorage) returns (read: Option<string>)
    modifies store
    ensures read == None
  {
    Remove(store);
    read := Get(store);
  }
}
