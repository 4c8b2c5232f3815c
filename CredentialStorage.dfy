/**
 * `credentialStorage`: the last manual login's email and password, kept as JSON
 * under one SecureStore key. No call ever throws; backend failures are swallowed.
 */
module CredentialStorage {
  import opened Common
  import opened Js
  import opened Storage

  const CREDENTIAL_KEY: string := "office_manager_credentials"

  /** `UsersLoginPostRequest`: the `{ email, password }` pair. */
  datatype Credentials = Credentials(email: string, password: string) {
    /** The pair as a JavaScript object, which is also what `JSON.stringify` writes. */
    function ToJs(): JsValue {
      Obj(map["email" := Str(email), "password" := Str(password)])
    }
  }

  /** Both fields are present and, as text, non-empty. */
  predicate HasCredentialFields(v: JsValue) {
    && v.Obj?
    && !Prop(v, "email").Undefined? && !Prop(v, "password").Undefined?
    && TextOf(Prop(v, "email")) != "" && TextOf(Prop(v, "password")) != ""
  }

  /** `sanitizeCredentials`: a usable pair, or `null`. */
  function Sanitize(v: JsValue): (r: Option<Credentials>)
    ensures !v.Obj? ==> r == None
    ensures r.Some? <==> HasCredentialFields(v)
    ensures r.Some? ==> r.value == Credentials(TextOf(Prop(v, "email")), TextOf(Prop(v, "password")))
    ensures r.Some? ==> r.value.email != "" && r.value.password != ""
  {
    if !Truthy(v) then None
    else
      var emailValue := Prop(v, "email");
      var passwordValue := Prop(v, "password");
      if emailValue.Undefined? || passwordValue.Undefined? then None
      else
        var email := TextOf(emailValue);
        var password := TextOf(passwordValue);
        if email == "" || password == "" then None
        else Some(Credentials(email, password))
  }

  /** A pair of strings survives sanitising exactly when neither string is empty. */
  lemma SanitizePair(c: Credentials)
    ensures Sanitize(c.ToJs()) == if c.email != "" && c.password != "" then Some(c) else None
  {
    assert Prop(c.ToJs(), "email") == Str(c.email);
    assert Prop(c.ToJs(), "password") == Str(c.password);
  }

  /** Sanitising is idempotent on what it lets through. */
  lemma SanitizeIdempotent(v: JsValue)
    ensures Sanitize(v).Some? ==> Sanitize(Sanitize(v).value.ToJs()) == Sanitize(v)
  {
    if Sanitize(v).Some? {
      SanitizePair(Sanitize(v).value);
    }
  }

  /** What `get()` yields while the backend is in state `b`. */
  function GetResult(b: KvState<StoredText>): (r: Option<Credentials>)
    ensures b.failure.Some? || CREDENTIAL_KEY !in b.items ==> r == None
    ensures b.failure.None? && CREDENTIAL_KEY in b.items ==>
      r == match b.items[CREDENTIAL_KEY]
           case Json(v) => Sanitize(v)
           case Unparseable(_) => None
  {
    if b.failure.Some? || CREDENTIAL_KEY !in b.items then None
    else match b.items[CREDENTIAL_KEY]
      case Json(v) => Sanitize(v)
      case Unparseable(_) => None
  }

  /**
   * The backend after `get()`: a stored value that parses but does not sanitise is
   * deleted; unparseable text stays, because the parse error skips the delete.
   */
  function AfterGet(b: KvState<StoredText>): (r: KvState<StoredText>)
    ensures r.failure == b.failure
    ensures GetResult(r) == GetResult(b)
    ensures r.items - {CREDENTIAL_KEY} == b.items - {CREDENTIAL_KEY}
    ensures CREDENTIAL_KEY in r.items ==> r.items == b.items
    ensures (r != b) <==> b.failure.None? && CREDENTIAL_KEY in b.items
                          && b.items[CREDENTIAL_KEY].Json? && Sanitize(b.items[CREDENTIAL_KEY].value).None?
  {
    if b.failure.None? && CREDENTIAL_KEY in b.items && b.items[CREDENTIAL_KEY].Json?
       && Sanitize(b.items[CREDENTIAL_KEY].value).None?
    then
      assert CREDENTIAL_KEY in b.items.Keys && CREDENTIAL_KEY !in (b.items - {CREDENTIAL_KEY}).Keys;
      KvState(b.items - {CREDENTIAL_KEY}, b.failure)
    else b
  }

  /** The backend after `set(c)`: a pair that fails sanitising deletes the entry. */
  function AfterSet(b: KvState<StoredText>, c: Credentials): (r: KvState<StoredText>)
    ensures r.failure == b.failure
    ensures b.failure.None? ==> GetResult(r) == Sanitize(c.ToJs())
    ensures b.failure.None? && Sanitize(c.ToJs()).None? ==> CREDENTIAL_KEY !in r.items
    ensures b.failure.Some? ==> r == b
    ensures r.items - {CREDENTIAL_KEY} == b.items - {CREDENTIAL_KEY}
  {
    if b.failure.Some? then b
    else match Sanitize(c.ToJs())
      case None => KvState(b.items - {CREDENTIAL_KEY}, b.failure)
      case Some(sanitized) =>
        SanitizeIdempotent(c.ToJs());
        KvState(b.items[CREDENTIAL_KEY := Json(sanitized.ToJs())], b.failure)
  }

  /** The backend after `remove()`. */
  function AfterRemove(b: KvState<StoredText>): (r: KvState<StoredText>)
    ensures r.failure == b.failure
    ensures GetResult(r) == None
    ensures b.failure.None? ==> CREDENTIAL_KEY !in r.items
    ensures b.failure.Some? ==> r == b
    ensures r.items - {CREDENTIAL_KEY} == b.items - {CREDENTIAL_KEY}
  {
    if b.failure.Some? then b else KvState(b.items - {CREDENTIAL_KEY}, b.failure)
  }

  /** `credentialStorage.get()`. */
  method Get(store: SecureStore) returns (value: Option<Credentials>)
    modifies store
    ensures value == GetResult(old(store.State()))
    ensures store.State() == AfterGet(old(store.State()))
  {
    var read := store.GetItem(CREDENTIAL_KEY);
    if read.Threw? {
      return None;
    }
    var raw := read.value;
    if raw.None? {
      return None;
    }
    match raw.value
    case Unparseable(_) =>
      value := None;
    case Json(parsed) =>
      var sanitized := Sanitize(parsed);
      if sanitized.None? {
        var _ := store.DeleteItem(CREDENTIAL_KEY);
        value := None;
      } else {
        value := sanitized;
      }
  }

  /** `credentialStorage.set(credentials)`. */
  method Set(store: SecureStore, credentials: Credentials)
    modifies store
    ensures store.State() == AfterSet(old(store.State()), credentials)
  {
    var sanitized := Sanitize(credentials.ToJs());
    if sanitized.None? {
      var _ := store.DeleteItem(CREDENTIAL_KEY);
      return;
    }
    var _ := store.SetItem(CREDENTIAL_KEY, Json(sanitized.value.ToJs()));
  }

  /** `credentialStorage.remove()`. */
  method Remove(store: SecureStore)
    modifies store
    ensures store.State() == AfterRemove(old(store.State()))
  {
    var _ := store.DeleteItem(CREDENTIAL_KEY);
  }

  /** A usable pair written and read back comes back unchanged, while the backend works. */
  method SetThenGet(store: SecureStore, credentials: Credentials) returns (read: Option<Credentials>)
    requires store.failure.None?
    requires credentials.email != "" && credentials.password != ""
    modifies store
    ensures read == Some(credentials)
  {
    Set(store, credentials);
    SanitizePair(credentials);
    read := Get(store);
  }
}
