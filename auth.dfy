/** The front end's token helpers: fetching the id or access token (guest
    mode first, then a forced session refresh, then a plain session fetch
    only if the refresh raised), the authentication test and logout. The
    Amplify session fetches are inputs; localStorage is a `Storage` object. */
module Auth {
  import opened Common
  import opened Storage

  /** One `fetchAuthSession` call: the session's token of the kind asked
      for (`tokens?.idToken?.toString()` or the access token), possibly
      absent, or the error it raised. */
  datatype SessionFetch = Fetched(token: Option<string>) | FetchThrew(message: string)

  /** What a token helper resolves to, or the error it rejects with. */
  datatype TokenResult = Token(value: string) | Thrown(message: string)

  datatype TokenKind = IdToken | AccessToken

  const GuestToken := "guest-demo-token"
  const NoToken := "No valid authentication token found. Please log in again."

  function KeyOf(kind: TokenKind): string {
    if kind == IdToken then "idToken" else "accessToken"
  }

  predicate GotToken(f: SessionFetch) {
    f.Fetched? && f.token.Some? && f.token.value != ""
  }

  /** The result of the two fetches: the forced refresh's token if it has
      one; if the refresh raised, the plain fetch's token, or the plain
      fetch's own error; otherwise the "no token" error. */
  function Obtain(forced: SessionFetch, plain: SessionFetch): (r: TokenResult)
    ensures r.Token? ==> r.value != ""
  {
    if GotToken(forced) then Token(forced.token.value)
    else if forced.Fetched? then Thrown(NoToken)
    else if GotToken(plain) then Token(plain.token.value)
    else if plain.Fetched? then Thrown(NoToken)
    else Thrown(plain.message)
  }

  /** The plain fetch matters only when the forced refresh raised: a
      refresh that answers, with or without a token, decides the result on
      its own. A token comes from the refresh when it has one, and from the
      plain fetch only after the refresh raised. */
  lemma ObtainSpec(forced: SessionFetch, plain: SessionFetch, plain2: SessionFetch)
    ensures forced.Fetched? ==> Obtain(forced, plain) == Obtain(forced, plain2)
    ensures Obtain(forced, plain).Token? <==> GotToken(forced) || (forced.FetchThrew? && GotToken(plain))
    ensures GotToken(forced) ==> Obtain(forced, plain) == Token(forced.token.value)
    ensures forced.Fetched? && !GotToken(forced) ==> Obtain(forced, plain) == Thrown(NoToken)
    ensures forced.FetchThrew? && plain.FetchThrew? ==> Obtain(forced, plain) == Thrown(plain.message)
  {
  }

  /** `getIdToken` and `getAccessToken`, which differ only in the token kind
      and its storage key. In guest mode the guest token is returned and
      Amplify is not called; otherwise the result is `Obtain`'s, a token
      obtained is stored under its key, and `calls` counts the session
      fetches made (the plain one only after the refresh raised). */
  method FetchToken(storage: LocalStorage, kind: TokenKind, forced: SessionFetch, plain: SessionFetch)
    returns (r: TokenResult, calls: nat)
    modifies storage
    ensures old(storage.Get("guestMode")) == Some("true") ==>
      r == Token(GuestToken) && calls == 0 && storage.items == old(storage.items)
    ensures old(storage.Get("guestMode")) != Some("true") ==>
      r == Obtain(forced, plain) && calls == (if forced.FetchThrew? then 2 else 1)
      && storage.items == (if r.Token? then old(storage.items)[KeyOf(kind) := r.value] else old(storage.items))
  {
    var guestMode := storage.Get("guestMode");
    if guestMode == Some("true") {
      return Token(GuestToken), 0;
    }
    calls := 1;
    if forced.Fetched? {
      if GotToken(forced) {
        storage.SetItem(KeyOf(kind), forced.token.value);
        return Token(forced.token.value), calls;
      }
    } else {
      calls := 2;
      if plain.FetchThrew? {
        return Thrown(plain.message), calls;
      }
      if GotToken(plain) {
        storage.SetItem(KeyOf(kind), plain.token.value);
        return Token(plain.token.value), calls;
      }
    }
    r := Thrown(NoToken);
  }

  method GetIdToken(storage: LocalStorage, forced: SessionFetch, plain: SessionFetch) returns (r: TokenResult)
    modifies storage
    ensures old(storage.Get("guestMode")) == Some("true") ==>
      r == Token(GuestToken) && storage.items == old(storage.items)
    ensures old(storage.Get("guestMode")) != Some("true") ==>
      r == Obtain(forced, plain)
      && storage.items == (if r.Token? then old(storage.items)["idToken" := r.value] else old(storage.items))
  {
    var calls;
    r, calls := FetchToken(storage, IdToken, forced, plain);
  }

  method GetAccessToken(storage: LocalStorage, forced: SessionFetch, plain: SessionFetch) returns (r: TokenResult)
    modifies storage
    ensures old(storage.Get("guestMode")) == Some("true") ==>
      r == Token(GuestToken) && storage.items == old(storage.items)
    ensures old(storage.Get("guestMode")) != Some("true") ==>
      r == Obtain(forced, plain)
      && storage.items == (if r.Token? then old(storage.items)["accessToken" := r.value] else old(storage.items))
  {
    var calls;
    r, calls := FetchToken(storage, AccessToken, forced, plain);
  }

  /** `isAuthenticated` over the stored items: guest mode, or a non-empty
      id token. */
  predicate Authenticated(items: map<string, string>) {
    ("guestMode" in items && items["guestMode"] == "true") || ("idToken" in items && items["idToken"] != "")
  }

  function IsAuthenticated(storage: LocalStorage): (b: bool)
    reads storage
    ensures b <==> storage.Get("guestMode") == Some("true") || (storage.Get("idToken").Some? && storage.Get("idToken").value != "")
  {
    Authenticated(storage.items)
  }

  const SessionKeys: set<string> := {"accessToken", "idToken", "guestMode"}

  /** `logout`: whether or not `signOut` raised, the three session keys are
      removed and nothing else. */
  method Logout(storage: LocalStorage, signOutThrew: bool)
    modifies storage
    ensures storage.items == old(storage.items) - SessionKeys
  {
    storage.RemoveItem("accessToken");
    storage.RemoveItem("idToken");
    storage.RemoveItem("guestMode");
  }

  /** After logout nobody is authenticated, and every other stored item is
      kept. */
  lemma LogoutSpec(items: map<string, string>)
    ensures !Authenticated(items - SessionKeys)
    ensures forall k :: k in items && k !in SessionKeys ==> k in items - SessionKeys && (items - SessionKeys)[k] == items[k]
  {
  }

  /** Storing a fetched id token makes the user authenticated; storing an
      access token alone does not. */
  lemma StoredIdTokenAuthenticates(items: map<string, string>, t: string)
    requires t != ""
    ensures Authenticated(items["idToken" := t])
    ensures !Authenticated(items) ==> !Authenticated(items["accessToken" := t])
  {
    if !Authenticated(items) {
      assert "guestMode" in items ==> items["accessToken" := t]["guestMode"] == items["guestMode"];
      assert "idToken" in items ==> items["accessToken" := t]["idToken"] == items["idToken"];
    }
  }
}
