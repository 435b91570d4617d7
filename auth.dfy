// frontend/src/utils/auth.ts: the session token kept in the browser's
// `localStorage` under one fixed key, and the `Authorization` header built
// from it. The storage is a map field that the setters reassign.

module Auth {
  import opened Common

  const TokenKey: string := "talos_auth_token"
  const AuthorizationHeader: string := "Authorization"
  const BearerPrefix: string := "Bearer "

  /** `localStorage.getItem(TOKEN_KEY)` on a storage snapshot. */
  function TokenIn(storage: map<string, string>): (r: Option<string>)
    ensures r.Some? <==> TokenKey in storage
    ensures r.Some? ==> r.value == storage[TokenKey]
  {
    if TokenKey in storage then Some(storage[TokenKey]) else None
  }

  /** `!!getToken()`: a missing token and an empty one both count as logged out. */
  function LoggedInWith(storage: map<string, string>): (b: bool)
  {
    match TokenIn(storage)
    case Some(t) => t != ""
    case None => false
  }

  /** `getAuthHeaders()`: one bearer header for a non-empty token, none otherwise. */
  function HeadersWith(storage: map<string, string>): (h: map<string, string>)
  {
    match TokenIn(storage)
    case Some(t) => if t != "" then map[AuthorizationHeader := BearerPrefix + t] else map[]
    case None => map[]
  }

  /**
   * The header map is empty exactly when the user is logged out; otherwise
   * it holds the single `Authorization` entry carrying the token.
   */
  lemma HeadersIffLoggedIn(storage: map<string, string>)
    ensures HeadersWith(storage) == map[] <==> !LoggedInWith(storage)
    ensures LoggedInWith(storage) ==>
      HeadersWith(storage).Keys == {AuthorizationHeader}
      && HeadersWith(storage)[AuthorizationHeader] == BearerPrefix + storage[TokenKey]
  {
    if LoggedInWith(storage) {
      assert AuthorizationHeader in HeadersWith(storage);
    }
  }

  /** Only the token's own key decides the login state: other entries are irrelevant. */
  lemma OtherKeysIrrelevant(storage: map<string, string>, key: string, value: string)
    requires key != TokenKey
    ensures TokenIn(storage[key := value]) == TokenIn(storage)
    ensures HeadersWith(storage[key := value]) == HeadersWith(storage)
  {
  }

  /** The page's `localStorage`. */
  class TokenStore {
    var storage: map<string, string>

    constructor (storage: map<string, string>)
      ensures this.storage == storage
    {
      this.storage := storage;
    }

    /** `getToken`. */
    function GetToken(): (r: Option<string>)
      reads this
      ensures r.Some? <==> TokenKey in storage
    {
      TokenIn(storage)
    }

    /** `isLoggedIn`. */
    function IsLoggedIn(): (b: bool)
      reads this
      ensures b <==> TokenKey in storage && storage[TokenKey] != ""
    {
      LoggedInWith(storage)
    }

    /** `getAuthHeaders`. */
    function GetAuthHeaders(): (h: map<string, string>)
      reads this
      ensures h == map[] <==> !IsLoggedIn()
    {
      HeadersIffLoggedIn(storage);
      HeadersWith(storage)
    }

    /** `setToken`: the token is stored under its key and every other entry stays. */
    method SetToken(token: string)
      modifies this
      ensures storage == old(storage)[TokenKey := token]
      ensures GetToken() == Some(token)
      ensures IsLoggedIn() <==> token != ""
    {
      storage := storage[TokenKey := token];
    }

    /** `clearToken`: the key is removed; afterwards the user is logged out and no header is sent. */
    method ClearToken()
      modifies this
      ensures storage == old(storage) - {TokenKey}
      ensures GetToken() == None && !IsLoggedIn() && GetAuthHeaders() == map[]
    {
      storage := storage - {TokenKey};
    }
  }

  /** Storing a token and reading it back gives that token, whatever was stored before. */
  lemma SetThenGet(storage: map<string, string>, token: string)
    ensures TokenIn(storage[TokenKey := token]) == Some(token)
    ensures token != "" ==> HeadersWith(storage[TokenKey := token]) == map[AuthorizationHeader := BearerPrefix + token]
  {
  }

  /** Clearing forgets the token, and setting after clearing is the same as setting. */
  lemma ClearThenSet(storage: map<string, string>, token: string)
    ensures TokenIn(storage - {TokenKey}) == None && HeadersWith(storage - {TokenKey}) == map[]
    ensures (storage - {TokenKey})[TokenKey := token] == storage[TokenKey := token]
  {
  }
}
