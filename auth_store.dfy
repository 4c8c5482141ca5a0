/**
 * The browser's authentication store: the signed-in user and token, mirrored into
 * local storage under the key `token`.
 */
module AuthStore {
  import opened Wrappers
  import opened BrowserStorage
  import Api

  /** The storage key this store writes (the request interceptor reads `Api.TokenKey` instead). */
  const StoreTokenKey := "token"

  datatype User = User(id: string, email: string, name: string, role: string)

  /** Storage after `setUser(_, token)`: only the `token` key changes. */
  function StoredAfterSetUser(items: map<string, string>, token: string): (r: map<string, string>)
    ensures StoreTokenKey in r && r[StoreTokenKey] == token
    ensures forall k :: k != StoreTokenKey ==> (k in r <==> k in items) && (k in r ==> r[k] == items[k])
  {
    items[StoreTokenKey := token]
  }

  /** Storage after `logout()`: only the `token` key goes. */
  function StoredAfterLogout(items: map<string, string>): (r: map<string, string>)
    ensures StoreTokenKey !in r
    ensures forall k :: k != StoreTokenKey ==> (k in r <==> k in items) && (k in r ==> r[k] == items[k])
  {
    items - {StoreTokenKey}
  }

  /**
   * As written, logging out leaves the interceptor's credential in place: whenever a
   * token was stored under `access_token` (which signing in does), the next request
   * after `logout()` still carries `Authorization: Bearer <that token>`.
   */
  lemma LogoutKeepsBearer(items: map<string, string>, headers: map<string, string>)
    requires Api.HasToken(items)
    ensures Api.HasToken(StoredAfterLogout(items))
    ensures Api.WithBearer(StoredAfterLogout(items), headers)[Api.AuthorizationHeader] ==
      "Bearer " + items[Api.TokenKey]
  {
    assert Api.TokenKey != StoreTokenKey;
  }

  /** Concrete instance: sign-in stores `t1` under both keys; after logout requests still carry it. */
  lemma LogoutKeepsBearerExample()
    ensures var signedIn := map[Api.TokenKey := "t1", Api.UserKey := "u", StoreTokenKey := "t1"];
      Api.WithBearer(StoredAfterLogout(signedIn), map[]) == map[Api.AuthorizationHeader := "Bearer t1"]
  {
    var signedIn := map[Api.TokenKey := "t1", Api.UserKey := "u", StoreTokenKey := "t1"];
    var after := StoredAfterLogout(signedIn);
    assert after[Api.TokenKey] == "t1";
    assert Api.HasToken(after);
    assert "Bearer " + "t1" == "Bearer t1";
    assert Api.WithBearer(after, map[]) == map[][Api.AuthorizationHeader := "Bearer t1"];
  }

  /** The logout the interceptor's key implies: remove both token keys and the user record. */
  function StoredAfterFullLogout(items: map<string, string>): (r: map<string, string>)
    ensures !Api.HasToken(r) && StoreTokenKey !in r && Api.UserKey !in r
    ensures forall k :: k in r ==> k in items && r[k] == items[k]
  {
    items - {StoreTokenKey, Api.TokenKey, Api.UserKey}
  }

  /** After the full logout no request carries a bearer token it did not already have. */
  lemma FullLogoutRevokesBearer(items: map<string, string>, headers: map<string, string>)
    ensures Api.WithBearer(StoredAfterFullLogout(items), headers) == headers
  {
  }

  class Auth {
    var user: Option<User>
    var token: Option<string>
    const storage: LocalStorage

    /** Store creation: no user, and the token read back from storage key `token`. */
    constructor (storage: LocalStorage)
      ensures this.storage == storage
      ensures user == None && token == storage.GetItem(StoreTokenKey)
    {
      this.storage := storage;
      user := None;
      token := storage.GetItem(StoreTokenKey);
    }

    method SetUser(u: User, t: string)
      modifies this, storage
      ensures user == Some(u) && token == Some(t)
      ensures storage.items == StoredAfterSetUser(old(storage.items), t)
    {
      storage.SetItem(StoreTokenKey, t);
      user, token := Some(u), Some(t);
    }

    method Logout()
      modifies this, storage
      ensures user == None && token == None
      ensures storage.items == StoredAfterLogout(old(storage.items))
    {
      storage.RemoveItem(StoreTokenKey);
      user, token := None, None;
    }

    /** The corrected logout: clears every credential key, so the interceptor sends no token. */
    method LogoutEverywhere()
      modifies this, storage
      ensures user == None && token == None
      ensures storage.items == StoredAfterFullLogout(old(storage.items))
    {
      storage.RemoveItem(StoreTokenKey);
      storage.RemoveItem(Api.TokenKey);
      storage.RemoveItem(Api.UserKey);
      user, token := None, None;
    }
  }
}
