/**
 * The client session store: the signed-in user, the access token, a
 * loading flag, and the two tokens kept in local storage. Network calls
 * are given as their outcomes.
 */
module AuthContext {
  import opened Wrappers
  import Users

  const AccessKey: string := "accessToken"
  const RefreshKey: string := "refreshToken"

  /**
   * The user record the client holds. `hasShop`, `isSuperuser` and
   * `subscriptionStatus` are `None` when the server's payload leaves them
   * out; the profile payload carries `has_shop` only.
   */
  datatype ClientUser = ClientUser(
    id: string,
    username: string,
    userType: Users.UserType,
    hasShop: Option<bool>,
    isSuperuser: Option<bool>,
    subscriptionStatus: Option<string>)

  /** JavaScript truthiness of an optional flag. */
  predicate Flag(b: Option<bool>)
  {
    b == Some(true)
  }

  /** A stored value is usable when present and non-empty. */
  predicate Stored(storage: map<string, string>, k: string)
  {
    k in storage && storage[k] != ""
  }

  /** The flags the context derives from the user. */
  datatype Flags = Flags(isAuthenticated: bool, isProvider: bool, isRenter: bool, hasShop: bool)

  function FlagsOf(user: Option<ClientUser>): (f: Flags)
    ensures f.isAuthenticated <==> user.Some?
    ensures f.isProvider <==> user.Some? && user.value.userType == Users.Provider
    ensures f.isRenter <==> user.Some? && user.value.userType == Users.Renter
    ensures f.hasShop <==> user.Some? && Flag(user.value.hasShop)
    ensures !(f.isProvider && f.isRenter)
    ensures f.isAuthenticated <==> f.isProvider || f.isRenter
  {
    Flags(user.Some?,
          user.Some? && user.value.userType == Users.Provider,
          user.Some? && user.value.userType == Users.Renter,
          user.Some? && Flag(user.value.hasShop))
  }

  class AuthProvider {
    var user: Option<ClientUser>
    var accessToken: Option<string>
    var loading: bool
    var storage: map<string, string>

    /** Mounting: no user, no token, loading, over the browser's current storage. */
    constructor (stored: map<string, string>)
      ensures user.None? && accessToken.None? && loading && storage == stored
    {
      user := None;
      accessToken := None;
      loading := true;
      storage := stored;
    }

    /** A user is only ever held together with the token it was fetched with. */
    predicate Consistent()
      reads this
    {
      user.Some? ==> accessToken.Some?
    }

    /** Children are rendered only once loading is over. */
    predicate RendersChildren()
      reads this
    {
      !loading
    }

    /** `logout`: both storage keys removed, user and token cleared, whatever the state was. */
    method Logout()
      modifies this
      ensures storage == old(storage) - {AccessKey, RefreshKey}
      ensures user.None? && accessToken.None? && loading == old(loading)
      ensures Consistent()
    {
      storage := storage - {AccessKey};
      storage := storage - {RefreshKey};
      accessToken := None;
      user := None;
    }

    /**
     * The mount effect. `fetched` is the outcome of fetching the user with
     * the stored access token (`None`: it failed), `refreshed` the new
     * access token from the refresh call (`None`: it failed) and
     * `refetched` the user fetched with that new token. `refreshCalls`
     * counts the refresh requests issued.
     */
    method Init(fetched: Option<ClientUser>, refreshed: Option<string>, refetched: Option<ClientUser>)
      returns (refreshCalls: nat)
      requires user.None? && accessToken.None?
      modifies this
      ensures !loading && refreshCalls <= 1 && Consistent()
      ensures !Stored(old(storage), AccessKey) ==>
        user.None? && accessToken.None? && storage == old(storage) && refreshCalls == 0
      ensures Stored(old(storage), AccessKey) && fetched.Some? ==>
        && user == fetched && accessToken == Some(old(storage)[AccessKey])
        && storage == old(storage) && refreshCalls == 0
      ensures Stored(old(storage), AccessKey) && fetched.None? && !Stored(old(storage), RefreshKey) ==>
        user.None? && accessToken.None? && storage == old(storage) - {AccessKey, RefreshKey} && refreshCalls == 0
      ensures Stored(old(storage), AccessKey) && fetched.None? && Stored(old(storage), RefreshKey) ==>
        && refreshCalls == 1
        && (refreshed.Some? && refetched.Some? ==>
              && user == refetched && accessToken == refreshed
              && storage == old(storage)[AccessKey := refreshed.value])
        && (refreshed.None? || refetched.None? ==>
              && user.None? && accessToken.None?
              && storage == old(storage) - {AccessKey, RefreshKey})
    {
      refreshCalls := 0;
      if !Stored(storage, AccessKey) {
        loading := false;
        return;
      }
      var storedToken := storage[AccessKey];
      accessToken := Some(storedToken);
      // fetchUser: the user is set on success; loading ends either way
      if fetched.Some? {
        user := fetched;
      }
      loading := false;
      if fetched.None? {
        if Stored(storage, RefreshKey) {
          refreshCalls := 1;
          RefreshAccessToken(refreshed, refetched);
        } else {
          Logout();
        }
      }
    }

    /**
     * `refreshAccessToken`: on success only the new access token is
     * persisted and the user fetched again; any failure ends in `logout`.
     */
    method RefreshAccessToken(refreshed: Option<string>, refetched: Option<ClientUser>)
      modifies this
      ensures !loading || (refreshed.None? && loading == old(loading))
      ensures Consistent()
      ensures refreshed.Some? && refetched.Some? ==>
        user == refetched && accessToken == refreshed && storage == old(storage)[AccessKey := refreshed.value]
      ensures refreshed.Some? && refetched.None? ==>
        user.None? && accessToken.None? && storage == old(storage)[AccessKey := refreshed.value] - {AccessKey, RefreshKey}
      ensures refreshed.None? ==>
        user.None? && accessToken.None? && storage == old(storage) - {AccessKey, RefreshKey}
    {
      if refreshed.None? {
        Logout();
        return;
      }
      storage := storage[AccessKey := refreshed.value];
      accessToken := refreshed;
      if refetched.Some? {
        user := refetched;
      }
      loading := false;
      if refetched.None? {
        Logout();
      }
    }

    /**
     * `login`: `tokens` is the token pair the server returned (`None`: the
     * login call failed, and nothing changes). Both tokens are stored, the
     * access token is kept, and the user fetched with it (`fetched`).
     * `ok` is whether the call completed without throwing.
     */
    method Login(tokens: Option<(string, string)>, fetched: Option<ClientUser>) returns (ok: bool)
      requires Consistent()
      modifies this
      ensures Consistent()
      ensures tokens.None? ==>
        !ok && user == old(user) && accessToken == old(accessToken) && storage == old(storage) && loading == old(loading)
      ensures tokens.Some? ==>
        && storage == old(storage)[AccessKey := tokens.value.0][RefreshKey := tokens.value.1]
        && accessToken == Some(tokens.value.0) && !loading
        && (fetched.Some? ==> ok && user == fetched)
        && (fetched.None? ==> !ok && user == old(user))
    {
      if tokens.None? {
        return false;
      }
      var (access, refresh) := tokens.value;
      storage := storage[AccessKey := access];
      storage := storage[RefreshKey := refresh];
      accessToken := Some(access);
      if fetched.Some? {
        user := fetched;
      }
      loading := false;
      ok := fetched.Some?;
    }

    /**
     * `register`: when the register call succeeds (`registered`), log in
     * with the same username and password; `loggedInWith` records the
     * credentials the login was issued with.
     */
    method Register(registered: bool, username: string, password: string,
                    tokens: Option<(string, string)>, fetched: Option<ClientUser>)
      returns (ok: bool, loggedInWith: Option<(string, string)>)
      requires Consistent()
      modifies this
      ensures Consistent()
      ensures !registered ==>
        !ok && loggedInWith.None? && user == old(user) && accessToken == old(accessToken)
        && storage == old(storage) && loading == old(loading)
      ensures registered ==> loggedInWith == Some((username, password))
      ensures registered && tokens.Some? ==>
        && storage == old(storage)[AccessKey := tokens.value.0][RefreshKey := tokens.value.1]
        && accessToken == Some(tokens.value.0)
        && (ok <==> fetched.Some?) && (fetched.Some? ==> user == fetched)
      ensures registered && tokens.None? ==>
        !ok && user == old(user) && accessToken == old(accessToken) && storage == old(storage)
    {
      if !registered {
        return false, None;
      }
      loggedInWith := Some((username, password));
      ok := Login(tokens, fetched);
    }
  }
}
