/**
 * The `useAuth` hook of src/hooks/useAuth.js: the session flags it derives
 * for the guards and the sidebar, and what happens when the login,
 * register and logout requests succeed.
 *
 * `isTokenValid` and `removeAuthToken` are imported from src/utils/auth.js
 * but not defined there: `isTokenValid()` is an input flag of the
 * derivation, and `removeAuthToken()` is the removal of the token cookie.
 * The query cache is a map from query key to entry; React Query's fetching
 * and scheduling are not modelled, and each success handler runs as one
 * step.
 */
module UseAuth {
  import opened JsValues
  import opened Cookies
  import opened Auth

  /** The profile the `user` query returns; the hook only looks at whether it is there. */
  datatype User = User(username: string)

  /** The `user` query as the hook reads it. */
  datatype UserQuery = UserQuery(isLoading: bool, data: Option<User>)

  /** The object `useAuth()` returns, without the three mutate functions. */
  datatype AuthView = AuthView(
    user: Option<User>,
    isLoggedIn: bool,
    isAdmin: bool,
    isLoading: bool,
    isLoginLoading: bool,
    isRegisterLoading: bool)

  /** `enabled: isTokenValid()`: the user query runs only for a valid token. */
  predicate UserQueryEnabled(tokenValid: bool)
  {
    tokenValid
  }

  /**
   * What a query's `enabled` option does to the state the hook reads: a
   * disabled query never fetches, so it is never loading. Any data it
   * shows is left over in the cache.
   */
  predicate QueryRespectsEnabled(enabled: bool, query: UserQuery)
  {
    query.isLoading ==> enabled
  }

  /**
   * One render of `useAuth()`. `isLoggedIn` needs a valid token and a user
   * query that is loading or has data; `isAdmin` asks `isAdmin()` of
   * src/utils/auth.js only when logged in, and that call throws for a token
   * the JWT library cannot decode.
   */
  function View(tokenValid: bool, query: UserQuery, jar: Jar, now: int, decode: Decoder,
                loginPending: bool, registerPending: bool): (r: Completion<AuthView>)
    ensures r.Normal? ==>
      && (r.value.isLoggedIn <==> tokenValid && (query.isLoading || query.data.Some?))
      && (r.value.isAdmin ==> r.value.isLoggedIn)
      && (r.value.isAdmin <==> r.value.isLoggedIn && IsAdmin(jar, now, decode) == Normal(Some(true)))
      && r.value.user == query.data && r.value.isLoading == query.isLoading
      && r.value.isLoginLoading == loginPending && r.value.isRegisterLoading == registerPending
    ensures r.Thrown? <==>
      tokenValid && (query.isLoading || query.data.Some?) && IsAdmin(jar, now, decode).Thrown?
  {
    var isLoggedIn := tokenValid && (query.isLoading || query.data.Some?);
    var isAdmin: Completion<bool> :=
      if !isLoggedIn then Normal(false)
      else match IsAdmin(jar, now, decode)
        case Thrown(reason) => Thrown(reason)
        case Normal(claim) => Normal(TruthyBool(claim));
    match isAdmin
    case Thrown(reason) => Thrown(reason)
    case Normal(admin) =>
      Normal(AuthView(query.data, isLoggedIn, admin, query.isLoading, loginPending, registerPending))
  }

  /**
   * Without a valid token the user query is disabled, so the hook reports
   * a visitor who is logged out, not an administrator and not loading,
   * whatever the cache still holds and whatever the cookie says.
   */
  lemma NoValidTokenMeansLoggedOut(tokenValid: bool, query: UserQuery, jar: Jar, now: int, decode: Decoder,
                                   loginPending: bool, registerPending: bool)
    requires !tokenValid
    requires QueryRespectsEnabled(UserQueryEnabled(tokenValid), query)
    ensures var v := View(tokenValid, query, jar, now, decode, loginPending, registerPending);
      v.Normal? && !v.value.isLoggedIn && !v.value.isAdmin && !v.value.isLoading
  {
  }

  /** A cached query result and whether it has been marked for refetching. */
  datatype CacheEntry = CacheEntry(data: string, stale: bool)

  /**
   * Invalidating one query, as the login handler evidently means to do with
   * the `user` query: mark that entry stale and leave the rest alone.
   */
  function Invalidate(cache: map<string, CacheEntry>, key: string): (r: map<string, CacheEntry>)
    ensures r.Keys == cache.Keys
    ensures key in r ==> r[key].stale && r[key].data == cache[key].data
    ensures forall k :: k in r && k != key ==> r[k] == cache[k]
  {
    if key in cache then cache[key := cache[key].(stale := true)] else cache
  }

  /**
   * `queryClient.invalidateQueries(["user"])` as written. The hook reads
   * `isPending` from its mutations, which only version 5 of the query library
   * provides. In version 5 the argument is a filter object, and an array has
   * no `queryKey`, so the filter matches every query and all of them are
   * marked stale.
   */
  function InvalidateAsWritten(cache: map<string, CacheEntry>): (r: map<string, CacheEntry>)
    ensures r.Keys == cache.Keys
    ensures forall k :: k in r ==> r[k] == cache[k].(stale := true)
  {
    map k | k in cache :: cache[k].(stale := true)
  }

  /** With an applications list cached, the call as written marks it stale too; the intended call leaves it alone. */
  lemma InvalidateAsWrittenHitsOtherQueries()
    ensures var cache := map["user" := CacheEntry("alice", false), "applications" := CacheEntry("[]", false)];
      && InvalidateAsWritten(cache)["applications"].stale
      && !Invalidate(cache, "user")["applications"].stale
  {
    var cache := map["user" := CacheEntry("alice", false), "applications" := CacheEntry("[]", false)];
    assert "applications" in InvalidateAsWritten(cache);
    assert "applications" in Invalidate(cache, "user") && "applications" != "user";
  }

  /** The cookie jar after `removeAuthToken()`. */
  function WithoutToken(jar: Jar): (r: Jar)
    ensures forall now :: Token(r, now) == None
    ensures forall name :: name != TokenCookie ==> (name in r <==> name in jar)
    ensures forall name :: name != TokenCookie && name in jar ==> r[name] == jar[name]
  {
    jar - {TokenCookie}
  }

  /** Removing the token twice is removing it once: no error, and still no token. */
  lemma RemoveTokenIdempotent(jar: Jar, now: int)
    ensures WithoutToken(WithoutToken(jar)) == WithoutToken(jar)
    ensures !IsLoggedIn(WithoutToken(WithoutToken(jar)), now)
  {
  }

  /** The side effects of the success handlers, in the order they happen. */
  datatype Effect = StoreToken(token: string) | InvalidateUser | RemoveToken | ClearCache | NavigateTo(path: string)

  /** The state the handlers act on: the cookie store, the query cache, the location and the effects so far. */
  class AuthHook {
    const store: CookieStore
    var cache: map<string, CacheEntry>
    var location: string
    var effects: seq<Effect>

    constructor (store: CookieStore, cache: map<string, CacheEntry>, location: string)
      ensures this.store == store && this.cache == cache && this.location == location && effects == []
    {
      this.store := store;
      this.cache := cache;
      this.location := location;
      effects := [];
    }

    /**
     * Login success: store the returned token, invalidate the `user`
     * query, then go to /applications. When storing throws, the handler
     * stops there and nothing else happens.
     */
    method OnLoginSuccess(token: string, decode: Decoder) returns (c: Completion<()>)
      modifies this, store
      ensures c.Normal? <==> AfterSetAuthToken(old(store.jar), token, decode).Normal?
      ensures c.Normal? ==>
        && store.jar == AfterSetAuthToken(old(store.jar), token, decode).value
        && cache == Invalidate(old(cache), "user")
        && location == "/applications"
        && effects == old(effects) + [StoreToken(token), InvalidateUser, NavigateTo("/applications")]
      ensures c.Thrown? ==>
        store.jar == old(store.jar) && cache == old(cache) && location == old(location) && effects == old(effects)
    {
      c := SetAuthToken(store, token, decode);
      if c.Thrown? {
        return;
      }
      effects := effects + [StoreToken(token)];
      cache := Invalidate(cache, "user");
      effects := effects + [InvalidateUser];
      location := "/applications";
      effects := effects + [NavigateTo("/applications")];
    }

    /** Register success: go to /login; no token is stored and the cache is untouched. */
    method OnRegisterSuccess()
      modifies this
      ensures location == "/login" && effects == old(effects) + [NavigateTo("/login")]
      ensures cache == old(cache)
    {
      location := "/login";
      effects := effects + [NavigateTo("/login")];
    }

    /**
     * Logout success: remove the token, clear the whole query cache, then
     * go to /login. Afterwards nobody is logged in, whatever the time.
     */
    method OnLogoutSuccess()
      modifies this, store
      ensures store.jar == WithoutToken(old(store.jar))
      ensures forall now :: !IsLoggedIn(store.jar, now)
      ensures cache == map[] && location == "/login"
      ensures effects == old(effects) + [RemoveToken, ClearCache, NavigateTo("/login")]
    {
      store.Remove(TokenCookie);
      effects := effects + [RemoveToken];
      cache := map[];
      effects := effects + [ClearCache];
      location := "/login";
      effects := effects + [NavigateTo("/login")];
    }
  }
}
