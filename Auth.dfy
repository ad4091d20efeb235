/**
 * The session helpers of src/utils/auth.js: "logged in" means an
 * `authToken` cookie is present, "admin" is the token's `is_admin` claim,
 * and storing a token gives its cookie the token's own expiry.
 *
 * The JWT library is not modelled: `jwtDecode` is the `Decoder` parameter,
 * which yields `None` where the library throws (a malformed token).
 */
module Auth {
  import opened JsValues
  import opened Cookies

  /** The name of the cookie that holds the bearer token. */
  const TokenCookie := "authToken"

  /**
   * The two claims the front end reads from a token payload. `exp` is a
   * NumericDate in seconds (section 4.1.4 of RFC 7519); either claim may be
   * missing.
   */
  datatype Claims = Claims(exp: Option<int>, isAdmin: Option<bool>)

  /** `jwtDecode`: the payload claims, or `None` where it throws. */
  type Decoder = string -> Option<Claims>

  /** The token as the cookie store hands it out right now. */
  function Token(jar: Jar, now: int): Option<string>
  {
    Get(jar, TokenCookie, now)
  }

  /** `isLoggedIn()`: the token cookie holds a truthy value; no claim is looked at. */
  function IsLoggedIn(jar: Jar, now: int): (r: bool)
    ensures r <==> TokenCookie in jar && Live(jar[TokenCookie], now) && jar[TokenCookie].value != ""
  {
    TruthyString(Token(jar, now))
  }

  /**
   * `isAdmin()`: `false` without a token; otherwise the decoded `is_admin`
   * claim exactly as it is, `undefined` included. Decoding a malformed
   * token throws.
   */
  function IsAdmin(jar: Jar, now: int, decode: Decoder): (r: Completion<Option<bool>>)
    ensures !IsLoggedIn(jar, now) ==> r == Normal(Some(false))
    ensures IsLoggedIn(jar, now) ==>
      match decode(jar[TokenCookie].value)
      case Some(claims) => r == Normal(claims.isAdmin)
      case None => r.Thrown?
  {
    var token := Token(jar, now);
    if TruthyString(token) then
      match decode(token.value)
      case Some(claims) => Normal(claims.isAdmin)
      case None => Thrown("InvalidTokenError")
    else
      Normal(Some(false))
  }

  /**
   * The cookie expiry `new Date(exp * 1000)`. A missing `exp` makes an
   * invalid date, which the cookie serializer refuses by throwing.
   */
  function CookieExpiry(exp: Option<int>): (r: Completion<Expiry>)
    ensures r.Normal? <==> exp.Some?
    ensures r.Normal? ==> r.value.At? && r.value.ms / 1000 == exp.value && r.value.ms % 1000 == 0
  {
    match exp
    case Some(seconds) => Normal(At(seconds * 1000))
    case None => Thrown("option expires is invalid")
  }

  /** The cookie jar after `setAuthToken(token)`, or the exception it throws. */
  function AfterSetAuthToken(jar: Jar, token: string, decode: Decoder): Completion<Jar>
  {
    match decode(token)
    case None => Thrown("InvalidTokenError")
    case Some(claims) =>
      match CookieExpiry(claims.exp)
      case Thrown(reason) => Thrown(reason)
      case Normal(expires) => Normal(jar[TokenCookie := Cookie(token, expires)])
  }

  /** `setAuthToken(token)`: decode the token, then write its cookie; nothing is written when either step throws. */
  method SetAuthToken(store: CookieStore, token: string, decode: Decoder) returns (c: Completion<()>)
    modifies store
    ensures c.Normal? <==> AfterSetAuthToken(old(store.jar), token, decode).Normal?
    ensures store.jar == if c.Normal? then AfterSetAuthToken(old(store.jar), token, decode).value else old(store.jar)
  {
    var claims := decode(token);
    if claims.None? {
      return Thrown("InvalidTokenError");
    }
    var expires := CookieExpiry(claims.value.exp);
    if expires.Thrown? {
      return Thrown(expires.reason);
    }
    store.Set(TokenCookie, token, expires.value);
    c := Normal(());
  }

  /** `isAdmin()` can only answer `true` while `isLoggedIn()` holds. */
  lemma AdminImpliesLoggedIn(jar: Jar, now: int, decode: Decoder)
    requires IsAdmin(jar, now, decode) == Normal(Some(true))
    ensures IsLoggedIn(jar, now)
  {
  }

  /**
   * Storing succeeds exactly for a token that decodes and carries `exp`;
   * afterwards the token is the session while the clock is before `exp`
   * (counted in seconds, as the claim is), its admin answer is its own
   * claim, and every other cookie reads as before.
   */
  lemma SetAuthTokenEstablishesSession(jar: Jar, token: string, decode: Decoder, nowSeconds: int)
    requires token != ""
    ensures AfterSetAuthToken(jar, token, decode).Normal? <==>
      decode(token).Some? && decode(token).value.exp.Some?
    ensures AfterSetAuthToken(jar, token, decode).Normal? ==>
      var after := AfterSetAuthToken(jar, token, decode).value;
      var claims := decode(token).value;
      && (IsLoggedIn(after, nowSeconds * 1000) <==> nowSeconds < claims.exp.value)
      && (nowSeconds < claims.exp.value ==> IsAdmin(after, nowSeconds * 1000, decode) == Normal(claims.isAdmin))
      && (forall name :: name != TokenCookie ==> Get(after, name, nowSeconds * 1000) == Get(jar, name, nowSeconds * 1000))
  {
    if AfterSetAuthToken(jar, token, decode).Normal? {
      var after := AfterSetAuthToken(jar, token, decode).value;
      var claims := decode(token).value;
      assert after[TokenCookie] == Cookie(token, At(claims.exp.value * 1000));
    }
  }

  /**
   * The stored cookie lives until the last millisecond before `exp`: one
   * millisecond earlier the session holds, at `exp` itself it is gone.
   */
  lemma SessionEndsAtExp(jar: Jar, token: string, decode: Decoder)
    requires token != ""
    requires AfterSetAuthToken(jar, token, decode).Normal?
    ensures var after := AfterSetAuthToken(jar, token, decode).value;
      var expMs := decode(token).value.exp.value * 1000;
      IsLoggedIn(after, expMs - 1) && !IsLoggedIn(after, expMs)
  {
  }

  /**
   * Storing a token and reading it back yields that token, so the claims
   * decoded from the cookie are the claims of the token that was stored.
   */
  lemma TokenRoundTrip(jar: Jar, token: string, decode: Decoder, now: int)
    requires AfterSetAuthToken(jar, token, decode).Normal?
    requires now < decode(token).value.exp.value * 1000
    ensures Token(AfterSetAuthToken(jar, token, decode).value, now) == Some(token)
    ensures decode(Token(AfterSetAuthToken(jar, token, decode).value, now).value) == decode(token)
  {
  }
}
