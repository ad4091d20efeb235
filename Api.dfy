/**
 * The request interceptor of src/services/api.js: before each request the
 * token cookie is read afresh and, when it holds a truthy value, the
 * request's headers get `Authorization: Bearer <token>`. The config object
 * is changed in place and handed back; a request error is passed on as a
 * rejection.
 */
module Api {
  import opened JsValues
  import opened Cookies
  import opened Auth

  const AuthorizationHeader := "Authorization"
  const BearerPrefix := "Bearer "

  /** The headers a request goes out with, given the token read for it. */
  function WithBearer(headers: map<string, string>, token: Option<string>): (r: map<string, string>)
    ensures TruthyString(token) ==> AuthorizationHeader in r && r[AuthorizationHeader] == BearerPrefix + token.value
    ensures !TruthyString(token) ==> r == headers
    ensures r.Keys == headers.Keys + (if TruthyString(token) then {AuthorizationHeader} else {})
    ensures forall name :: name in headers && name != AuthorizationHeader ==> r[name] == headers[name]
  {
    if TruthyString(token) then headers[AuthorizationHeader := BearerPrefix + token.value] else headers
  }

  /** Running the interceptor twice with the same token is the same as running it once. */
  lemma WithBearerIdempotent(headers: map<string, string>, token: Option<string>)
    ensures WithBearer(WithBearer(headers, token), token) == WithBearer(headers, token)
  {
  }

  /**
   * The header carries whatever token the jar holds at the time of the
   * request: logging in between two requests changes the second one's
   * header, and logging out before a request sends it unchanged.
   */
  lemma HeaderFollowsSession(headers: map<string, string>, jar: Jar, now: int)
    requires AuthorizationHeader !in headers
    ensures (AuthorizationHeader in WithBearer(headers, Token(jar, now))) <==> IsLoggedIn(jar, now)
    ensures IsLoggedIn(jar, now) ==> WithBearer(headers, Token(jar, now))[AuthorizationHeader] == BearerPrefix + jar[TokenCookie].value
  {
  }

  /** An axios request config; only the headers are touched by the interceptor. */
  class RequestConfig {
    const url: string
    const httpMethod: string
    const body: string
    var headers: map<string, string>

    constructor (url: string, httpMethod: string, body: string, headers: map<string, string>)
      ensures this.url == url && this.httpMethod == httpMethod && this.body == body && this.headers == headers
    {
      this.url := url;
      this.httpMethod := httpMethod;
      this.body := body;
      this.headers := headers;
    }
  }

  /**
   * The fulfilled handler: read the token now, set the header when it is
   * truthy, and return the very same config object.
   */
  method InterceptRequest(config: RequestConfig, jar: Jar, now: int) returns (r: RequestConfig)
    modifies config
    ensures r == config
    ensures config.headers == WithBearer(old(config.headers), Token(jar, now))
  {
    var token := Get(jar, TokenCookie, now);
    if TruthyString(token) {
      config.headers := config.headers[AuthorizationHeader := BearerPrefix + token.value];
    }
    return config;
  }

  /**
   * The interceptor pair as axios applies it to the outcome of the
   * previous step: a fulfilled config goes through the fulfilled handler
   * and comes out as the same object with the bearer header set, and a
   * rejection goes through the error handler and comes out as the same
   * rejection, touching nothing.
   */
  method Intercept(incoming: Settled<RequestConfig>, jar: Jar, now: int) returns (r: Settled<RequestConfig>)
    modifies if incoming.Fulfilled? then {incoming.value} else {}
    ensures r == incoming
    ensures incoming.Fulfilled? ==>
      incoming.value.headers == WithBearer(old(incoming.value.headers), Token(jar, now))
  {
    match incoming
    case Fulfilled(config) =>
      var same := InterceptRequest(config, jar, now);
      r := Fulfilled(same);
    case Rejected(error) =>
      r := Rejected(error);
  }
}
