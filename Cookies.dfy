/**
 * The browser cookie store behind react-cookie, as the session helpers see
 * it: a map from cookie name to value and expiry. The browser never hands
 * out a cookie whose expiry has passed, so every read takes the current
 * time in milliseconds.
 */
module Cookies {
  import opened JsValues

  /** When a cookie stops being sent: at an instant (ms since the epoch), or at the end of the session. */
  datatype Expiry = At(ms: int) | Session

  datatype Cookie = Cookie(value: string, expires: Expiry)

  type Jar = map<string, Cookie>

  predicate Live(c: Cookie, now: int)
  {
    c.expires.Session? || now < c.expires.ms
  }

  /** `Cookies.get(name)`: the value of a cookie that is present and not expired. */
  function Get(jar: Jar, name: string, now: int): Option<string>
  {
    if name in jar && Live(jar[name], now) then Some(jar[name].value) else None
  }

  /** The cookie store object; `set` and `remove` replace its contents in place. */
  class CookieStore {
    var jar: Jar

    constructor (initial: Jar)
      ensures jar == initial
    {
      jar := initial;
    }

    /** `Cookies.set(name, value, { expires })`. */
    method Set(name: string, value: string, expires: Expiry)
      modifies this
      ensures jar == old(jar)[name := Cookie(value, expires)]
    {
      jar := jar[name := Cookie(value, expires)];
    }

    /** `Cookies.remove(name)`: removing a cookie that is not there changes nothing. */
    method Remove(name: string)
      modifies this
      ensures jar == old(jar) - {name}
    {
      jar := jar - {name};
    }
  }
}
