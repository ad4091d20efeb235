/**
 * The older router of src/routes.jsx: three guard functions over the
 * session helpers of src/utils/auth.js, and a route table built by calling
 * them. The guards run once, while the table is built, so the table fixes
 * what every path shows from then on; it is not re-evaluated on navigation.
 *
 * A URL path is the sequence of its non-empty segments ("/" is `[]`,
 * "/admin/users/7" is `["admin", "users", "7"]`).
 */
module LegacyRouter {
  import opened JsValues
  import opened Cookies
  import opened Auth

  /** What a table entry holds: a page, or a `<Navigate to=…>`. */
  datatype Element = Page(name: string) | Navigate(to: string)

  /** `PrivateRoute({ element })`: the element when logged in, else a redirect to /login. */
  function PrivateRoute(jar: Jar, now: int, element: Element): (r: Element)
    ensures r == element <==> IsLoggedIn(jar, now) || element == Navigate("/login")
    ensures r != element ==> r == Navigate("/login")
  {
    if IsLoggedIn(jar, now) then element else Navigate("/login")
  }

  /**
   * `AdminRoute({ element })`: the element when logged in and the admin
   * claim is truthy, else a redirect to "/". `isAdmin()` is asked only when
   * logged in, and throws on a token that does not decode.
   */
  function AdminRoute(jar: Jar, now: int, decode: Decoder, element: Element): (r: Completion<Element>)
    ensures r.Thrown? <==> IsLoggedIn(jar, now) && IsAdmin(jar, now, decode).Thrown?
    ensures r.Normal? ==>
      (r.value == element <==> element == Navigate("/") || (IsLoggedIn(jar, now) && IsAdmin(jar, now, decode) == Normal(Some(true))))
    ensures r.Normal? && r.value != element ==> r.value == Navigate("/")
  {
    if !IsLoggedIn(jar, now) then Normal(Navigate("/"))
    else match IsAdmin(jar, now, decode)
      case Thrown(reason) => Thrown(reason)
      case Normal(claim) => Normal(if TruthyBool(claim) then element else Navigate("/"))
  }

  /** `PublicRoute({ element })`: a redirect to "/" when logged in, else the element. */
  function PublicRoute(jar: Jar, now: int, element: Element): (r: Element)
    ensures r == element <==> !IsLoggedIn(jar, now) || element == Navigate("/")
    ensures r != element ==> r == Navigate("/")
  {
    if IsLoggedIn(jar, now) then Navigate("/") else element
  }

  /** One segment of a route path: literal text, or a `:param` that takes any segment. */
  datatype Segment = Lit(text: string) | Param(name: string)

  /** A route path: a sequence of segments matched in full, or `*`. */
  datatype Pattern = Exact(segments: seq<Segment>) | CatchAll

  type Path = seq<string>

  predicate SegmentMatches(s: Segment, part: string)
  {
    match s
    case Lit(text) => text == part
    case Param(_) => part != ""
  }

  predicate Matches(p: Pattern, path: Path)
  {
    match p
    case CatchAll => true
    case Exact(segments) =>
      |segments| == |path| && forall i :: 0 <= i < |path| ==> SegmentMatches(segments[i], path[i])
  }

  /** Which guard wraps a page in the table; `Unguarded` is the catch-all's bare redirect. */
  datatype Guard = Private | Admin | Public | Unguarded

  /** A line of the route array before its guard has been applied. */
  datatype Entry = Entry(pattern: Pattern, guard: Guard, element: Element)

  /** A line of the route array as `createBrowserRouter` receives it. */
  datatype Route = Route(pattern: Pattern, element: Element)

  /** The route array of src/routes.jsx, in its order. */
  const Wiring: seq<Entry> := [
    Entry(Exact([]), Private, Page("HomePage")),
    Entry(Exact([Lit("login")]), Public, Page("LoginPage")),
    Entry(Exact([Lit("register")]), Public, Page("RegisterPage")),
    Entry(Exact([Lit("applications"), Param("appId")]), Private, Page("ApplicationDetailPage")),
    Entry(Exact([Lit("applications")]), Private, Page("ApplicationSubmitPage")),
    Entry(Exact([Lit("admin"), Lit("users")]), Admin, Page("AdminUserListPage")),
    Entry(Exact([Lit("admin"), Lit("users"), Param("userId")]), Admin, Page("AdminUserDetailPage")),
    Entry(Exact([Lit("admin"), Lit("applications"), Param("appId")]), Admin, Page("AdminApplicationDetailPage")),
    Entry(CatchAll, Unguarded, Navigate("/"))
  ]

  /** Calling one guard while the array is built. */
  function Guarded(guard: Guard, jar: Jar, now: int, decode: Decoder, element: Element): Completion<Element>
  {
    match guard
    case Private => Normal(PrivateRoute(jar, now, element))
    case Admin => AdminRoute(jar, now, decode, element)
    case Public => Normal(PublicRoute(jar, now, element))
    case Unguarded => Normal(element)
  }

  /**
   * Evaluating the array literal: each guard is called in order, and the
   * first exception aborts the whole module.
   */
  function Build(entries: seq<Entry>, jar: Jar, now: int, decode: Decoder): (r: Completion<seq<Route>>)
    ensures r.Normal? <==> forall i :: 0 <= i < |entries| ==> Guarded(entries[i].guard, jar, now, decode, entries[i].element).Normal?
    ensures r.Normal? ==> |r.value| == |entries|
    ensures r.Normal? ==> forall i :: 0 <= i < |entries| ==>
      r.value[i] == Route(entries[i].pattern, Guarded(entries[i].guard, jar, now, decode, entries[i].element).value)
  {
    if entries == [] then Normal([])
    else
      match Guarded(entries[0].guard, jar, now, decode, entries[0].element)
      case Thrown(reason) => Thrown(reason)
      case Normal(first) =>
        match Build(entries[1..], jar, now, decode)
        case Thrown(reason) => Thrown(reason)
        case Normal(rest) => Normal([Route(entries[0].pattern, first)] + rest)
  }

  /** The router table as it is built when src/routes.jsx is loaded. */
  function Table(jar: Jar, now: int, decode: Decoder): Completion<seq<Route>>
  {
    Build(Wiring, jar, now, decode)
  }

  /** The index of the first route that matches the path, if any. */
  function FirstMatch(routes: seq<Route>, path: Path): (r: Option<nat>)
    ensures r.None? <==> forall i :: 0 <= i < |routes| ==> !Matches(routes[i].pattern, path)
    ensures r.Some? ==> r.value < |routes| && Matches(routes[r.value].pattern, path)
    ensures r.Some? ==> forall j :: 0 <= j < r.value ==> !Matches(routes[j].pattern, path)
  {
    if routes == [] then None
    else if Matches(routes[0].pattern, path) then Some(0)
    else
      match FirstMatch(routes[1..], path)
      case None => None
      case Some(i) => Some(i + 1)
  }

  /** The element the router shows for a path: that of the first route that matches. */
  function Resolve(routes: seq<Route>, path: Path): Option<Element>
  {
    match FirstMatch(routes, path)
    case None => None
    case Some(i) => Some(routes[i].element)
  }

  /** The index of the route with a path that a URL can match, read off its segments. */
  function RouteFor(path: Path): nat
  {
    if |path| == 0 then 0
    else if |path| == 1 then (if path[0] == "login" then 1 else if path[0] == "register" then 2 else 4)
    else if |path| == 2 then (if path[0] == "applications" then 3 else 5)
    else if path[1] == "users" then 6 else 7
  }

  /** A route with a path matches a URL only if it is the route `RouteFor` names. */
  lemma MatchDeterminesRoute(path: Path, i: nat)
    requires i < |Wiring| - 1 && Matches(Wiring[i].pattern, path)
    ensures i == RouteFor(path)
  {
    var a := Wiring[i].pattern.segments;
    if i != 0 {
      assert SegmentMatches(a[0], path[0]);
    }
    if i >= 3 && i != 4 {
      assert SegmentMatches(a[1], path[1]);
    }
  }

  /**
   * No two routes with a path match the same URL, so only the catch-all
   * overlaps with anything and the order of the array decides nothing.
   */
  lemma ExactPatternsDisjoint(path: Path, i: nat, j: nat)
    requires i < |Wiring| - 1 && j < |Wiring| - 1
    ensures Matches(Wiring[i].pattern, path) && Matches(Wiring[j].pattern, path) ==> i == j
  {
    if Matches(Wiring[i].pattern, path) && Matches(Wiring[j].pattern, path) {
      MatchDeterminesRoute(path, i);
      MatchDeterminesRoute(path, j);
    }
  }

  /** Every route under /admin is wrapped by `AdminRoute`; /login and /register by `PublicRoute`. */
  lemma GuardOfEachRoute(i: nat)
    requires i < |Wiring|
    ensures Wiring[i].pattern.Exact? && |Wiring[i].pattern.segments| > 0 && Wiring[i].pattern.segments[0] == Lit("admin") ==>
      Wiring[i].guard == Admin
    ensures Wiring[i].pattern in {Exact([Lit("login")]), Exact([Lit("register")])} ==> Wiring[i].guard == Public
    ensures Wiring[i].guard == Unguarded <==> Wiring[i].pattern == CatchAll
  {
  }

  /** A path that no route matches lands on the catch-all, which redirects to "/". */
  lemma UnmatchedGoesHome(jar: Jar, now: int, decode: Decoder, path: Path)
    requires Table(jar, now, decode).Normal?
    requires forall i :: 0 <= i < |Wiring| - 1 ==> !Matches(Wiring[i].pattern, path)
    ensures Resolve(Table(jar, now, decode).value, path) == Some(Navigate("/"))
  {
    var routes := Table(jar, now, decode).value;
    assert Matches(routes[|Wiring| - 1].pattern, path);
    assert FirstMatch(routes, path) == Some(|Wiring| - 1);
  }

  /** `AdminRoute` never sends anyone straight to /login. */
  lemma AdminRouteNeverToLogin(jar: Jar, now: int, decode: Decoder, element: Element)
    requires element != Navigate("/login")
    ensures AdminRoute(jar, now, decode, element) != Normal(Navigate("/login"))
  {
  }

  /** For one session, exactly one of `PrivateRoute` and `PublicRoute` yields its page. */
  lemma ExactlyOneRenders(jar: Jar, now: int, privatePage: string, publicPage: string)
    ensures (PrivateRoute(jar, now, Page(privatePage)) == Page(privatePage)) !=
            (PublicRoute(jar, now, Page(publicPage)) == Page(publicPage))
  {
  }

  /**
   * Loaded without a session, the table sends an admin URL to "/" and "/"
   * on to /login: two hops where the component guards make one. Because
   * the guards ran at load, logging in later does not change this.
   */
  lemma LoggedOutAtLoad(jar: Jar, now: int, decode: Decoder, id: string)
    requires !IsLoggedIn(jar, now) && id != ""
    ensures Table(jar, now, decode).Normal?
    ensures Resolve(Table(jar, now, decode).value, ["admin", "users", id]) == Some(Navigate("/"))
    ensures Resolve(Table(jar, now, decode).value, []) == Some(Navigate("/login"))
  {
    var routes := Table(jar, now, decode).value;
    assert Matches(routes[6].pattern, ["admin", "users", id]);
    ResolveUnique(routes, ["admin", "users", id], 6);
    assert Matches(routes[0].pattern, []);
  }

  /** When an exact route matches, it is the one found. */
  lemma ResolveUnique(routes: seq<Route>, path: Path, k: nat)
    requires |routes| == |Wiring| && k < |Wiring| - 1
    requires forall i :: 0 <= i < |routes| ==> routes[i].pattern == Wiring[i].pattern
    requires Matches(routes[k].pattern, path)
    ensures Resolve(routes, path) == Some(routes[k].element)
  {
    var i := FirstMatch(routes, path).value;
    if i < k {
      ExactPatternsDisjoint(path, i, k);
    }
  }
}
