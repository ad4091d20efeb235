/**
 * The route guards the application wires in: `PrivateRoute`
 * (src/components/PrivateRoute.jsx) and `PublicRoute`
 * (src/components/PublicRoute.jsx). Each reads the session flags of
 * `useAuth()` and either renders what it guards or answers with a
 * `<Navigate>`.
 *
 * Beside them stands a reference definition: a session is anonymous, a
 * plain user or an admin, and each kind of route admits exactly one set of
 * sessions. The lemmas show the guards decide exactly as that table says.
 */
module RouteGuards {
  import opened JsValues
  import opened UseAuth

  /** A React subtree; the guards never look inside one. */
  datatype Element = Element(name: string)

  /** `useLocation()`: only the path matters here. */
  datatype Location = Location(pathname: string)

  /** The props of a `<Navigate>`: target, `replace`, and the `from` location put into the navigation state. */
  datatype Navigate = Navigate(to: string, replace: bool, from: Option<Location>)

  /** What a guard returns: its children (or outlet), or a redirect. */
  datatype Outcome = Render(element: Element) | Redirect(nav: Navigate)

  /**
   * `PrivateRoute({ children, requireAdmin })`: the login check first,
   * then the admin check, then the children as they are.
   */
  function PrivateRoute(auth: AuthView, location: Location, children: Element, requireAdmin: bool): (r: Outcome)
    ensures r.Render? <==> auth.isLoggedIn && (!requireAdmin || auth.isAdmin)
    ensures r.Render? ==> r.element == children
    ensures r.Redirect? ==> r.nav.to == (if auth.isLoggedIn then "/applications" else "/login")
    ensures r.Redirect? ==> (r.nav.replace <==> !auth.isLoggedIn) && (r.nav.from.Some? <==> !auth.isLoggedIn)
  {
    if !auth.isLoggedIn then Redirect(Navigate("/login", true, Some(location)))
    else if requireAdmin && !auth.isAdmin then Redirect(Navigate("/applications", false, None))
    else Render(children)
  }

  /** `<PrivateRoute>` without the `requireAdmin` prop, which defaults to `false`. */
  function PrivateRouteDefault(auth: AuthView, location: Location, children: Element): Outcome
  {
    PrivateRoute(auth, location, children, false)
  }

  /**
   * `PublicRoute()`: a logged-in visitor is sent on to /applications,
   * replacing the history entry; anyone else sees the nested routes.
   */
  function PublicRoute(auth: AuthView, location: Location, outlet: Element): (r: Outcome)
    ensures r.Render? <==> !auth.isLoggedIn
    ensures r.Render? ==> r.element == outlet
    ensures r.Redirect? ==> r.nav == Navigate("/applications", true, Some(location))
  {
    if auth.isLoggedIn then Redirect(Navigate("/applications", true, Some(location)))
    else Render(outlet)
  }

  /** The three sessions the guards tell apart. */
  datatype Session = Anonymous | Member | Administrator

  /** The kinds of route: for members, for administrators, and for visitors who have not logged in. */
  datatype RouteKind = MembersOnly | AdminsOnly | VisitorsOnly

  /** A session as the guards see it; the admin flag counts only once logged in. */
  function SessionOf(auth: AuthView): Session
  {
    if !auth.isLoggedIn then Anonymous
    else if auth.isAdmin then Administrator
    else Member
  }

  /** Which sessions each kind of route admits. */
  predicate Admits(kind: RouteKind, s: Session)
  {
    match kind
    case MembersOnly => s != Anonymous
    case AdminsOnly => s == Administrator
    case VisitorsOnly => s == Anonymous
  }

  /** Where a session that is not admitted is sent. */
  function Fallback(kind: RouteKind, s: Session): string
  {
    match kind
    case VisitorsOnly => "/applications"
    case _ => if s == Anonymous then "/login" else "/applications"
  }

  /**
   * `PrivateRoute` with and without `requireAdmin` decides exactly as the
   * reference table for members-only and admins-only routes does.
   */
  lemma PrivateRouteMatchesTable(auth: AuthView, location: Location, children: Element, requireAdmin: bool)
    ensures var kind := if requireAdmin then AdminsOnly else MembersOnly;
      var r := PrivateRoute(auth, location, children, requireAdmin);
      && (r == Render(children) <==> Admits(kind, SessionOf(auth)))
      && (r.Redirect? ==> r.nav.to == Fallback(kind, SessionOf(auth)))
  {
  }

  /** `PublicRoute` decides exactly as the reference table for visitors-only routes does. */
  lemma PublicRouteMatchesTable(auth: AuthView, location: Location, outlet: Element)
    ensures var r := PublicRoute(auth, location, outlet);
      && (r == Render(outlet) <==> Admits(VisitorsOnly, SessionOf(auth)))
      && (r.Redirect? ==> r.nav.to == Fallback(VisitorsOnly, SessionOf(auth)))
  {
  }

  /** With the default `requireAdmin`, every logged-in user is let through, admin or not. */
  lemma DefaultAdmitsEveryMember(auth: AuthView, location: Location, children: Element)
    requires auth.isLoggedIn
    ensures PrivateRouteDefault(auth, location, children) == Render(children)
  {
  }

  /**
   * The login check comes first: a visitor who is not logged in goes to
   * /login, keeping where they came from, even on an admin route and
   * whatever the admin flag says.
   */
  lemma LoginCheckFirst(auth: AuthView, location: Location, children: Element, requireAdmin: bool)
    requires !auth.isLoggedIn
    ensures PrivateRoute(auth, location, children, requireAdmin) == Redirect(Navigate("/login", true, Some(location)))
  {
  }

  /** `PublicRoute` never sends anyone to /login, and the admin flag plays no part in it. */
  lemma PublicRouteIgnoresAdmin(auth: AuthView, location: Location, outlet: Element, isAdmin: bool)
    ensures PublicRoute(auth, location, outlet) == PublicRoute(auth.(isAdmin := isAdmin), location, outlet)
    ensures PublicRoute(auth, location, outlet).Redirect? ==> PublicRoute(auth, location, outlet).nav.to != "/login"
  {
  }

  /**
   * For one session, exactly one of a members-only route and a public
   * route renders what it guards.
   */
  lemma ExactlyOneRenders(auth: AuthView, location: Location, children: Element, outlet: Element)
    ensures PrivateRouteDefault(auth, location, children).Render? != PublicRoute(auth, location, outlet).Render?
  {
  }

  /**
   * A redirect never bounces: the page a guard redirects to is guarded so
   * that the same session is let in there (/login is public, /applications
   * is members-only).
   */
  lemma RedirectsSettle(auth: AuthView, location: Location, children: Element, outlet: Element, requireAdmin: bool)
    ensures PrivateRoute(auth, location, children, requireAdmin).Redirect? ==>
      var to := Location(PrivateRoute(auth, location, children, requireAdmin).nav.to);
      if to.pathname == "/login" then PublicRoute(auth, to, outlet) == Render(outlet)
      else PrivateRouteDefault(auth, to, children) == Render(children)
    ensures PublicRoute(auth, location, outlet).Redirect? ==>
      PrivateRouteDefault(auth, Location("/applications"), children) == Render(children)
  {
  }
}
