/**
 * The application shell: the `RootRedirect` dispatcher and the route table.
 *
 * As written the table declares only "/" and "/login" before the catch-all;
 * `IntendedRoutes` is the table the rest of the application expects, with
 * "/signup" and a guarded "/dashboard".
 */
module App {
  import opened Outcomes
  import opened Router
  import AuthContext
  import ProtectedRoute

  datatype Page = RootRedirectPage | LoginPage | SignUpPage | DashboardPage | NotFoundPage

  /** A route element: a page, or a page wrapped in `ProtectedRoute`. */
  datatype Element = Plain(page: Page) | Guarded(page: Page)

  datatype PathPattern = Exact(path: string) | CatchAll

  datatype RouteEntry = RouteEntry(pattern: PathPattern, element: Element)

  /** The `<Routes>` table as written. */
  const AppRoutes: seq<RouteEntry> := [
    RouteEntry(Exact("/"), Plain(RootRedirectPage)),
    RouteEntry(Exact("/login"), Plain(LoginPage)),
    RouteEntry(CatchAll, Plain(NotFoundPage))
  ]

  /** The table the redirects and links of the application assume. */
  const IntendedRoutes: seq<RouteEntry> := [
    RouteEntry(Exact("/"), Plain(RootRedirectPage)),
    RouteEntry(Exact("/login"), Plain(LoginPage)),
    RouteEntry(Exact("/signup"), Plain(SignUpPage)),
    RouteEntry(Exact("/dashboard"), Guarded(DashboardPage)),
    RouteEntry(CatchAll, Plain(NotFoundPage))
  ]

  /** The element of the first route declared with exactly this path. */
  function FindExact(routes: seq<RouteEntry>, path: string): (r: Option<Element>)
    ensures r.Some? <==> exists i :: 0 <= i < |routes| && routes[i].pattern == Exact(path)
    ensures r.Some? ==> exists i :: 0 <= i < |routes| && routes[i] == RouteEntry(Exact(path), r.value)
                                    && forall j :: 0 <= j < i ==> routes[j].pattern != Exact(path)
    decreases |routes|
  {
    if routes == [] then None
    else if routes[0].pattern == Exact(path) then Some(routes[0].element)
    else
      var r := FindExact(routes[1..], path);
      assert forall i :: 0 < i < |routes| ==> routes[i] == routes[1..][i - 1];
      r
  }

  /** The element of the first catch-all route. */
  function FindCatchAll(routes: seq<RouteEntry>): (r: Option<Element>)
    ensures r.Some? <==> exists i :: 0 <= i < |routes| && routes[i].pattern == CatchAll
    ensures r.Some? ==> exists i :: 0 <= i < |routes| && routes[i] == RouteEntry(CatchAll, r.value)
                                    && forall j :: 0 <= j < i ==> routes[j].pattern != CatchAll
    decreases |routes|
  {
    if routes == [] then None
    else if routes[0].pattern == CatchAll then Some(routes[0].element)
    else
      var r := FindCatchAll(routes[1..]);
      assert forall i :: 0 < i < |routes| ==> routes[i] == routes[1..][i - 1];
      r
  }

  /**
   * Route matching: a route whose path is exactly the requested one outranks
   * the catch-all, wherever each is declared.
   */
  function Match(routes: seq<RouteEntry>, path: string): (r: Option<Element>)
    ensures (exists i :: 0 <= i < |routes| && routes[i].pattern == Exact(path)) ==>
              r.Some? && exists i :: 0 <= i < |routes| && routes[i] == RouteEntry(Exact(path), r.value)
    ensures !(exists i :: 0 <= i < |routes| && routes[i].pattern == Exact(path)) ==> r == FindCatchAll(routes)
  {
    match FindExact(routes, path)
    case Some(e) => Some(e)
    case None => FindCatchAll(routes)
  }

  /** The table as written: "/" and "/login" have their pages, every other path the not-found page. */
  lemma AppRoutesLookup(path: string)
    ensures path == "/" ==> Match(AppRoutes, path) == Some(Plain(RootRedirectPage))
    ensures path == "/login" ==> Match(AppRoutes, path) == Some(Plain(LoginPage))
    ensures path != "/" && path != "/login" ==> Match(AppRoutes, path) == Some(Plain(NotFoundPage))
  {
    assert AppRoutes[1..][1..][1..] == [];
  }

  /** The intended table: two more declared paths, the dashboard behind the guard. */
  lemma IntendedRoutesLookup(path: string)
    ensures path == "/" ==> Match(IntendedRoutes, path) == Some(Plain(RootRedirectPage))
    ensures path == "/login" ==> Match(IntendedRoutes, path) == Some(Plain(LoginPage))
    ensures path == "/signup" ==> Match(IntendedRoutes, path) == Some(Plain(SignUpPage))
    ensures path == "/dashboard" ==> Match(IntendedRoutes, path) == Some(Guarded(DashboardPage))
    ensures path !in {"/", "/login", "/signup", "/dashboard"} ==> Match(IntendedRoutes, path) == Some(Plain(NotFoundPage))
  {
    assert IntendedRoutes[1..][1..][1..][1..][1..] == [];
  }

  /**
   * `RootRedirect`: a spinner and no navigation while loading, then a
   * replace-redirect to the dashboard or to the login page.
   */
  function RootRedirect(loading: bool, currentUser: Option<AuthContext.User>): (v: View<Page>)
    ensures !v.Render?
    ensures v.Spinner? <==> loading
    ensures v.Redirect? ==> v.replace && v.state.None?
    ensures v.Redirect? ==> (v.to == DefaultLanding <==> currentUser.Some?)
    ensures v.Redirect? ==> (v.to == LoginPath <==> currentUser.None?)
  {
    if loading then Spinner
    else if currentUser.Some? then Redirect(DefaultLanding, true, None)
    else Redirect(LoginPath, true, None)
  }

  /** `RootRedirect` sends to the login page exactly when the guard would have redirected. */
  lemma RootRedirectAgreesWithGuard(loading: bool, currentUser: Option<AuthContext.User>, location: Location)
    ensures var v := RootRedirect(loading, currentUser);
            var g := ProtectedRoute.Guard(loading, currentUser, location, DashboardPage);
            && (v.Spinner? <==> g.Spinner?)
            && (v == Redirect(LoginPath, true, None) <==> g.Redirect?)
  {
  }

  /** What is on screen at a location: the matched element, run through the guard when it is guarded. */
  function Screen(routes: seq<RouteEntry>, loading: bool, currentUser: Option<AuthContext.User>, location: Location): (r: Option<View<Page>>)
    ensures r.Some? <==> Match(routes, location.pathname).Some?
    ensures var m := Match(routes, location.pathname);
            m.Some? && m.value.Plain? && m.value.page != RootRedirectPage ==> r == Some(Render(m.value.page))
    ensures var m := Match(routes, location.pathname);
            m == Some(Plain(RootRedirectPage)) ==> r == Some(RootRedirect(loading, currentUser))
    ensures var m := Match(routes, location.pathname);
            m.Some? && m.value.Guarded? ==> r == Some(ProtectedRoute.Guard(loading, currentUser, location, m.value.page))
    ensures var m := Match(routes, location.pathname);
            m.Some? && m.value.Guarded? && !loading && currentUser.Some? ==> r == Some(Render(m.value.page))
    ensures var m := Match(routes, location.pathname);
            m.Some? && (m.value.Guarded? || m.value == Plain(RootRedirectPage)) ==> (r.value.Spinner? <==> loading)
    ensures var m := Match(routes, location.pathname);
            m.Some? && m.value.Guarded? && r.Some? && r.value.Render? ==>
              !loading && currentUser.Some? && r.value.content == m.value.page
    ensures var m := Match(routes, location.pathname);
            m.Some? && m.value.Guarded? && !loading && currentUser.None? ==>
              r == Some(Redirect(LoginPath, true, Some(RedirectIntent(Some(location)))))
  {
    match Match(routes, location.pathname)
    case None => None
    case Some(Plain(RootRedirectPage)) => Some(RootRedirect(loading, currentUser))
    case Some(Plain(page)) => Some(Render(page))
    case Some(Guarded(page)) => Some(ProtectedRoute.Guard(loading, currentUser, location, page))
  }

  /** Any path other than "/" and "/login" shows the not-found page, whatever the session. */
  lemma UnknownPathNotFound(loading: bool, currentUser: Option<AuthContext.User>, location: Location)
    requires location.pathname != "/" && location.pathname != LoginPath
    ensures Screen(AppRoutes, loading, currentUser, location) == Some(Render(NotFoundPage))
  {
    AppRoutesLookup(location.pathname);
  }

  /**
   * As written, a signed-in visitor at "/" is sent to "/dashboard", which the
   * table resolves to the not-found page; `ProtectedRoute` is never reached.
   */
  lemma SignedInRootLandsOnNotFound(user: AuthContext.User, root: Location)
    requires root.pathname == "/"
    ensures var v := RootRedirect(false, Some(user));
            && Screen(AppRoutes, false, Some(user), root) == Some(v)
            && v.Redirect?
            && Screen(AppRoutes, false, Some(user), Location(v.to, v.state)) == Some(Render(NotFoundPage))
  {
    AppRoutesLookup("/");
    AppRoutesLookup(DefaultLanding);
  }

  /**
   * With the intended table: a visitor at "/dashboard" with no session is
   * redirected to the login page carrying the path, the login page resolves
   * its target back to "/dashboard", and once signed in the dashboard renders.
   */
  lemma IntendedDashboardRoundTrip(user: AuthContext.User, state: Option<RedirectIntent>)
    ensures var requested := Location(DefaultLanding, state);
            var v := Screen(IntendedRoutes, false, None, requested);
            && v == Some(Redirect(LoginPath, true, Some(RedirectIntent(Some(requested)))))
            && Screen(IntendedRoutes, false, None, Location(v.value.to, v.value.state)) == Some(Render(LoginPage))
            && RedirectTarget(Location(v.value.to, v.value.state)) == DefaultLanding
            && Screen(IntendedRoutes, false, Some(user), Location(DefaultLanding, None)) == Some(Render(DashboardPage))
  {
    var requested := Location(DefaultLanding, state);
    IntendedDashboardScreen(false, None, requested);
    IntendedDashboardScreen(false, Some(user), Location(DefaultLanding, None));
    IntendedRoutesLookup(LoginPath);
  }

  /** With the intended table "/dashboard" is the dashboard behind the guard. */
  lemma IntendedDashboardScreen(loading: bool, currentUser: Option<AuthContext.User>, location: Location)
    requires location.pathname == DefaultLanding
    ensures Screen(IntendedRoutes, loading, currentUser, location) ==
              Some(ProtectedRoute.Guard(loading, currentUser, location, DashboardPage))
  {
    IntendedRoutesLookup(DefaultLanding);
  }

  /** With the intended table every path the application itself navigates to has a page of its own. */
  lemma IntendedTargetsResolve(path: string)
    requires path in {"/", LoginPath, "/signup", DefaultLanding}
    ensures Match(IntendedRoutes, path).Some?
    ensures Match(IntendedRoutes, path).value.page != NotFoundPage
  {
    IntendedRoutesLookup(path);
  }
}
