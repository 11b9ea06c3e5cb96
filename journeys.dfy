/**
 * Whole journeys through the application, driving the provider, the
 * history and the hooks together as the pages do.
 */
module Journeys {
  import opened Outcomes
  import opened Router
  import AuthContext
  import App
  import UseLogin
  import UseAuthForm
  import UseDashboardData

  /**
   * With the intended route table: once the provider has reported that no
   * one is signed in, a visit to "/dashboard" is replaced by "/login",
   * carrying the requested location as the intent.
   */
  method SignedOutVisitToDashboard() returns (auth: AuthContext.AuthProvider, history: History)
    ensures fresh(auth) && fresh(history)
    ensures auth.State() == AuthContext.AuthState(None, false, map[]) && auth.requests == []
    ensures history.entries == [Location(LoginPath, Some(RedirectIntent(Some(Location(DefaultLanding, None)))))]
  {
    auth := new AuthContext.AuthProvider(map[]);
    auth.OnAuthStateChanged(None);
    history := new History(Location(DefaultLanding, None));
    var requested := history.Current();
    App.IntendedDashboardScreen(false, None, requested);
    var first := App.Screen(App.IntendedRoutes, auth.loading, auth.currentUser, requested);
    history.Follow(first.value);
  }

  /**
   * With the intended route table: a signed-out visitor opens "/dashboard",
   * the guard replaces it with "/login" carrying the intent, the login
   * succeeds and replaces "/login" with "/dashboard", and once the provider
   * reports the user the dashboard renders. Both navigations replace, so
   * the history holds a single entry. The provider's auth-state event is
   * taken to be handled before the page re-renders at "/dashboard";
   * `RenderBeforeEventRedirects` shows the other order.
   */
  method IntendedLoginReturnsToDashboard(user: AuthContext.User, token: string, email: string, password: string)
    returns (entries: seq<Location>, screen: Option<View<App.Page>>)
    ensures entries == [Location(DefaultLanding, None)]
    ensures screen == Some(Render(App.DashboardPage))
  {
    var auth, history := SignedOutVisitToDashboard();
    var hook := new UseLogin.LoginHook(auth, history);
    assert hook.from == DefaultLanding;
    var credential := AuthContext.UserCredential(user);
    assert AuthContext.Settle(auth.store, Ok(credential), Ok(token)).result.Ok?;
    hook.HandleLogin(UseLogin.LoginFormValues(email, password), Ok(credential), Ok(token));
    entries := history.entries;
    assert entries == [Location(DefaultLanding, None)];
    var here := history.Current();
    assert here == Location(DefaultLanding, None);
    auth.OnAuthStateChanged(Some(user));
    App.IntendedDashboardScreen(false, Some(user), here);
    screen := App.Screen(App.IntendedRoutes, auth.loading, auth.currentUser, here);
  }

  /**
   * With the route table as written the same visit never reaches the guard:
   * "/dashboard" shows the not-found page and nothing navigates.
   */
  method AsWrittenDashboardIsNotFound(loading: bool, currentUser: Option<AuthContext.User>)
    returns (screen: Option<View<App.Page>>)
    ensures screen == Some(Render(App.NotFoundPage))
  {
    App.AppRoutesLookup(DefaultLanding);
    screen := App.Screen(App.AppRoutes, loading, currentUser, Location(DefaultLanding, None));
  }

  /**
   * Signing up from a login page that carries an intent still lands on
   * "/dashboard", pushed on top of the sign-up page.
   */
  method SignUpIgnoresIntent(user: AuthContext.User, token: string, intended: Location, email: string, password: string)
    returns (entries: seq<Location>)
    ensures |entries| == 2
    ensures entries[1] == Location(DefaultLanding, None)
  {
    var auth := new AuthContext.AuthProvider(map[]);
    var history := new History(Location("/signup", Some(RedirectIntent(Some(intended)))));
    var hook := new UseAuthForm.AuthFormHook(UseAuthForm.SignUpMode, auth, history);
    hook.OnFinish(UseAuthForm.AuthFormValues(email, password, Some(password)),
                  Ok(AuthContext.UserCredential(user)), Ok(token));
    entries := history.entries;
  }

  /** A failed login leaves the history, the store and the user as they were, and clears the loading flag. */
  method FailedLoginChangesNothing(error: AuthContext.AuthError, email: string, password: string, start: Location)
    returns (entries: seq<Location>, store: map<string, string>, loading: bool)
    ensures entries == [start] && store == map[] && !loading
  {
    var auth := new AuthContext.AuthProvider(map[]);
    var history := new History(start);
    var hook := new UseLogin.LoginHook(auth, history);
    hook.HandleLogin(UseLogin.LoginFormValues(email, password), Err(error), Err(error));
    entries, store, loading := history.entries, auth.store, hook.loading;
  }

  /**
   * If "/dashboard" renders after the login resolved but before the
   * provider's auth-state event, the guard still sees no user and sends the
   * visitor back to "/login", carrying "/dashboard" as the intent.
   */
  method RenderBeforeEventRedirects(user: AuthContext.User, token: string, email: string, password: string)
    returns (screen: Option<View<App.Page>>)
    ensures screen == Some(Redirect(LoginPath, true, Some(RedirectIntent(Some(Location(DefaultLanding, None))))))
  {
    var auth := new AuthContext.AuthProvider(map[]);
    auth.OnAuthStateChanged(None);
    var history := new History(Location(LoginPath, None));
    var hook := new UseLogin.LoginHook(auth, history);
    hook.HandleLogin(UseLogin.LoginFormValues(email, password), Ok(AuthContext.UserCredential(user)), Ok(token));
    App.IntendedDashboardScreen(auth.loading, auth.currentUser, Location(DefaultLanding, None));
    screen := App.Screen(App.IntendedRoutes, auth.loading, auth.currentUser, Location(DefaultLanding, None));
  }

  /**
   * The dashboard's sign-out handler, built over the context as written,
   * never navigates: whatever the provider would do, the history is left
   * as it was.
   */
  method AsWrittenSignOutStaysPut(start: Location, remote: Result<(), AuthContext.AuthError>)
    returns (entries: seq<Location>)
    ensures entries == [start]
  {
    var history := new History(start);
    var dashboard := new UseDashboardData.DashboardHook(history, AuthContext.ContextMembers);
    UseDashboardData.SignOutAsWrittenAlwaysFails(remote);
    dashboard.HandleSignOut(remote);
    entries := history.entries;
  }

  /** Over a context that provides `signOut`, a sign-out that succeeds pushes "/login". */
  method ProvidedSignOutPushesLogin(start: Location) returns (entries: seq<Location>)
    ensures entries == [start, Location(LoginPath, None)]
  {
    var history := new History(start);
    var dashboard := new UseDashboardData.DashboardHook(history, AuthContext.ContextMembers + {UseDashboardData.SignOutMember});
    dashboard.HandleSignOut(Ok(()));
    entries := history.entries;
  }
}
