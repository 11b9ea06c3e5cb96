/**
 * `ProtectedRoute`: spinner while loading, a replace-redirect to the login
 * page carrying the requested location when nobody is signed in, the
 * children otherwise.
 */
module ProtectedRoute {
  import opened Outcomes
  import opened Router
  import AuthContext

  /** The guard's decision, as a function of `loading`, `currentUser` and the current location. */
  function Guard<C>(loading: bool, currentUser: Option<AuthContext.User>, location: Location, children: C): (v: View<C>)
    ensures v.Spinner? <==> loading
    ensures v.Redirect? <==> !loading && currentUser.None?
    ensures v.Render? <==> !loading && currentUser.Some?
    ensures v.Redirect? ==> v == Redirect(LoginPath, true, Some(RedirectIntent(Some(location))))
    ensures v.Render? ==> v.content == children
  {
    if loading then Spinner
    else if currentUser.None? then Redirect(LoginPath, true, Some(RedirectIntent(Some(location))))
    else Render(children)
  }

  /** Access to protected content: undecided, denied, granted. */
  datatype Access = Pending | Denied | Granted

  /** The access state an authentication state stands for. */
  function AccessOf(s: AuthContext.AuthState): Access
  {
    if s.loading then Pending
    else if s.currentUser.None? then Denied
    else Granted
  }

  /** The guard shows a spinner, redirects or renders exactly as access is pending, denied or granted. */
  lemma GuardFollowsAccess<C>(s: AuthContext.AuthState, location: Location, children: C)
    ensures var v := Guard(s.loading, s.currentUser, location, children);
            && (v.Spinner? <==> AccessOf(s) == Pending)
            && (v.Redirect? <==> AccessOf(s) == Denied)
            && (v.Render? <==> AccessOf(s) == Granted)
  {
  }

  /** Which user is signed in never changes the decision, only whether one is. */
  lemma GuardSeesOnlyPresence<C>(loading: bool, u1: AuthContext.User, u2: AuthContext.User, location: Location, children: C)
    ensures Guard(loading, Some(u1), location, children) == Guard(loading, Some(u2), location, children)
  {
  }

  /**
   * Starting from mount, access is pending until the first auth-state event
   * and never pending again afterwards; from then on it is denied or granted
   * as the latest event delivered no user or a user.
   */
  lemma AccessAfterEvents(persisted: map<string, string>, actions: seq<AuthContext.Action>)
    ensures var s := AuthContext.Run(AuthContext.Initial(persisted), actions);
            AccessOf(s) == Pending <==> !AuthContext.SawEvent(actions)
    ensures var s := AuthContext.Run(AuthContext.Initial(persisted), actions);
            AuthContext.SawEvent(actions) ==>
              exists i :: 0 <= i < |actions| && actions[i].AuthStateChanged?
                          && (forall j :: i < j < |actions| ==> !actions[j].AuthStateChanged?)
                          && (AccessOf(s) == Denied <==> actions[i].user.None?)
                          && (AccessOf(s) == Granted <==> actions[i].user.Some?)
  {
    AuthContext.RunLoading(AuthContext.Initial(persisted), actions);
    AuthContext.RunUser(AuthContext.Initial(persisted), actions);
  }

  /**
   * The redirect round trip: the login page reached through the guard's
   * redirect resolves its post-login target to the requested path.
   */
  lemma GuardRedirectReturns<C>(location: Location, children: C)
    requires location.pathname != ""
    ensures var v := Guard(false, None, location, children);
            v.Redirect? && RedirectTarget(Location(v.to, v.state)) == location.pathname
  {
  }
}
