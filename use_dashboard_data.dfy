/**
 * `useDashboardData`: the current user as the context holds it, the whole
 * days elapsed since the account was created, and the sign-out handler.
 *
 * The handler reads `signOut` from the context value. The context as
 * written has no such member, so the call throws inside the handler's own
 * `try` and it never navigates; given a context that does provide it, the
 * handler navigates to the login page exactly when the sign-out resolves.
 */
module UseDashboardData {
  import opened Outcomes
  import opened Router
  import AuthContext

  /** Milliseconds in a day: 1000 * 60 * 60 * 24. */
  const MsPerDay: int := 1000 * 60 * 60 * 24

  /** The account creation time, when there is a user and it has one. */
  function CreationTime(currentUser: Option<AuthContext.User>): Option<int>
  {
    match currentUser
    case None => None
    case Some(user) => user.metadata.creationTime
  }

  /**
   * `daysActive`: 0 without a user or creation time, otherwise the elapsed
   * milliseconds floor-divided by a day (toward minus infinity, also when
   * the clock is behind the creation time).
   */
  function DaysActive(currentUser: Option<AuthContext.User>, now: int): (days: int)
    ensures CreationTime(currentUser).None? ==> days == 0
    ensures CreationTime(currentUser).Some? ==>
              var elapsed := now - CreationTime(currentUser).value;
              days * MsPerDay <= elapsed < (days + 1) * MsPerDay
  {
    match CreationTime(currentUser)
    case None => 0
    case Some(created) => (now - created) / MsPerDay
  }

  /** `daysActive` is k exactly when the elapsed time lies in [k days, k + 1 days). */
  lemma DaysActiveExactly(currentUser: Option<AuthContext.User>, now: int, k: int)
    requires CreationTime(currentUser).Some?
    ensures var elapsed := now - CreationTime(currentUser).value;
            DaysActive(currentUser, now) == k <==> k * MsPerDay <= elapsed < (k + 1) * MsPerDay
  {
  }

  /** Never negative once the clock has reached the creation time. */
  lemma DaysActiveNonNegative(currentUser: Option<AuthContext.User>, now: int)
    requires CreationTime(currentUser).Some? ==> now >= CreationTime(currentUser).value
    ensures DaysActive(currentUser, now) >= 0
  {
  }

  /** Non-decreasing as the clock advances. */
  lemma DaysActiveMonotone(currentUser: Option<AuthContext.User>, now: int, later: int)
    requires now <= later
    ensures DaysActive(currentUser, now) <= DaysActive(currentUser, later)
  {
  }

  /** What the hook hands to the dashboard page. */
  datatype DashboardData = DashboardData(currentUser: Option<AuthContext.User>, daysActive: int)

  /** The user is passed through exactly as the context holds it. */
  function UseDashboard(context: AuthContext.ContextValue, now: int): (d: DashboardData)
    ensures d.currentUser == context.currentUser
    ensures d.daysActive == DaysActive(context.currentUser, now)
  {
    DashboardData(context.currentUser, DaysActive(context.currentUser, now))
  }

  const SignOutMember: string := "signOut"
  /** What calling an undefined member throws. */
  const NotAFunction: AuthContext.AuthError := AuthContext.AuthError("signOut is not a function")

  /**
   * How `await signOut()` settles against a context with these members:
   * the remote sign-out's outcome when the member exists, a thrown
   * `TypeError` when it does not.
   */
  function SignOutSettled(members: set<string>, remote: Result<(), AuthContext.AuthError>): (r: Result<(), AuthContext.AuthError>)
    ensures SignOutMember !in members ==> r == Err(NotAFunction)
    ensures SignOutMember in members ==> r == remote
  {
    if SignOutMember in members then remote else Err(NotAFunction)
  }

  /** As written the context has no `signOut`: every sign-out attempt fails, whatever the provider would do. */
  lemma SignOutAsWrittenAlwaysFails(remote: Result<(), AuthContext.AuthError>)
    ensures SignOutSettled(AuthContext.ContextMembers, remote) == Err(NotAFunction)
  {
  }

  /** With `signOut` in the context, the attempt settles exactly as the remote sign-out does. */
  lemma SignOutProvidedFollowsRemote(remote: Result<(), AuthContext.AuthError>)
    ensures SignOutSettled(AuthContext.ContextMembers + {SignOutMember}, remote).Ok? <==> remote.Ok?
  {
  }

  class DashboardHook {
    const history: History
    /** The members of the context value the hook reads. */
    const members: set<string>

    constructor (history: History, members: set<string>)
      ensures this.history == history && this.members == members
    {
      this.history := history;
      this.members := members;
    }

    /**
     * `handleSignOut`: await the sign-out, then push "/login"; a failure is
     * caught and there is no navigation.
     */
    method HandleSignOut(remote: Result<(), AuthContext.AuthError>)
      requires history.Valid()
      modifies history`entries
      ensures history.Valid()
      ensures history.entries ==
                if SignOutSettled(members, remote).Ok? then Navigated(old(history.entries), LoginPath, false, None)
                else old(history.entries)
    {
      var r: Result<(), AuthContext.AuthError>;
      if SignOutMember in members {
        r := remote;
      } else {
        r := Err(NotAFunction);
      }
      if r.Ok? {
        history.Navigate(LoginPath, false, None);
      }
    }
  }
}
