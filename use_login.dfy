/** `useLogin`: the login page's submission hook, exposing `loading` and `handleLogin`. */
module UseLogin {
  import opened Outcomes
  import opened Router
  import AuthContext
  import opened HookEffects

  datatype LoginFormValues = LoginFormValues(email: string, password: string)

  class LoginHook {
    const auth: AuthContext.AuthProvider
    const history: History
    /** The redirect target resolved from the location of this render. */
    const from: string
    var loading: bool
    /** The hook's effects so far, in the order they happened. */
    ghost var trace: seq<Effect>

    /** `loading` is what the `setLoading` calls recorded in the trace left it at. */
    ghost predicate Valid()
      reads this
    {
      loading == LoadingAfter(false, trace)
    }

    constructor (auth: AuthContext.AuthProvider, history: History)
      requires history.Valid()
      ensures this.auth == auth && this.history == history
      ensures from == RedirectTarget(history.Current())
      ensures !loading && trace == [] && Valid()
    {
      this.auth := auth;
      this.history := history;
      from := RedirectTarget(history.Current());
      loading := false;
      trace := [];
    }

    /**
     * `handleLogin(values)`: loading on, `signIn` (never `signUp`), a
     * replace-navigation to the target only if it resolved, loading off on
     * every outcome; a failure is swallowed.
     */
    method HandleLogin(values: LoginFormValues, credential: Result<AuthContext.UserCredential, AuthContext.AuthError>,
                       idToken: Result<string, AuthContext.AuthError>)
      requires history.Valid()
      modifies this`loading, this`trace, auth`store, auth`requests, history`entries
      ensures history.Valid()
      ensures !loading && Valid()
      ensures trace == old(trace) + Submission(
                AuthContext.Requests(AuthContext.SignInWithEmailAndPassword(values.email, values.password), credential),
                if AuthContext.Settle(old(auth.store), credential, idToken).result.Ok?
                then [Navigation(from, true)]
                else [])
      ensures auth.State() == AuthContext.Step(old(auth.State()),
                AuthContext.SignInAttempt(values.email, values.password, credential, idToken))
      ensures auth.requests == old(auth.requests) + AuthContext.Requests(
                AuthContext.SignInWithEmailAndPassword(values.email, values.password), credential)
      ensures history.entries ==
                if AuthContext.Settle(old(auth.store), credential, idToken).result.Ok?
                then Navigated(old(history.entries), from, true, None)
                else old(history.entries)
    {
      ghost var call := AuthContext.SignInWithEmailAndPassword(values.email, values.password);
      ghost var ok := AuthContext.Settle(auth.store, credential, idToken).result.Ok?;
      ghost var navigation: seq<Effect> := [];
      ghost var start := trace;
      loading := true;
      trace := trace + [SetLoading(true)];
      ghost var sent := auth.requests;
      var r := auth.SignIn(values.email, values.password, credential, idToken);
      assert auth.requests[|sent|..] == AuthContext.Requests(call, credential);
      trace := trace + Requested(auth.requests[|sent|..]);
      assert r.Ok? == ok;
      if r.Ok? {
        history.Navigate(from, true, None);
        navigation := [Navigation(from, true)];
        trace := trace + navigation;
      }
      loading := false;
      trace := trace + [SetLoading(false)];
      SubmissionAppended(start, AuthContext.Requests(call, credential), navigation);
    }
  }
}
