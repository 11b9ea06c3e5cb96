/**
 * `useAuthForm(mode)`: the combined login/sign-up submission hook. It
 * resolves the post-login target once per render and exposes `form`,
 * `loading` and `onFinish` only.
 */
module UseAuthForm {
  import opened Outcomes
  import opened Router
  import AuthContext
  import opened HookEffects

  datatype Mode = LoginMode | SignUpMode

  /** The names the hook returns. */
  const Returned: set<string> := {"form", "loading", "onFinish"}

  /** Where a successful submission navigates: the resolved target when logging in, the dashboard after signing up. */
  function Destination(mode: Mode, from: string): (to: string)
    ensures mode == SignUpMode ==> to == DefaultLanding
    ensures mode == LoginMode ==> to == from
  {
    if mode == LoginMode then from else DefaultLanding
  }

  /** The provider operation a submission in this mode performs. */
  function Attempt(mode: Mode, email: string, password: string, credential: Result<AuthContext.UserCredential, AuthContext.AuthError>,
                   idToken: Result<string, AuthContext.AuthError>): (a: AuthContext.Action)
    ensures mode.LoginMode? <==> a.SignInAttempt?
    ensures mode.SignUpMode? <==> a.SignUpAttempt?
    ensures !a.AuthStateChanged? && a.email == email && a.password == password
    ensures !a.AuthStateChanged? && a.credential == credential && a.idToken == idToken
  {
    if mode == LoginMode then AuthContext.SignInAttempt(email, password, credential, idToken)
    else AuthContext.SignUpAttempt(email, password, credential, idToken)
  }

  /** The identity-provider request a submission in this mode starts with. */
  function Call(mode: Mode, email: string, password: string): (c: AuthContext.ProviderRequest)
    ensures mode.LoginMode? <==> c.SignInWithEmailAndPassword?
    ensures mode.SignUpMode? <==> c.CreateUserWithEmailAndPassword?
    ensures !c.GetIdToken? && c.email == email && c.password == password
  {
    if mode == LoginMode then AuthContext.SignInWithEmailAndPassword(email, password)
    else AuthContext.CreateUserWithEmailAndPassword(email, password)
  }

  /** The submitted values; the confirmation is not forwarded. */
  datatype AuthFormValues = AuthFormValues(email: string, password: string, confirmPassword: Option<string>)

  class AuthFormHook {
    const mode: Mode
    const auth: AuthContext.AuthProvider
    const history: History
    /** The redirect target resolved from the location of this render. */
    const from: string
    var loading: bool
    /** The hook's effects so far, in the order they happened. */
    ghost var trace: seq<Effect>

    /** `loading` is what the `setLoading` calls recorded in the trace left it at. */
    ghost predicate Valid()
      reads this
    {
      loading == LoadingAfter(false, trace)
    }

    constructor (mode: Mode, auth: AuthContext.AuthProvider, history: History)
      requires history.Valid()
      ensures this.mode == mode && this.auth == auth && this.history == history
      ensures from == RedirectTarget(history.Current())
      ensures !loading && trace == [] && Valid()
    {
      this.mode := mode;
      this.auth := auth;
      this.history := history;
      from := RedirectTarget(history.Current());
      loading := false;
      trace := [];
    }

    /**
     * `onFinish(values)`: loading on, the mode's provider operation, navigate
     * only if it resolved, loading off on every outcome; a failure is
     * swallowed, so the method always returns normally.
     */
    method OnFinish(values: AuthFormValues, credential: Result<AuthContext.UserCredential, AuthContext.AuthError>,
                    idToken: Result<string, AuthContext.AuthError>)
      requires history.Valid()
      modifies this`loading, this`trace, auth`store, auth`requests, history`entries
      ensures history.Valid()
      ensures !loading && Valid()
      ensures trace == old(trace) + Submission(
                AuthContext.Requests(Call(mode, values.email, values.password), credential),
                if AuthContext.Settle(old(auth.store), credential, idToken).result.Ok?
                then [Navigation(Destination(mode, from), mode == LoginMode)]
                else [])
      ensures auth.State() == AuthContext.Step(old(auth.State()), Attempt(mode, values.email, values.password, credential, idToken))
      ensures auth.requests == old(auth.requests) + AuthContext.Requests(Call(mode, values.email, values.password), credential)
      ensures history.entries ==
                if AuthContext.Settle(old(auth.store), credential, idToken).result.Ok?
                then Navigated(old(history.entries), Destination(mode, from), mode == LoginMode, None)
                else old(history.entries)
    {
      ghost var call := Call(mode, values.email, values.password);
      ghost var ok := AuthContext.Settle(auth.store, credential, idToken).result.Ok?;
      ghost var navigation: seq<Effect> := [];
      ghost var start := trace;
      loading := true;
      trace := trace + [SetLoading(true)];
      ghost var sent := auth.requests;
      var r;
      if mode == LoginMode {
        r := auth.SignIn(values.email, values.password, credential, idToken);
      } else {
        r := auth.SignUp(values.email, values.password, credential, idToken);
      }
      assert auth.requests[|sent|..] == AuthContext.Requests(call, credential);
      trace := trace + Requested(auth.requests[|sent|..]);
      assert r.Ok? == ok;
      if r.Ok? {
        var to := Destination(mode, from);
        history.Navigate(to, mode == LoginMode, None);
        navigation := [Navigation(to, mode == LoginMode)];
        trace := trace + navigation;
      }
      loading := false;
      trace := trace + [SetLoading(false)];
      SubmissionAppended(start, AuthContext.Requests(call, credential), navigation);
    }
  }
}
