/**
 * The authentication state holder (`AuthProvider`): the current user, the
 * initialisation `loading` flag, the session cache in local storage, the
 * auth-state listener, `signUp`, `signIn` and the `useAuth` guard.
 *
 * The identity provider's calls are not modelled; each operation takes the
 * settled results of the calls it awaits (`credential` for the create or
 * sign-in call, `idToken` for `getIdToken`) as parameters.
 */
module AuthContext {
  import opened Outcomes

  /** Account metadata; timestamps are milliseconds since the epoch, None when absent. */
  datatype Metadata = Metadata(creationTime: Option<int>, lastSignInTime: Option<int>)

  /** The identity the provider reports for a signed-in account. */
  datatype User = User(uid: string, email: Option<string>, emailVerified: bool, metadata: Metadata)

  /** What the create and sign-in calls resolve with. */
  datatype UserCredential = UserCredential(user: User)

  /** An error a call is rejected with. */
  datatype AuthError = AuthError(message: string)

  /** Local-storage keys of the cached session. */
  const AuthTokenKey: string := "authToken"
  const UserIdKey: string := "userId"

  const OutsideProviderMessage: string := "useAuth must be used within an AuthProvider"

  /** The members of the context value; there is no `signOut`. */
  const ContextMembers: set<string> := {"currentUser", "loading", "signUp", "signIn"}

  /** The part of the context value that is data. */
  datatype ContextValue = ContextValue(currentUser: Option<User>, loading: bool)

  /** `useAuth`: throws outside a provider, otherwise hands back the context value as it is. */
  function UseAuth(context: Option<ContextValue>): (r: Result<ContextValue, string>)
    ensures r.Ok? <==> context.Some?
    ensures r.Ok? ==> r.value == context.value
    ensures r.Err? ==> r.error == OutsideProviderMessage
  {
    match context
    case None => Err(OutsideProviderMessage)
    case Some(value) => Ok(value)
  }

  /** Requests the identity provider receives. */
  datatype ProviderRequest =
    | CreateUserWithEmailAndPassword(email: string, password: string)
    | SignInWithEmailAndPassword(email: string, password: string)
    | GetIdToken(uid: string)

  /** The requests of one `signUp`/`signIn`: the call itself, then `getIdToken` only if it resolved. */
  function Requests(call: ProviderRequest, credential: Result<UserCredential, AuthError>): seq<ProviderRequest>
  {
    [call] + if credential.Ok? then [GetIdToken(credential.value.user.uid)] else []
  }

  /** The local store with the session cached: the token and the user id. */
  function SessionStored(store: map<string, string>, token: string, uid: string): (m: map<string, string>)
    ensures m.Keys == store.Keys + {AuthTokenKey, UserIdKey}
    ensures m[AuthTokenKey] == token && m[UserIdKey] == uid
    ensures forall k :: k in store && k != AuthTokenKey && k != UserIdKey ==> m[k] == store[k]
  {
    store[AuthTokenKey := token][UserIdKey := uid]
  }

  /** How one `signUp` or `signIn` settles: what it returns or re-throws, and the store after it. */
  datatype Settled = Settled(result: Result<UserCredential, AuthError>, store: map<string, string>)

  /**
   * The shared body of `signUp` and `signIn`: the store is written only when
   * both the provider call and `getIdToken` resolve; otherwise the first
   * error is re-thrown and the store is as it was.
   */
  function Settle(store: map<string, string>, credential: Result<UserCredential, AuthError>,
                  idToken: Result<string, AuthError>): (s: Settled)
    ensures s.result.Ok? <==> credential.Ok? && idToken.Ok?
    ensures s.result.Ok? ==> s.result == credential
    ensures s.result.Ok? ==> s.store == SessionStored(store, idToken.value, credential.value.user.uid)
    ensures s.result.Err? ==> s.store == store
    ensures credential.Err? ==> s.result == Err(credential.error)
    ensures credential.Ok? && idToken.Err? ==> s.result == Err(idToken.error)
  {
    match credential
    case Err(e) => Settled(Err(e), store)
    case Ok(c) =>
      match idToken
      case Err(e) => Settled(Err(e), store)
      case Ok(token) => Settled(Ok(c), SessionStored(store, token, c.user.uid))
  }

  /** The provider's state: current user, initialisation flag, local store. */
  datatype AuthState = AuthState(currentUser: Option<User>, loading: bool, store: map<string, string>)

  /** On mount: nobody signed in yet, still loading; the store is whatever persisted. */
  function Initial(persisted: map<string, string>): AuthState
  {
    AuthState(None, true, persisted)
  }

  /** One thing that happens to the provider, in sequence. */
  datatype Action =
    | AuthStateChanged(user: Option<User>)
    | SignUpAttempt(email: string, password: string,
                    credential: Result<UserCredential, AuthError>, idToken: Result<string, AuthError>)
    | SignInAttempt(email: string, password: string,
                    credential: Result<UserCredential, AuthError>, idToken: Result<string, AuthError>)

  /**
   * The effect of one action: the listener replaces the user and clears
   * `loading`; `signUp` and `signIn` touch only the store.
   */
  function Step(s: AuthState, a: Action): (t: AuthState)
    ensures a.AuthStateChanged? ==> t.currentUser == a.user && !t.loading && t.store == s.store
    ensures !a.AuthStateChanged? ==> t.currentUser == s.currentUser && t.loading == s.loading
    ensures !a.AuthStateChanged? ==> t.store == Settle(s.store, a.credential, a.idToken).store
  {
    match a
    case AuthStateChanged(user) => s.(currentUser := user, loading := false)
    case SignUpAttempt(_, _, credential, idToken) => s.(store := Settle(s.store, credential, idToken).store)
    case SignInAttempt(_, _, credential, idToken) => s.(store := Settle(s.store, credential, idToken).store)
  }

  /** The state after a sequence of actions, applied in order. */
  function Run(s: AuthState, actions: seq<Action>): AuthState
    decreases |actions|
  {
    if actions == [] then s
    else Step(Run(s, actions[..|actions| - 1]), actions[|actions| - 1])
  }

  /** Some action in the sequence is an auth-state event. */
  predicate SawEvent(actions: seq<Action>)
  {
    exists i :: 0 <= i < |actions| && actions[i].AuthStateChanged?
  }

  /** An action whose provider call and token request both resolved. */
  predicate Authenticated(a: Action)
  {
    !a.AuthStateChanged? && a.credential.Ok? && a.idToken.Ok?
  }

  lemma SawEventSnoc(actions: seq<Action>)
    requires actions != []
    ensures SawEvent(actions) <==>
              SawEvent(actions[..|actions| - 1]) || actions[|actions| - 1].AuthStateChanged?
  {
    var init := actions[..|actions| - 1];
    if SawEvent(init) {
      var i :| 0 <= i < |init| && init[i].AuthStateChanged?;
      assert actions[i] == init[i];
    }
    if SawEvent(actions) {
      var i :| 0 <= i < |actions| && actions[i].AuthStateChanged?;
      if i < |init| {
        assert init[i] == actions[i];
      }
    }
  }

  /**
   * `loading` is still true after a sequence exactly when it was true before
   * and no auth-state event arrived: the first event clears it for good.
   */
  lemma {:induction false} RunLoading(s: AuthState, actions: seq<Action>)
    ensures Run(s, actions).loading <==> s.loading && !SawEvent(actions)
    decreases |actions|
  {
    if actions != [] {
      RunLoading(s, actions[..|actions| - 1]);
      SawEventSnoc(actions);
    }
  }

  /** Once `loading` is false it stays false, whatever comes next. */
  lemma LoadingNeverReverts(s: AuthState, actions: seq<Action>, i: nat, j: nat)
    requires i <= j <= |actions|
    requires !Run(s, actions[..i]).loading
    ensures !Run(s, actions[..j]).loading
  {
    RunLoading(s, actions[..i]);
    RunLoading(s, actions[..j]);
    if SawEvent(actions[..i]) {
      var k :| 0 <= k < i && actions[..i][k].AuthStateChanged?;
      assert actions[..j][k] == actions[..i][k];
    }
  }

  /**
   * The current user after a sequence is the one delivered by the latest
   * auth-state event, or the one before the sequence when there was none.
   */
  lemma {:induction false} RunUser(s: AuthState, actions: seq<Action>)
    ensures !SawEvent(actions) ==> Run(s, actions).currentUser == s.currentUser
    ensures SawEvent(actions) ==>
              exists i :: 0 <= i < |actions| && actions[i].AuthStateChanged?
                          && Run(s, actions).currentUser == actions[i].user
                          && forall j :: i < j < |actions| ==> !actions[j].AuthStateChanged?
    decreases |actions|
  {
    if actions != [] {
      var n := |actions| - 1;
      var init := actions[..n];
      RunUser(s, init);
      SawEventSnoc(actions);
      if actions[n].AuthStateChanged? {
        assert Run(s, actions).currentUser == actions[n].user;
      } else if SawEvent(init) {
        var i :| 0 <= i < |init| && init[i].AuthStateChanged?
                 && Run(s, init).currentUser == init[i].user
                 && forall j :: i < j < |init| ==> !init[j].AuthStateChanged?;
        assert actions[i] == init[i];
        forall j | i < j < |actions|
          ensures !actions[j].AuthStateChanged?
        {
          if j < n {
            assert actions[j] == init[j];
          }
        }
      }
    }
  }

  /** The store changes only through a sign-up or sign-in whose two calls both resolved. */
  lemma {:induction false} RunStoreUntouched(s: AuthState, actions: seq<Action>)
    requires forall i :: 0 <= i < |actions| ==> !Authenticated(actions[i])
    ensures Run(s, actions).store == s.store
    decreases |actions|
  {
    if actions != [] {
      var init := actions[..|actions| - 1];
      forall i | 0 <= i < |init|
        ensures !Authenticated(init[i])
      {
        assert init[i] == actions[i];
      }
      RunStoreUntouched(s, init);
    }
  }

  /**
   * A successful sign-in followed by the event that reports the same user
   * leaves the current user, the cached user id and the cached token in
   * agreement.
   */
  lemma SignInThenEventAgrees(s: AuthState, email: string, password: string, c: UserCredential, token: string)
    ensures var t := Run(s, [SignInAttempt(email, password, Ok(c), Ok(token)), AuthStateChanged(Some(c.user))]);
            && t.currentUser == Some(c.user)
            && !t.loading
            && UserIdKey in t.store && t.store[UserIdKey] == c.user.uid
            && AuthTokenKey in t.store && t.store[AuthTokenKey] == token
  {
  }

  /** The provider component: the state React holds, and the local store it writes. */
  class AuthProvider {
    var currentUser: Option<User>
    var loading: bool
    var store: map<string, string>
    /** Requests sent to the identity provider so far, in order. */
    ghost var requests: seq<ProviderRequest>

    function State(): AuthState
      reads this
    {
      AuthState(currentUser, loading, store)
    }

    /** The context value handed to consumers. */
    function Value(): (v: ContextValue)
      reads this
      ensures UseAuth(Some(v)).Ok?
      ensures UseAuth(Some(v)).value.currentUser == currentUser && UseAuth(Some(v)).value.loading == loading
    {
      ContextValue(currentUser, loading)
    }

    /** Mount: `currentUser` starts null and `loading` true. */
    constructor (persisted: map<string, string>)
      ensures State() == Initial(persisted)
      ensures requests == []
    {
      currentUser := None;
      loading := true;
      store := persisted;
      requests := [];
    }

    /** The `onAuthStateChanged` callback; as `Step` says, it never sets `loading` back to true. */
    method OnAuthStateChanged(user: Option<User>)
      modifies this`currentUser, this`loading
      ensures State() == Step(old(State()), AuthStateChanged(user))
    {
      currentUser := user;
      loading := false;
    }

    /** `signUp(email, password)`: create the account, fetch its token, cache both, return the credential. */
    method SignUp(email: string, password: string,
                  credential: Result<UserCredential, AuthError>, idToken: Result<string, AuthError>)
      returns (r: Result<UserCredential, AuthError>)
      modifies this`store, this`requests
      ensures r == Settle(old(store), credential, idToken).result
      ensures State() == Step(old(State()), SignUpAttempt(email, password, credential, idToken))
      ensures requests == old(requests) + Requests(CreateUserWithEmailAndPassword(email, password), credential)
    {
      r := Authenticate(CreateUserWithEmailAndPassword(email, password), credential, idToken);
    }

    /** `signIn(email, password)`: sign in, fetch the token, cache both, return the credential. */
    method SignIn(email: string, password: string,
                  credential: Result<UserCredential, AuthError>, idToken: Result<string, AuthError>)
      returns (r: Result<UserCredential, AuthError>)
      modifies this`store, this`requests
      ensures r == Settle(old(store), credential, idToken).result
      ensures State() == Step(old(State()), SignInAttempt(email, password, credential, idToken))
      ensures requests == old(requests) + Requests(SignInWithEmailAndPassword(email, password), credential)
    {
      r := Authenticate(SignInWithEmailAndPassword(email, password), credential, idToken);
    }

    /** The awaits both operations share: provider call, `getIdToken`, two store writes. */
    method Authenticate(call: ProviderRequest,
                        credential: Result<UserCredential, AuthError>, idToken: Result<string, AuthError>)
      returns (r: Result<UserCredential, AuthError>)
      modifies this`store, this`requests
      ensures r == Settle(old(store), credential, idToken).result
      ensures store == Settle(old(store), credential, idToken).store
      ensures requests == old(requests) + Requests(call, credential)
    {
      requests := requests + [call];
      match credential {
        case Err(e) =>
          r := Err(e);
        case Ok(c) =>
          requests := requests + [GetIdToken(c.user.uid)];
          match idToken {
            case Err(e) =>
              r := Err(e);
            case Ok(token) =>
              store := store[AuthTokenKey := token];
              store := store[UserIdKey := c.user.uid];
              r := Ok(c);
          }
      }
    }
  }
}
