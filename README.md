# react-auth: authentication state, route guard and submission handlers

A Dafny model of the logic the react-auth single-page application owns on top
of its hosted identity provider:

- **The auth state holder** (`AuthProvider`): the current user, the
  initialisation `loading` flag, the session cache in local storage
  (`authToken`, `userId`), the auth-state listener, `signUp`, `signIn`, and the
  `useAuth` guard. Modelled as the class `AuthContext.AuthProvider`, specified
  against a pure state machine (`AuthState`, `Step`, `Run`) about which the
  history properties are proved.
- **Routing decisions**: the `ProtectedRoute` guard (spinner, replace-redirect
  to `/login` carrying the requested location, or the children), the
  `RootRedirect` dispatcher, and the route table as data with React Router's
  rule that a declared path outranks the catch-all.
- **Submission handlers**: `useAuthForm` and `useLogin` are classes holding
  the hook's `loading` flag and a ghost trace of their effects in the order
  they happen (`setLoading` calls, provider requests, navigations), over a
  `History` of locations that `navigate` pushes onto or replaces the top of;
  the contracts fix that order. `handleSignOut` belongs to a class over the
  `History` alone, since `useDashboardData` keeps no `loading` state.
- **Days active**: elapsed milliseconds floor-divided by 86 400 000, 0 without
  a creation time.
- **Form validation**: the sign-up and login rule lists as data, what
  validation makes of them, and the acceptance predicate they amount to.

The identity provider's calls are not executed: every operation that awaits
one takes its settled result (`Result<T, AuthError>`) as a parameter, so each
proof covers both success and failure. Requests sent to the provider are
recorded in a ghost log so that "only `signIn` is called" can be stated.

Where the design intent and the code differ, the model follows the code: the
context exposes no `signOut`, so nothing in the application ends the session
and nothing ever clears the cached `authToken` and `userId` (the listener only
sets the current user to null when the provider reports a sign-out);
`signIn`/`signUp` never set the current user themselves, only the listener
does; and `loading` is cleared by every event, not only the first (the effect
is the same, since nothing sets it back).

## Model

| member | source | states |
|---|---|---|
| AuthContext.UseAuth | react-auth/src/context/AuthContext.tsx:32-41 | Fails with "useAuth must be used within an AuthProvider" exactly when no provider value is present; otherwise returns that value unchanged. |
| AuthContext.SessionStored | react-auth/src/context/AuthContext.tsx:67-69 | Caching a session sets `authToken` to the token and `userId` to the uid and leaves every other key as it was. |
| AuthContext.Settle | react-auth/src/context/AuthContext.tsx:59-104 | `signUp`/`signIn` succeed exactly when both the provider call and `getIdToken` resolve, then return the same credential and cache its token and uid; otherwise they re-throw the first error and the store is unchanged. |
| AuthContext.Step | react-auth/src/context/AuthContext.tsx:109-114 | An auth-state event sets the user to exactly the delivered one and clears `loading`; `signUp`/`signIn` never touch the user or `loading`, only the store. |
| AuthContext.RunLoading | react-auth/src/context/AuthContext.tsx:51-54 | After any sequence of events and operations, `loading` is true exactly when it was before and no auth-state event arrived. |
| AuthContext.LoadingNeverReverts | react-auth/src/context/AuthContext.tsx:113 | Once `loading` is false after some prefix of a history, it is false after every longer prefix. |
| AuthContext.RunUser | react-auth/src/context/AuthContext.tsx:111-112 | The current user after a sequence is the one delivered by the latest auth-state event, or the previous one when there was no event. |
| AuthContext.RunStoreUntouched | react-auth/src/context/AuthContext.tsx:62-69 | The store changes only through a sign-up or sign-in whose provider call and token request both resolved. |
| AuthContext.SignInThenEventAgrees | react-auth/src/context/AuthContext.tsx:88-98 | A successful sign-in followed by the event reporting its user leaves the current user, cached user id and cached token in agreement. |
| AuthContext.AuthProvider.constructor | react-auth/src/context/AuthContext.tsx:49-54 | On mount `currentUser` is null, `loading` is true, and the store is whatever persisted. |
| AuthContext.AuthProvider.OnAuthStateChanged | react-auth/src/context/AuthContext.tsx:111-114 | The listener callback performs one `Step` with the delivered user and never sets `loading` back to true. |
| AuthContext.AuthProvider.SignUp | react-auth/src/context/AuthContext.tsx:59-80 | Returns or re-throws as `Settle` says, changes state as `Step` says, and sends `createUserWithEmailAndPassword` then, only on success, `getIdToken`. |
| AuthContext.AuthProvider.SignIn | react-auth/src/context/AuthContext.tsx:85-104 | Same as `SignUp` with `signInWithEmailAndPassword` as the provider call. |
| AuthContext.AuthProvider.Authenticate | react-auth/src/context/AuthContext.tsx:88-93 | The shared awaits: the two store writes happen only after both calls resolve. |
| AuthContext.AuthProvider.Value | react-auth/src/context/AuthContext.tsx:123-128 | A consumer inside the provider reads exactly the provider's current `currentUser` and `loading`. |
| Router.RedirectTarget | react-auth/src/hooks/Login/useLogin.ts:36 | The post-login target (also `useAuthForm.tsx:45`) is the carried `from.pathname` when present and non-empty, otherwise "/dashboard"; never empty. |
| Router.Navigated | react-auth/src/hooks/SignUp/useAuthForm.tsx:57-63 | `navigate` with replace swaps the current entry for the new location, without it pushes one; the new location is current. |
| Router.History.Navigate | react-auth/src/hooks/Login/useLogin.ts:49 | The history after a navigation is `Navigated` of the old one. |
| Router.History.Follow | react-auth/src/components/ProtectedRoute.tsx:49 | Rendering a `<Navigate>` element navigates with its target, replace flag and state; other views leave history alone. |
| ProtectedRoute.Guard | react-auth/src/components/ProtectedRoute.tsx:19-55 | Exactly one outcome: spinner iff loading; otherwise a replace-redirect to "/login" carrying `from` = the current location iff there is no user; otherwise the children unchanged. |
| ProtectedRoute.GuardFollowsAccess | react-auth/src/components/ProtectedRoute.tsx:29-54 | The guard's outcome is spinner, redirect or render exactly as access is pending, denied or granted. |
| ProtectedRoute.GuardSeesOnlyPresence | react-auth/src/components/ProtectedRoute.tsx:48 | The decision depends on whether a user is present, not on which user. |
| ProtectedRoute.AccessAfterEvents | react-auth/src/components/ProtectedRoute.tsx:29-54 | From mount, access is pending exactly until the first auth-state event; after it, access is denied or granted exactly as the latest event delivered no user or a user. |
| ProtectedRoute.GuardRedirectReturns | react-auth/src/components/ProtectedRoute.tsx:48-50 | The login page reached through the guard's redirect resolves its post-login target to the requested path. |
| App.FindExact | react-auth/src/App.tsx:66-69 | Finds a route exactly when one is declared with that path, and returns the element of the first such route. |
| App.FindCatchAll | react-auth/src/App.tsx:73 | Finds the catch-all route exactly when one is declared, and returns the element of the first one. |
| App.Match | react-auth/src/App.tsx:64-74 | A route declared with the exact path wins; otherwise the catch-all's element. |
| App.AppRoutesLookup | react-auth/src/App.tsx:64-74 | As written: "/" gives `RootRedirect`, "/login" gives `Login`, every other path (including "/dashboard" and "/signup") gives `NotFound`, paths being compared exactly (see App.Match under Left out). |
| App.IntendedRoutesLookup | react-auth/src/App.tsx:64-74 | The intended table adds "/signup" and a guarded "/dashboard"; everything else is still `NotFound`. |
| App.RootRedirect | react-auth/src/App.tsx:21-42 | Spinner and no navigation while loading; then a replace-redirect without state, to "/dashboard" iff a user is present and to "/login" iff not. |
| App.RootRedirectAgreesWithGuard | react-auth/src/App.tsx:39-41 | `RootRedirect` sends to "/login" exactly when the guard would redirect, and spins exactly when it would. |
| App.UnknownPathNotFound | react-auth/src/App.tsx:73 | Any path other than "/" and "/login", compared exactly (see App.Match under Left out), shows the not-found page whatever the session. |
| App.SignedInRootLandsOnNotFound | react-auth/src/App.tsx:39-40 | As written, a signed-in visitor at "/" is redirected to "/dashboard", which shows the not-found page. |
| App.IntendedDashboardRoundTrip | react-auth/src/App.tsx:64-74 | With the intended table, a signed-out visit to "/dashboard" redirects to the login page with the intent, which resolves back to "/dashboard", where a signed-in user sees the dashboard. |
| App.IntendedTargetsResolve | react-auth/src/App.tsx:72-73 | With the intended table every path the application navigates to has its own page. |
| App.Screen | react-auth/src/App.tsx:64-74 | Something renders exactly when a route matches; an unguarded page renders whatever the session; "/" shows `RootRedirect`'s view; a guarded page shows what `ProtectedRoute` decides: the spinner while loading, the page exactly for a present user once loading is over, and otherwise a redirect to "/login" carrying the location. |
| App.IntendedDashboardScreen | react-auth/src/App.tsx:64-74 | With the intended table, "/dashboard" shows what the guard decides for the dashboard page. |
| UseAuthForm.Destination | react-auth/src/hooks/SignUp/useAuthForm.tsx:52-63 | Login lands on the resolved target; sign-up lands on "/dashboard" whatever the target. |
| UseAuthForm.Attempt | react-auth/src/hooks/SignUp/useAuthForm.tsx:52-60 | Login mode performs `signIn`, sign-up mode `signUp`, with the submitted email and password. |
| UseAuthForm.Call | react-auth/src/hooks/SignUp/useAuthForm.tsx:52-60 | Login mode asks the provider for `signInWithEmailAndPassword`, sign-up mode for `createUserWithEmailAndPassword`, with the submitted email and password. |
| UseAuthForm.AuthFormHook.constructor | react-auth/src/hooks/SignUp/useAuthForm.tsx:27-45 | `loading` starts false with an empty effect trace; `from` is resolved from the location of this render. |
| UseAuthForm.AuthFormHook.OnFinish | react-auth/src/hooks/SignUp/useAuthForm.tsx:49-72 | The effects happen in the order `setLoading(true)`, the mode's provider requests with the submitted credentials, on success only a replace-navigation to the target (login) or a push to "/dashboard" (sign-up), then `setLoading(false)` on every outcome; failures are swallowed; `loading` agrees with the trace. |
| UseLogin.LoginHook.constructor | react-auth/src/hooks/Login/useLogin.ts:21-36 | `loading` starts false with an empty effect trace; `from` is resolved from the location of this render. |
| UseLogin.LoginHook.HandleLogin | react-auth/src/hooks/Login/useLogin.ts:41-57 | The effects happen in the order `setLoading(true)`, the `signIn` requests only, a replace-navigation to the target exactly on success, then `setLoading(false)` on every outcome; failures are swallowed; `loading` agrees with the trace. |
| HookEffects.Requested | react-auth/src/hooks/Login/useLogin.ts:46 | The provider requests of an awaited call appear in the trace one effect per request, in order. |
| HookEffects.LoadingUnchangedBy | react-auth/src/hooks/Login/useLogin.ts:41-57 | Requests and navigations do not change `loading`: only `setLoading` calls do. |
| HookEffects.SubmissionLoading | react-auth/src/hooks/SignUp/useAuthForm.tsx:49-72 | In a submission's trace every request and navigation happens while `loading` is true, and `loading` is false once the submission is over, whatever it was before. |
| UseDashboardData.DaysActive | react-auth/src/hooks/Dashboard/useDashboardData.ts:38-44 | 0 without a user or creation time; otherwise the whole number of days d with d days <= elapsed < d + 1 days. |
| UseDashboardData.DaysActiveExactly | react-auth/src/hooks/Dashboard/useDashboardData.ts:39-43 | `daysActive` = k exactly when the elapsed time lies in [k * 86 400 000, (k + 1) * 86 400 000). |
| UseDashboardData.DaysActiveNonNegative | react-auth/src/hooks/Dashboard/useDashboardData.ts:39-43 | Non-negative whenever the clock is at or after the creation time. |
| UseDashboardData.DaysActiveMonotone | react-auth/src/hooks/Dashboard/useDashboardData.ts:39-43 | Non-decreasing as the clock advances. |
| UseDashboardData.UseDashboard | react-auth/src/hooks/Dashboard/useDashboardData.ts:47 | The current user is handed on exactly as the context holds it, with its `daysActive`. |
| UseDashboardData.SignOutSettled | react-auth/src/hooks/Dashboard/useDashboardData.ts:10-19 | Calling `signOut` settles as the remote sign-out when the context provides it, and throws "not a function" when it does not. |
| UseDashboardData.SignOutAsWrittenAlwaysFails | react-auth/src/hooks/Dashboard/useDashboardData.ts:10 | Against the context as written every sign-out attempt fails. |
| UseDashboardData.SignOutProvidedFollowsRemote | react-auth/src/hooks/Dashboard/useDashboardData.ts:17-20 | With `signOut` provided, the attempt succeeds exactly when the remote sign-out does. |
| UseDashboardData.DashboardHook.constructor | react-auth/src/hooks/Dashboard/useDashboardData.ts:10 | The hook reads the given context members (whether `signOut` is among them) over the given history. |
| UseDashboardData.DashboardHook.HandleSignOut | react-auth/src/hooks/Dashboard/useDashboardData.ts:17-24 | Pushes "/login" only after the sign-out resolves; on failure there is no navigation and the error is swallowed. |
| FormRules.RuleError | react-auth/src/components/SignUp/SignUpForm.tsx:41-44 | A failing rule reports its own message; on an empty value only `required` fails. |
| FormRules.FieldErrors | react-auth/src/components/SignUp/SignUpForm.tsx:78-90 | A field has no message exactly when every one of its rules passes; each message shown is some failing rule's. |
| FormRules.Submit | react-auth/src/components/SignUp/SignUpForm.tsx:32 | `onFinish` receives the values exactly when every rule of every item passes. |
| FormRules.Revalidated | react-auth/src/components/SignUp/SignUpForm.tsx:76 | A change re-validates exactly the changed item and the items that list it as a dependency: every such item is re-validated and no other. |
| FormRules.FieldErrorsFrame | react-auth/src/components/SignUp/SignUpForm.tsx:80-88 | A field's messages depend on other fields only through those its custom validators read. |
| FormRules.NoStaleErrors | react-auth/src/components/SignUp/SignUpForm.tsx:76 | With every validator's field declared as a dependency, items not re-validated after a change keep exactly their current messages. |
| SignUpForm.SignUpAcceptance | react-auth/src/components/SignUp/SignUpForm.tsx:36-98 | The form validates exactly when the email is non-empty and well-formed, the password has at least 6 characters, and the confirmation is non-empty and equal to the password. |
| SignUpForm.SubmitOnlyAcceptable | react-auth/src/components/SignUp/SignUpForm.tsx:32 | `onFinish` is called exactly with acceptable values. |
| SignUpForm.MatchValidator | react-auth/src/components/SignUp/SignUpForm.tsx:80-88 | The validator accepts an empty confirmation or one equal to the password, and otherwise rejects with "The two passwords do not match!". |
| SignUpForm.EmailMessages | react-auth/src/components/SignUp/SignUpForm.tsx:41-44 | An empty email shows only the required message; a malformed one only the format message. |
| SignUpForm.PasswordMessages | react-auth/src/components/SignUp/SignUpForm.tsx:59-62 | An empty password shows only the required message; a shorter-than-6 one only the length message. |
| SignUpForm.PasswordChangeRevalidatesConfirm | react-auth/src/components/SignUp/SignUpForm.tsx:73-90 | A password change re-validates the confirmation, and every other item's messages stay correct without re-validation. |
| SignUpForm.ButtonLabel | react-auth/src/components/SignUp/SignUpForm.tsx:122 | The label is "Creating Account..." exactly when loading, "Create Account" otherwise. |
| SignUpForm.CaptchaHandlerMissing | react-auth/src/components/SignUp/SignUpForm.tsx:24 | Of the names the form takes from its hook, exactly `setCaptchaToken` is not returned (`useAuthForm.tsx:75`), so the captcha handler is undefined. |
| LoginForm.LoginAcceptance | react-auth/src/components/Login/LoginForm.tsx:26-63 | `onSubmit` is called exactly when the email is non-empty and well-formed and the password has at least 6 characters, and receives the values unchanged. |
| LoginForm.LoginMessages | react-auth/src/components/Login/LoginForm.tsx:37-56 | Empty or malformed email, empty or short password: each shows exactly its own message. |
| LoginForm.ButtonLabel | react-auth/src/components/Login/LoginForm.tsx:82 | The label is "Signing In..." exactly when loading, "Sign In" otherwise. |
| Journeys.SignedOutVisitToDashboard | react-auth/src/components/ProtectedRoute.tsx:44-50 | With the intended table, once the provider reports no user, a visit to "/dashboard" is replaced by "/login" carrying "/dashboard" as the intent, and nothing is requested from the provider. |
| Journeys.IntendedLoginReturnsToDashboard | react-auth/src/components/ProtectedRoute.tsx:48-50 | With the intended table, a signed-out visit to "/dashboard" followed by a successful login ends on the dashboard with a single history entry. |
| Journeys.AsWrittenDashboardIsNotFound | react-auth/src/App.tsx:73 | With the table as written "/dashboard" shows the not-found page for every session. |
| Journeys.SignUpIgnoresIntent | react-auth/src/hooks/SignUp/useAuthForm.tsx:58-63 | A successful sign-up from a location carrying an intent pushes "/dashboard". |
| Journeys.FailedLoginChangesNothing | react-auth/src/hooks/Login/useLogin.ts:50-56 | A failed login leaves history and store unchanged and clears `loading`. |
| Journeys.RenderBeforeEventRedirects | react-auth/src/components/ProtectedRoute.tsx:44-50 | If "/dashboard" renders after a successful login but before the auth-state event, the guard sends the visitor back to "/login" carrying "/dashboard". |
| Journeys.AsWrittenSignOutStaysPut | react-auth/src/hooks/Dashboard/useDashboardData.ts:10-24 | The sign-out handler built over the context as written leaves the history unchanged, whatever the provider's sign-out would do. |
| Journeys.ProvidedSignOutPushesLogin | react-auth/src/hooks/Dashboard/useDashboardData.ts:17-24 | Over a context providing `signOut`, a successful sign-out pushes "/login" onto the history. |

## Left out

- Identity provider calls (`createUserWithEmailAndPassword`, `signInWithEmailAndPassword`, `getIdToken`, `signOut`): foreign; their settled results are parameters.
- `onAuthStateChanged` subscription and its unsubscription on unmount: the callback is modelled (`OnAuthStateChanged`), the subscription lifecycle is not.
- Interleaving of the listener with in-flight operations: the model applies actions in sequence.
- Local storage persistence across reloads: the store is a map that starts from whatever persisted.
- Success and error toasts and `console.error` logging: presentation only.
- Rendering, layout, styling and the pages and cards that only display values.
- `formatDate` and date parsing: timestamps are integer milliseconds; an unparseable creation time is not modelled.
- UseDashboardData.DaysActive: the floating-point division and `Math.floor` are modelled as exact integer floor division, which agrees for elapsed times below 2^53 ms.
- The form library's email syntax check: the parameter `isEmail`.
- FormRules.Submit: hands `onFinish` the whole value map rather than only the registered fields' values.
- FormRules.Revalidated: ignores the form library's conditions on which dependent fields are re-validated (for instance whether they were touched).
- Journeys.IntendedLoginReturnsToDashboard: takes the provider's auth-state event to be handled before "/dashboard" re-renders; Journeys.RenderBeforeEventRedirects covers the other order.
- App.Match: React Router's case-insensitive matching and trailing-slash tolerance are not modelled; paths must match exactly.
- The captcha widget: third-party; its token reaches no submission path.

## Findings

| source | as written | input that shows it | evidently intended | confidence | as-written member | corrected member |
|---|---|---|---|---|---|---|
| react-auth/src/hooks/Dashboard/useDashboardData.ts:10-20 | `signOut` is read from a context that provides none, so `await signOut()` throws inside the handler's `try` and is swallowed | any click on the dashboard's sign-out button | sign out, then navigate to "/login" | not executed; medium (a build that type-checks would refuse the file instead) | UseDashboardData.SignOutAsWrittenAlwaysFails | UseDashboardData.SignOutProvidedFollowsRemote |
| react-auth/src/App.tsx:64-74 | the route table declares only "/" and "/login", so the "/dashboard" that `RootRedirect` and the login hooks target shows the not-found page and `ProtectedRoute` is never mounted | a signed-in visitor opening "/" | "/dashboard" declared behind `ProtectedRoute`, "/signup" declared | not executed; high | App.SignedInRootLandsOnNotFound | App.IntendedDashboardRoundTrip |
