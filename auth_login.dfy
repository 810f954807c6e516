/** The login form of the Vite front end (src/pages/Auth/Login.tsx): dispatch the
    login thunk, then the admin verification thunk, then send the browser to the
    dashboard. Failures are swallowed by the handler and only show through the
    slice's error. Both thunks call through the interceptors of src/services/api.ts. */
module AuthLogin {
  import opened Wrappers
  import opened Text
  import opened Http
  import opened Browser
  import opened AuthSlice
  import ServiceApi
  import AppRoutes

  const DefaultCredential := "admin"

  /** The interceptor's part of a failed request: a 401 removes the stored token,
      behind the slice's back. */
  function Intercepted(s: Snapshot, e: HttpError): (r: Snapshot)
    ensures r.state == s.state
    ensures IsUnauthorized(e) ==> AuthTokenKey !in r.storage
    ensures !IsUnauthorized(e) ==> r.storage == s.storage
  {
    Snapshot(s.state, ClearedOnUnauthorized(s.storage, e))
  }

  datatype Submission = Submission(snap: Snapshot, redirected: bool)

  /** `onSubmit` on a snapshot of the slice and storage, with the two answers as
      parameters (the login answer is the returned access_token). */
  function SubmitFlow(s: Snapshot, login: Result<string, HttpError>, verify: Result<Json, HttpError>): (r: Submission)
    ensures r.redirected <==> login.Success? && verify.Success?
    ensures !r.snap.state.loading
    ensures login.Failure? ==>
      r.snap.state.token == s.state.token && r.snap.state.isAdmin == s.state.isAdmin
      && r.snap.state.error == Some(OrElse(Some(login.error.message), "Login failed"))
    ensures login.Success? ==> r.snap.state.error == None && Synced(r.snap)
    ensures login.Success? && verify.Success? ==>
      r.snap.state.token == Some(login.value) && r.snap.state.isAdmin
    ensures login.Success? && verify.Failure? ==>
      r.snap.state.token == None && !r.snap.state.isAdmin
  {
    var pending := Step(s, LoginPending);
    match login
    case Failure(e) =>
      Submission(Step(Intercepted(pending, e), LoginRejected(Some(e.message))), false)
    case Success(token) =>
      var signedIn := Step(pending, LoginFulfilled(token));
      match verify
      case Failure(e) => Submission(Step(Intercepted(signedIn, e), VerifyAdminRejected), false)
      case Success(d) => Submission(Step(signedIn, VerifyAdminFulfilled(JsonTruthy(d))), true)
  }

  /** The store the first render after `onSubmit` sees. Assigning
      `window.location.href` is a full page load (`fullReload`): the store is built
      again from storage and the slice's state is lost. A router navigation keeps
      the store and so the submission's own state. */
  function Rendered(r: Submission, fullReload: bool): (s: Snapshot)
    ensures s.storage == r.snap.storage
    ensures r.redirected && fullReload ==> Synced(s) && !s.state.isAdmin && !s.state.loading
    ensures !(r.redirected && fullReload) ==> s == r.snap
  {
    if r.redirected && fullReload then Initial(r.snap.storage) else r.snap
  }

  /** As written: after a successful sign-in the token is stored, but the page load
      that the redirect triggers forgets the verification, so the route gate sends
      /dashboard back to /login. */
  lemma RedirectLandsOnLogin(s: Snapshot, token: string, answer: Json)
    ensures var r := SubmitFlow(s, Success(token), Success(answer));
      r.redirected && Lookup(r.snap.storage, AuthTokenKey) == Some(token)
      && !AppRoutes.Authed(Rendered(r, true).state)
      && AppRoutes.Route(AppRoutes.Authed(Rendered(r, true).state), "/dashboard") == AppRoutes.RedirectTo("/login")
  {
    var r := SubmitFlow(s, Success(token), Success(answer));
    AppRoutes.FreshStartIsNotAuthed(r.snap.storage);
  }

  /** With a router navigation in place of the page load, a redirect after submit
      finds the route gate open and the dashboard rendered. */
  lemma InAppNavigationOpensTheGate(s: Snapshot, token: string, answer: Json)
    requires token != ""
    ensures var r := SubmitFlow(s, Success(token), Success(answer));
      r.redirected && AppRoutes.Authed(Rendered(r, false).state)
      && AppRoutes.Route(AppRoutes.Authed(Rendered(r, false).state), "/dashboard")
         == AppRoutes.Show(AppRoutes.DashboardScreen)
  {
  }

  /** A 401 on the login request leaves the slice holding a token that storage no
      longer has (the slice's token is untouched by a rejected login). */
  lemma RejectedLoginCanDesync(s: Snapshot, e: HttpError)
    requires Synced(s) && s.state.token.Some? && IsUnauthorized(e)
    ensures !Synced(SubmitFlow(s, Failure(e), Failure(e)).snap)
  {
  }

  class LoginForm {
    var email: string
    var password: string
    const store: AuthStore

    /** The fields start as admin / admin. */
    constructor (s: AuthStore)
      ensures store == s && email == DefaultCredential && password == DefaultCredential
    {
      store := s;
      email := DefaultCredential;
      password := DefaultCredential;
    }

    /** The button is disabled while the slice is loading. */
    function SubmitDisabled(): (b: bool)
      reads this, store
      ensures b <==> store.loading
    {
      store.loading
    }

    /** `onSubmit`, ending on the page load that `window.location.href` triggers. */
    method OnSubmit(login: Result<string, HttpError>, verify: Result<Json, HttpError>)
      modifies store, store.window
      ensures store.Snap() == Rendered(SubmitFlow(old(store.Snap()), login, verify), true)
      ensures store.window.navigations ==
        old(store.window.navigations) + if SubmitFlow(old(store.Snap()), login, verify).redirected then ["/dashboard"] else []
    {
      store.LoginPending();
      var request := new Request("POST", "/api/v1/auth/login",
        JObject(map["email" := JString(email), "password" := JString(password)]));
      var answer := ServiceApi.Exchange(store.window, request, login);
      if answer.Failure? {
        store.LoginRejected(Some(answer.error.message));
        return;
      }
      store.LoginFulfilled(answer.value);
      var check := new Request("GET", "/api/v1/admin/rate-limits/config", JNull);
      var checked := ServiceApi.Exchange(store.window, check, verify);
      if checked.Failure? {
        store.VerifyAdminRejected();
        return;
      }
      store.VerifyAdminFulfilled(JsonTruthy(checked.value));
      store.window.Navigate("/dashboard");
      store.Reload();
    }
  }
}
