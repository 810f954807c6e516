/** The route gate of the Vite front end (src/App.tsx): the user is let in only
    with a non-empty token AND a successful admin verification. */
module AppRoutes {
  import opened Wrappers
  import opened Text
  import AuthSlice

  datatype Screen = LoginScreen | DashboardScreen | UserListScreen

  /** What the router does with a path: render a screen, redirect, or render nothing. */
  datatype Routed = Show(screen: Screen) | RedirectTo(path: string) | Blank

  /** `authed = !!token && isAdmin` */
  function Authed(s: AuthSlice.AuthState): (b: bool)
    ensures b <==> s.token.Some? && s.token.value != "" && s.isAdmin
  {
    Truthy(s.token) && s.isAdmin
  }

  /** The path without its trailing slashes. */
  function TrimTrailingSlashes(path: string): (r: string)
    ensures r <= path
    ensures r == [] || r[|r| - 1] != '/'
    ensures forall i :: |r| <= i < |path| ==> path[i] == '/'
    decreases |path|
  {
    if path != [] && path[|path| - 1] == '/' then TrimTrailingSlashes(path[..|path| - 1]) else path
  }

  /** The form in which the router compares a path with the table: react-router ignores
      trailing slashes and letter case unless a route asks otherwise. */
  function Normalize(path: string): (p: string)
    ensures p != ""
    ensures forall i :: 0 <= i < |p| ==> !IsUpper(p[i])
  {
    var t := TrimTrailingSlashes(path);
    if t == "" then "/" else Lower(t)
  }

  /** The paths of the route table are their own normal form. */
  lemma TablePathsAreNormal()
    ensures Normalize("/login") == "/login"
    ensures Normalize("/dashboard") == "/dashboard"
    ensures Normalize("/users") == "/users"
    ensures Normalize("/") == "/"
  {
    assert TrimTrailingSlashes("/") == TrimTrailingSlashes("");
  }

  /** The route table chosen by `authed`, matched against the normalised path. */
  function Route(authed: bool, path: string): (r: Routed)
    ensures !authed ==> (r == Show(LoginScreen) <==> Normalize(path) == "/login")
    ensures !authed && Normalize(path) != "/login" ==> r == RedirectTo("/login")
    ensures authed ==> r != Show(LoginScreen)
    ensures authed && Normalize(path) == "/" ==> r == RedirectTo("/dashboard")
    ensures authed && Normalize(path) == "/dashboard" ==> r == Show(DashboardScreen)
    ensures authed && Normalize(path) == "/users" ==> r == Show(UserListScreen)
    ensures authed && Normalize(path) !in {"/", "/dashboard", "/users"} ==> r == Blank
  {
    var p := Normalize(path);
    if !authed then
      if p == "/login" then Show(LoginScreen) else RedirectTo("/login")
    else if p == "/" then RedirectTo("/dashboard")
    else if p == "/dashboard" then Show(DashboardScreen)
    else if p == "/users" then Show(UserListScreen)
    else Blank
  }

  /** A trailing slash never changes where a path is routed. */
  lemma RouteIgnoresTrailingSlash(authed: bool, path: string)
    ensures Route(authed, path + "/") == Route(authed, path)
  {
    assert (path + "/")[..|path|] == path;
  }

  /** Neither does letter case. */
  lemma {:induction false} RouteIgnoresCase(authed: bool, path: string)
    ensures Route(authed, Lower(path)) == Route(authed, path)
  {
    TrimCommutesWithLower(path);
    LowerIsIdempotent(TrimTrailingSlashes(path));
  }

  lemma {:induction false} TrimCommutesWithLower(path: string)
    ensures TrimTrailingSlashes(Lower(path)) == Lower(TrimTrailingSlashes(path))
    decreases |path|
  {
    if path != [] {
      var init := path[..|path| - 1];
      assert Lower(path)[..|path| - 1] == Lower(init);
      if path[|path| - 1] == '/' {
        TrimCommutesWithLower(init);
      }
    }
  }

  /** A redirect always lands on a route that renders a screen. */
  lemma RedirectsLandOnScreens(authed: bool, path: string)
    ensures Route(authed, path).RedirectTo? ==> Route(authed, Route(authed, path).path).Show?
  {
  }

  /** A stored token alone does not let the user in: after a fresh start the store
      is not authed until verifyAdmin succeeds. */
  lemma FreshStartIsNotAuthed(storage: map<string, string>)
    ensures !Authed(AuthSlice.Initial(storage).state)
  {
  }

  /** Being authed after any sequence of actions from a fresh start requires a
      verifyAdmin.fulfilled among them. */
  lemma AuthedRequiresVerification(storage: map<string, string>, actions: seq<AuthSlice.Action>)
    requires Authed(AuthSlice.Run(AuthSlice.Initial(storage), actions).state)
    ensures exists i :: 0 <= i < |actions| && actions[i].VerifyAdminFulfilled?
  {
    AuthSlice.AdminOnlyThroughVerification(AuthSlice.Initial(storage), actions);
  }
}
