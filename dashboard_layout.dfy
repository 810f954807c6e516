/** The dashboard layout of the Next.js front end
    (components/layout/dashboard-layout.tsx): a mount effect that sends a visitor
    without a stored token to /login, around a shell that always renders. */
module DashboardLayout {
  import opened Wrappers
  import opened Text
  import opened Browser

  /** The rendered tree: sidebar and the page's children in the main area. */
  datatype Shell<C> = Shell(sidebar: bool, main: C)

  /** Where the effect navigates, if anywhere: /login exactly when no truthy token is stored. */
  function RedirectTarget(token: Option<string>): (r: Option<string>)
    ensures r.Some? <==> !Truthy(token)
    ensures r.Some? ==> r.value == "/login"
  {
    if !Truthy(token) then Some("/login") else None
  }

  /** Render then run the effect. The children are rendered whatever the token; the
      effect only reads storage. */
  method Mount<C>(w: Window, children: C) returns (view: Shell<C>)
    modifies w
    ensures view == Shell(true, children)
    ensures w.localStorage == old(w.localStorage)
    ensures w.navigations == old(w.navigations) + if Truthy(old(w.GetItem(AuthTokenKey))) then [] else ["/login"]
  {
    view := Shell(true, children);
    var token := w.GetItem(AuthTokenKey);
    if !Truthy(token) {
      w.Navigate("/login");
    }
  }
}
