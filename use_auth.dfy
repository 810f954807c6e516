/** The authentication hook of the Next.js front end (hooks/use-auth.ts): a user
    counts as authenticated when a token is stored, with no server check. */
module UseAuth {
  import opened Wrappers
  import opened Text
  import opened Browser

  class AuthHook {
    var isAuthenticated: bool
    var isLoading: bool
    const window: Window

    constructor (w: Window)
      ensures window == w
      ensures !isAuthenticated && isLoading
    {
      window := w;
      isAuthenticated := false;
      isLoading := true;
    }

    /** `checkAuth`: loading ends on both branches; authenticated iff a truthy token is
        stored. Storage is not touched. */
    method CheckAuth()
      modifies this
      ensures !isLoading
      ensures isAuthenticated <==> Truthy(window.GetItem(AuthTokenKey))
    {
      var token := window.GetItem(AuthTokenKey);
      if !Truthy(token) {
        isAuthenticated := false;
        isLoading := false;
        return;
      }
      isAuthenticated := true;
      isLoading := false;
    }

    /** `logout`: remove the token, drop the flag, go to /login. */
    method Logout()
      modifies this, window
      ensures window.localStorage == old(window.localStorage) - {AuthTokenKey}
      ensures window.navigations == old(window.navigations) + ["/login"]
      ensures !isAuthenticated && isLoading == old(isLoading)
    {
      window.RemoveItem(AuthTokenKey);
      isAuthenticated := false;
      window.Navigate("/login");
    }
  }
}
