/** The browser environment the code touches: `localStorage` and navigation
    (`router.push` and assignments to `window.location.href`, both recorded as
    the path navigated to). */
module Browser {
  import opened Wrappers
  import opened Http

  const AuthTokenKey := "auth_token"
  const UserRoleKey := "user_role"

  /** `localStorage.getItem(key)` on a storage snapshot. */
  function Lookup(storage: map<string, string>, key: string): Option<string> {
    if key in storage then Some(storage[key]) else None
  }

  /** The storage after an error interceptor that removes the stored token on a 401:
      only the token entry can disappear, and only for a 401. */
  function ClearedOnUnauthorized(storage: map<string, string>, err: HttpError): (r: map<string, string>)
    ensures AuthTokenKey in r <==> AuthTokenKey in storage && !IsUnauthorized(err)
    ensures forall k :: k != AuthTokenKey ==> (k in r <==> k in storage)
    ensures forall k :: k in r ==> r[k] == storage[k]
  {
    if IsUnauthorized(err) then storage - {AuthTokenKey} else storage
  }

  /** A second removal leaves storage as the first one left it. */
  lemma ClearingTwiceIsClearingOnce(storage: map<string, string>, first: HttpError, second: HttpError)
    requires IsUnauthorized(first)
    ensures ClearedOnUnauthorized(ClearedOnUnauthorized(storage, first), second) == ClearedOnUnauthorized(storage, first)
  {
  }

  class Window {
    var localStorage: map<string, string>
    var navigations: seq<string>

    constructor (storage: map<string, string>)
      ensures localStorage == storage && navigations == []
    {
      localStorage := storage;
      navigations := [];
    }

    function GetItem(key: string): Option<string>
      reads this
    {
      Lookup(localStorage, key)
    }

    method SetItem(key: string, value: string)
      modifies this
      ensures localStorage == old(localStorage)[key := value]
      ensures navigations == old(navigations)
    {
      localStorage := localStorage[key := value];
    }

    /** Removing a key that is absent changes nothing. */
    method RemoveItem(key: string)
      modifies this
      ensures localStorage == old(localStorage) - {key}
      ensures navigations == old(navigations)
    {
      localStorage := localStorage - {key};
    }

    method Navigate(path: string)
      modifies this
      ensures navigations == old(navigations) + [path]
      ensures localStorage == old(localStorage)
    {
      navigations := navigations + [path];
    }
  }
}
