/** The Redux auth slice of the Vite front end (src/store/authSlice.ts). Its state
    is token/loading/error/isAdmin, and it keeps a copy of the token in
    localStorage under 'auth_token'. `Step` is the reducer on a snapshot of the
    state and the storage; `AuthStore` is the store object whose reducers update
    their fields in place and are proved to follow `Step`. */
module AuthSlice {
  import opened Wrappers
  import opened Text
  import opened Http
  import opened Browser

  datatype AuthState = AuthState(token: Option<string>, loading: bool, error: Option<string>, isAdmin: bool)

  /** The actions the slice handles; the thunks' payloads are parameters. */
  datatype Action =
    | Logout
    | LoginPending
    | LoginFulfilled(accessToken: string)
    | LoginRejected(message: Option<string>)
    | VerifyAdminFulfilled(payload: bool)
    | VerifyAdminRejected

  /** The slice's state together with the browser storage it writes. */
  datatype Snapshot = Snapshot(state: AuthState, storage: map<string, string>)

  /** The slice's token agrees with the stored one. */
  predicate Synced(s: Snapshot) {
    s.state.token == Lookup(s.storage, AuthTokenKey)
  }

  /** The state the store starts from: the token read from storage, not loading,
      no error, not (yet) an admin. */
  function Initial(storage: map<string, string>): (s: Snapshot)
    ensures Synced(s)
    ensures !s.state.loading && s.state.error == None && !s.state.isAdmin
    ensures s.storage == storage
  {
    Snapshot(AuthState(Lookup(storage, AuthTokenKey), false, None, false), storage)
  }

  /** One reducer call. Every action keeps the token in step with storage; only
      verifyAdmin.fulfilled makes the user an admin; only logout, login.fulfilled
      and verifyAdmin.rejected touch the token. */
  function Step(s: Snapshot, a: Action): (r: Snapshot)
    ensures Synced(s) ==> Synced(r)
    ensures r.state.isAdmin && !s.state.isAdmin ==> a.VerifyAdminFulfilled?
    ensures r.state.token != s.state.token ==> a.Logout? || a.LoginFulfilled? || a.VerifyAdminRejected?
    ensures forall k :: k != AuthTokenKey ==> (k in r.storage <==> k in s.storage)
    ensures forall k :: k != AuthTokenKey && k in s.storage ==> r.storage[k] == s.storage[k]
  {
    match a
    case Logout =>
      Snapshot(s.state.(token := None), s.storage - {AuthTokenKey})
    case LoginPending =>
      Snapshot(s.state.(loading := true, error := None), s.storage)
    case LoginFulfilled(t) =>
      Snapshot(s.state.(loading := false, token := Some(t)), s.storage[AuthTokenKey := t])
    case LoginRejected(m) =>
      Snapshot(s.state.(loading := false, error := Some(OrElse(m, "Login failed"))), s.storage)
    case VerifyAdminFulfilled(_) =>
      Snapshot(s.state.(isAdmin := true), s.storage)
    case VerifyAdminRejected =>
      Snapshot(s.state.(isAdmin := false, token := None), s.storage - {AuthTokenKey})
  }

  /** What each reducer sets, field by field (src/store/authSlice.ts:38-66). */
  lemma StepFields(s: Snapshot, a: Action)
    ensures a.Logout? ==> var r := Step(s, a);
      r.state == s.state.(token := None) && Lookup(r.storage, AuthTokenKey) == None
    ensures a.LoginPending? ==> var r := Step(s, a);
      r.state.loading && r.state.error == None && r.state.token == s.state.token && r.state.isAdmin == s.state.isAdmin
      && r.storage == s.storage
    ensures a.LoginFulfilled? ==> var r := Step(s, a);
      !r.state.loading && r.state.token == Some(a.accessToken) && Lookup(r.storage, AuthTokenKey) == Some(a.accessToken)
      && r.state.error == s.state.error && r.state.isAdmin == s.state.isAdmin
    ensures a.LoginRejected? ==> var r := Step(s, a);
      !r.state.loading && r.state.token == s.state.token && r.storage == s.storage
      && r.state.error == Some(if Truthy(a.message) then a.message.value else "Login failed")
    ensures a.VerifyAdminFulfilled? ==> Step(s, a) == Snapshot(s.state.(isAdmin := true), s.storage)
    ensures a.VerifyAdminRejected? ==> var r := Step(s, a);
      !r.state.isAdmin && r.state.token == None && Lookup(r.storage, AuthTokenKey) == None
      && r.state.loading == s.state.loading && r.state.error == s.state.error
  {
  }

  /** A sequence of dispatched actions, in order. */
  function Run(s: Snapshot, actions: seq<Action>): Snapshot
    decreases |actions|
  {
    if actions == [] then s else Run(Step(s, actions[0]), actions[1..])
  }

  /** Token and storage stay in step over any sequence of actions. */
  lemma {:induction false} RunKeepsSynced(s: Snapshot, actions: seq<Action>)
    requires Synced(s)
    ensures Synced(Run(s, actions))
    decreases |actions|
  {
    if actions != [] {
      RunKeepsSynced(Step(s, actions[0]), actions[1..]);
    }
  }

  /** Whoever is an admin after a sequence of actions was one before, or a
      verifyAdmin.fulfilled was among the actions. */
  lemma {:induction false} AdminOnlyThroughVerification(s: Snapshot, actions: seq<Action>)
    requires Run(s, actions).state.isAdmin
    ensures s.state.isAdmin || exists i :: 0 <= i < |actions| && actions[i].VerifyAdminFulfilled?
    decreases |actions|
  {
    if actions != [] {
      AdminOnlyThroughVerification(Step(s, actions[0]), actions[1..]);
      if !Step(s, actions[0]).state.isAdmin {
        var i :| 0 <= i < |actions[1..]| && actions[1..][i].VerifyAdminFulfilled?;
        assert actions[i + 1].VerifyAdminFulfilled?;
      }
    }
  }

  /** The store object: reducers assign its fields and write or remove the stored token. */
  class AuthStore {
    var token: Option<string>
    var loading: bool
    var error: Option<string>
    var isAdmin: bool
    const window: Window

    function Snap(): Snapshot
      reads this, window
    {
      Snapshot(AuthState(token, loading, error, isAdmin), window.localStorage)
    }

    /** `initialState` (src/store/authSlice.ts:11-16). */
    constructor (w: Window)
      ensures window == w
      ensures Snap() == Initial(w.localStorage)
    {
      window := w;
      token := w.GetItem(AuthTokenKey);
      loading := false;
      error := None;
      isAdmin := false;
    }

    /** A full page load builds the store again from `initialState`; only storage
        survives it. */
    method Reload()
      modifies this
      ensures Snap() == Initial(window.localStorage)
    {
      token := window.GetItem(AuthTokenKey);
      loading := false;
      error := None;
      isAdmin := false;
    }

    method Logout()
      modifies this, window
      ensures Snap() == Step(old(Snap()), Action.Logout)
      ensures window.navigations == old(window.navigations)
    {
      token := None;
      window.RemoveItem(AuthTokenKey);
    }

    method LoginPending()
      modifies this
      ensures Snap() == Step(old(Snap()), Action.LoginPending)
    {
      loading := true;
      error := None;
    }

    method LoginFulfilled(accessToken: string)
      modifies this, window
      ensures Snap() == Step(old(Snap()), Action.LoginFulfilled(accessToken))
      ensures window.navigations == old(window.navigations)
    {
      loading := false;
      token := Some(accessToken);
      window.SetItem(AuthTokenKey, accessToken);
    }

    method LoginRejected(message: Option<string>)
      modifies this
      ensures Snap() == Step(old(Snap()), Action.LoginRejected(message))
    {
      loading := false;
      error := Some(if message.Some? && message.value != "" then message.value else "Login failed");
    }

    method VerifyAdminFulfilled(payload: bool)
      modifies this
      ensures Snap() == Step(old(Snap()), Action.VerifyAdminFulfilled(payload))
    {
      isAdmin := true;
    }

    method VerifyAdminRejected()
      modifies this, window
      ensures Snap() == Step(old(Snap()), Action.VerifyAdminRejected)
      ensures window.navigations == old(window.navigations)
    {
      isAdmin := false;
      token := None;
      window.RemoveItem(AuthTokenKey);
    }
  }

  /** The services interceptor removes the stored token on a 401 without telling the
      slice: a slice that held a token no longer agrees with storage. */
  lemma UnauthorizedResponseDesyncs(s: Snapshot, err: HttpError)
    requires Synced(s) && s.state.token.Some? && IsUnauthorized(err)
    ensures !Synced(Snapshot(s.state, ClearedOnUnauthorized(s.storage, err)))
  {
  }
}
