/** The user list of the Vite front end (src/pages/Users/UserList.tsx): the store's
    profiles filtered by name or email, and a submit that fetches a profile by email. */
module UserList {
  import opened Wrappers
  import opened Text
  import opened Seqs
  import opened UserSlice
  import opened Http
  import opened Browser
  import ServiceApi

  predicate MatchesQuery(u: ServiceUser, query: string) {
    IncludesIgnoreCase(u.name, query) || IncludesIgnoreCase(u.email, query)
  }

  /** `users.filter(...)`: the store's items whose name or email contains the query,
      ignoring case, in store order. */
  function Filtered(items: seq<ServiceUser>, query: string): (r: seq<ServiceUser>)
    ensures forall u :: u in r <==> u in items && MatchesQuery(u, query)
    ensures IsSubsequence(r, items)
  {
    Filter(items, u => MatchesQuery(u, query))
  }

  /** An empty query shows every stored profile. */
  lemma EmptyQueryShowsAll(items: seq<ServiceUser>)
    ensures Filtered(items, "") == items
  {
    forall u | u in items
      ensures MatchesQuery(u, "")
    {
      EmptyMatchesIgnoringCase(u.name);
    }
    FilterKeepsEverything(items, u => MatchesQuery(u, ""));
  }

  class UserListView {
    var query: string
    const store: UserStore
    const window: Window

    constructor (s: UserStore, w: Window)
      ensures store == s && window == w && query == ""
    {
      store := s;
      window := w;
      query := "";
    }

    /** The rows shown; computing them leaves the store alone. */
    function Rows(): seq<ServiceUser>
      reads this, store
    {
      Filtered(store.items, query)
    }

    /** The form's submit handler: `if (query) dispatch(fetchUserByEmail(query))`, the
        thunk running pending then fulfilled or rejected with the service's answer, which
        comes through the interceptors of src/services/api.ts. The search field lies
        outside the form, whose only element is the hidden button, so pressing Enter in
        the field does not reach this handler; the method models the handler itself. */
    method Submit(answer: Result<ServiceUser, HttpError>)
      modifies store, window
      ensures query == "" ==>
        store.items == old(store.items) && store.loading == old(store.loading) && store.error == old(store.error)
      ensures query != "" && answer.Success? ==>
        store.items == Upsert(old(store.items), answer.value) && !store.loading && store.error == None
      ensures query != "" && answer.Failure? ==>
        store.items == old(store.items) && !store.loading
        && store.error == Some(OrElse(Some(answer.error.message), "Failed to fetch user"))
      ensures window.localStorage ==
        if query != "" && answer.Failure? then ClearedOnUnauthorized(old(window.localStorage), answer.error)
        else old(window.localStorage)
      ensures window.navigations == old(window.navigations)
    {
      if query != "" {
        store.FetchPending();
        if answer.Success? {
          store.FetchFulfilled(answer.value);
        } else {
          var rejected := ServiceApi.OnError<ServiceUser>(window, answer.error);
          store.FetchRejected(Some(answer.error.message));
        }
      }
    }
  }
}
