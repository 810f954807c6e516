/** The users page of the Next.js front end (app/users/page.tsx): a fetched user
    list filtered locally by a case-insensitive search and a status filter, a
    details query for the selected user, and a status mutation. */
module UsersPage {
  import opened Wrappers
  import opened Text
  import opened Seqs
  import opened Types
  import opened Query
  import Browser
  import LibApi
  import opened UseRole

  const UsersKey: QueryKey := ["users"]
  const ListKey: QueryKey := ["users", "list"]

  /** The search matches the email or the username, ignoring case. */
  predicate MatchesSearch(u: User, search: string) {
    IncludesIgnoreCase(u.email, search) || IncludesIgnoreCase(u.username, search)
  }

  predicate Keep(u: User, search: string, filter: StatusFilter) {
    MatchesSearch(u, search) && MatchesStatus(u.is_active, filter)
  }

  /** `users?.filter(...)`: nothing while the list is not loaded; otherwise exactly the
      users that match both the search and the status filter, in their order. */
  function FilteredUsers(users: Option<seq<User>>, search: string, filter: StatusFilter): (r: Option<seq<User>>)
    ensures r.Some? <==> users.Some?
    ensures r.Some? ==> forall u :: u in r.value <==> u in users.value && Keep(u, search, filter)
    ensures r.Some? ==> IsSubsequence(r.value, users.value)
  {
    match users
    case None => None
    case Some(us) => Some(Filter(us, u => Keep(u, search, filter)))
  }

  /** With an empty search and the 'all' filter the whole list is shown. */
  lemma UnfilteredShowsAll(users: seq<User>)
    ensures FilteredUsers(Some(users), "", All) == Some(users)
  {
    forall u | u in users
      ensures Keep(u, "", All)
    {
      EmptyMatchesIgnoringCase(u.email);
    }
    FilterKeepsEverything(users, u => Keep(u, "", All));
  }

  /** The details query runs only when a user with an id is selected. */
  function DetailsQuery(selected: Option<User>): (r: Option<QueryKey>)
    ensures r.Some? <==> selected.Some? && selected.value.id != ""
    ensures r.Some? ==> r.value == ["users", selected.value.id]
  {
    if selected.Some? && selected.value.id != "" then Some(["users", selected.value.id]) else None
  }

  /** A successful status change refreshes the list and the details query of the page. */
  lemma StatusChangeRefreshesPage(selected: Option<User>)
    ensures Refreshes(UsersKey, ListKey)
    ensures DetailsQuery(selected).Some? ==> Refreshes(UsersKey, DetailsQuery(selected).value)
  {
  }

  /** The status switch is offered to super admins; others see a read-only label. */
  function StatusSwitchShown(role: Option<string>): (b: bool)
    ensures b <==> role == Some("super_admin")
  {
    Flags(role).isSuperAdmin
  }

  datatype StatusChange = StatusChange(id: string, is_active: bool)

  class UsersPage {
    var selectedUser: Option<User>
    var requests: seq<StatusChange>
    const window: Browser.Window
    const effects: Effects

    constructor (w: Browser.Window, fx: Effects)
      ensures window == w && effects == fx && selectedUser == None && requests == []
    {
      window := w;
      effects := fx;
      selectedUser := None;
      requests := [];
    }

    method Select(u: User)
      modifies this
      ensures selectedUser == Some(u) && requests == old(requests)
    {
      selectedUser := Some(u);
    }

    /** `updateUserStatus.mutate`: send the change; on success invalidate ['users'] and
        toast, on failure only toast. */
    method UpdateUserStatus(id: string, isActive: bool, outcome: Outcome)
      modifies this, effects, window
      ensures window.localStorage == LibApi.StorageAfter(old(window.localStorage), outcome)
      ensures window.navigations == old(window.navigations) + LibApi.RedirectsAfter(outcome)
      ensures requests == old(requests) + [StatusChange(id, isActive)]
      ensures selectedUser == old(selectedUser)
      ensures effects.invalidated == old(effects.invalidated) + Invalidations(outcome, UsersKey)
      ensures effects.toasts == old(effects.toasts)
        + [Notice(outcome, "User status updated", "Failed to update user status")]
    {
      requests := requests + [StatusChange(id, isActive)];
      LibApi.Settle(window, effects, outcome, UsersKey, "User status updated", "Failed to update user status");
    }
  }
}
