/** The VPN users page of the Next.js front end (app/vpn-users/page.tsx): the
    search goes to the server as a query parameter, the status filter is applied
    locally, and each (search, filter) pair is its own cache slot. */
module VpnUsersPage {
  import opened Wrappers
  import opened Seqs
  import opened Types
  import opened Query
  import Browser
  import LibApi
  import opened UseRole

  const UsersKey: QueryKey := ["users"]

  /** `['users', 'list', search, filter]` */
  function ListKey(search: string, filter: StatusFilter): (k: QueryKey)
    ensures |k| == 4 && k[..2] == ["users", "list"]
  {
    ["users", "list", search, StatusFilterName(filter)]
  }

  /** Different searches or filters are different cache slots. */
  lemma ListKeysAreDistinct(s1: string, f1: StatusFilter, s2: string, f2: StatusFilter)
    requires ListKey(s1, f1) == ListKey(s2, f2)
    ensures s1 == s2 && f1 == f2
  {
    assert ListKey(s1, f1)[2] == s1 && ListKey(s2, f2)[2] == s2;
    assert StatusFilterName(f1) == ListKey(s1, f1)[3];
    NamesAreInjective();
    assert StatusFilterName(f1) == StatusFilterName(f2);
  }

  /** `new URLSearchParams({page: '1', limit: '100', ...(search && {search})})`:
      page and limit always, then search when it is not empty. */
  function ListParams(search: string): (ps: seq<(string, string)>)
    ensures |ps| >= 2 && ps[0] == ("page", "1") && ps[1] == ("limit", "100")
    ensures |ps| == 3 <==> search != ""
    ensures |ps| <= 3
    ensures |ps| == 3 ==> ps[2] == ("search", search)
  {
    [("page", "1"), ("limit", "100")] + if search != "" then [("search", search)] else []
  }

  /** Only the status filter is applied locally; the search is left to the server. */
  function FilteredUsers(users: Option<seq<VPNUser>>, filter: StatusFilter): (r: Option<seq<VPNUser>>)
    ensures r.Some? <==> users.Some?
    ensures r.Some? ==> forall u :: u in r.value <==> u in users.value && MatchesStatus(u.is_active, filter)
    ensures r.Some? ==> IsSubsequence(r.value, users.value)
  {
    match users
    case None => None
    case Some(us) => Some(Filter(us, (u: VPNUser) => MatchesStatus(u.is_active, filter)))
  }

  /** The 'all' filter keeps the server's list as it is. */
  lemma AllKeepsServerList(users: seq<VPNUser>)
    ensures FilteredUsers(Some(users), All) == Some(users)
  {
    FilterKeepsEverything(users, (u: VPNUser) => MatchesStatus(u.is_active, All));
  }

  /** The details query is enabled iff the selected user has a user_id. */
  function DetailsQuery(selected: Option<VPNUser>): (r: Option<QueryKey>)
    ensures r.Some? <==> selected.Some? && selected.value.user_id != ""
    ensures r.Some? ==> r.value == ["users", selected.value.user_id]
  {
    if selected.Some? && selected.value.user_id != "" then Some(["users", selected.value.user_id]) else None
  }

  /** A successful status change refreshes every list slot and every details query of the page. */
  lemma StatusChangeRefreshesPage(search: string, filter: StatusFilter, selected: Option<VPNUser>)
    ensures Refreshes(UsersKey, ListKey(search, filter))
    ensures DetailsQuery(selected).Some? ==> Refreshes(UsersKey, DetailsQuery(selected).value)
  {
  }

  /** `user.phone || 'N/A'` */
  function ShownOrNA(field: Option<string>): (s: string)
    ensures s != ""
    ensures field.Some? && field.value != "" ==> s == field.value
    ensures field.None? || field.value == "" ==> s == "N/A"
  {
    if field.Some? && field.value != "" then field.value else "N/A"
  }

  function StatusSwitchShown(role: Option<string>): (b: bool)
    ensures b <==> role == Some("super_admin")
  {
    Flags(role).isSuperAdmin
  }

  datatype StatusChange = StatusChange(user_id: string, is_active: bool)

  class VpnUsersPage {
    var search: string
    var filter: StatusFilter
    var selectedUser: Option<VPNUser>
    var requests: seq<StatusChange>
    const window: Browser.Window
    const effects: Effects

    constructor (w: Browser.Window, fx: Effects)
      ensures window == w && effects == fx && search == "" && filter == All && selectedUser == None && requests == []
    {
      window := w;
      effects := fx;
      search := "";
      filter := All;
      selectedUser := None;
      requests := [];
    }

    /** The key of the list query the page currently subscribes to. */
    function CurrentListKey(): QueryKey
      reads this
    {
      ListKey(search, filter)
    }

    method UpdateUserStatus(userId: string, isActive: bool, outcome: Outcome)
      modifies this, effects, window
      ensures window.localStorage == LibApi.StorageAfter(old(window.localStorage), outcome)
      ensures window.navigations == old(window.navigations) + LibApi.RedirectsAfter(outcome)
      ensures requests == old(requests) + [StatusChange(userId, isActive)]
      ensures search == old(search) && filter == old(filter) && selectedUser == old(selectedUser)
      ensures effects.invalidated == old(effects.invalidated) + Invalidations(outcome, UsersKey)
      ensures effects.toasts == old(effects.toasts)
        + [Notice(outcome, "User status updated", "Failed to update user status")]
    {
      requests := requests + [StatusChange(userId, isActive)];
      LibApi.Settle(window, effects, outcome, UsersKey, "User status updated", "Failed to update user status");
    }
  }
}
