/** The Redux users slice of the Vite front end (src/store/userSlice.ts): a list of
    fetched user profiles into which `fetchUserByEmail.fulfilled` upserts by id. */
module UserSlice {
  import opened Wrappers
  import opened Text

  /** The profile returned by the users service (src/services/userService.ts). */
  datatype ServiceUser = ServiceUser(
    id: string,
    user_id: int,
    name: string,
    email: string,
    phone: Option<string>,
    country: Option<string>,
    is_active: bool,
    is_premium: bool,
    is_email_verified: bool)

  /** The index of the first item with this id, if any. */
  function IndexOfId(items: seq<ServiceUser>, id: string): (r: Option<nat>)
    ensures r.Some? ==> r.value < |items| && items[r.value].id == id
    ensures r.Some? ==> forall j :: 0 <= j < r.value ==> items[j].id != id
    ensures r.None? <==> forall j :: 0 <= j < |items| ==> items[j].id != id
  {
    if items == [] then None
    else if items[0].id == id then Some(0)
    else match IndexOfId(items[1..], id)
      case None => None
      case Some(k) => Some(k + 1)
  }

  /** `items.findIndex(u => u.id === id)`: the first matching index, or -1. */
  method FindIndex(items: seq<ServiceUser>, id: string) returns (k: int)
    ensures -1 <= k < |items|
    ensures k == -1 <==> forall j :: 0 <= j < |items| ==> items[j].id != id
    ensures k >= 0 ==> items[k].id == id && forall j :: 0 <= j < k ==> items[j].id != id
    ensures k >= 0 <==> IndexOfId(items, id) == Some(k)
  {
    k := 0;
    while k < |items|
      invariant 0 <= k <= |items|
      invariant forall j :: 0 <= j < k ==> items[j].id != id
    {
      if items[k].id == id {
        return;
      }
      k := k + 1;
    }
    k := -1;
  }

  /** Replace the item with the user's id in place, or append the user. */
  function Upsert(items: seq<ServiceUser>, user: ServiceUser): (r: seq<ServiceUser>)
    ensures user in r
    ensures |r| == |items| || |r| == |items| + 1
  {
    match IndexOfId(items, user.id)
    case Some(k) => assert items[k := user][k] == user; items[k := user]
    case None => items + [user]
  }

  predicate DistinctIds(items: seq<ServiceUser>) {
    forall i, j :: 0 <= i < j < |items| ==> items[i].id != items[j].id
  }

  /** A user whose id is present replaces the first item with that id, at the same
      index; length and every other item are unchanged. */
  lemma UpsertReplaces(items: seq<ServiceUser>, user: ServiceUser, k: nat)
    requires k < |items| && items[k].id == user.id
    requires forall j :: 0 <= j < k ==> items[j].id != user.id
    ensures |Upsert(items, user)| == |items|
    ensures Upsert(items, user)[k] == user
    ensures forall j :: 0 <= j < |items| && j != k ==> Upsert(items, user)[j] == items[j]
  {
    assert IndexOfId(items, user.id) == Some(k);
  }

  /** A user with a new id is appended at the end. */
  lemma UpsertAppends(items: seq<ServiceUser>, user: ServiceUser)
    requires forall j :: 0 <= j < |items| ==> items[j].id != user.id
    ensures Upsert(items, user) == items + [user]
  {
  }

  /** Upserting keeps ids pairwise distinct. */
  lemma UpsertKeepsIdsDistinct(items: seq<ServiceUser>, user: ServiceUser)
    requires DistinctIds(items)
    ensures DistinctIds(Upsert(items, user))
  {
    var r := Upsert(items, user);
    match IndexOfId(items, user.id)
    case Some(k) =>
      forall i, j | 0 <= i < j < |r|
        ensures r[i].id != r[j].id
      {
        if i != k && j != k {
          assert r[i] == items[i] && r[j] == items[j];
        } else if i == k {
          assert r[j] == items[j] && items[k].id == user.id;
        } else {
          assert r[i] == items[i] && items[k].id == user.id;
        }
      }
    case None =>
      assert r == items + [user];
  }

  /** The users store: its reducers update the fields and the list in place. */
  class UserStore {
    var items: seq<ServiceUser>
    var loading: bool
    var error: Option<string>

    /** `initialState` (src/store/userSlice.ts:10-14). */
    constructor ()
      ensures items == [] && !loading && error == None
    {
      items := [];
      loading := false;
      error := None;
    }

    method FetchPending()
      modifies this
      ensures loading && error == None && items == old(items)
    {
      loading := true;
      error := None;
    }

    method FetchFulfilled(user: ServiceUser)
      modifies this
      ensures items == Upsert(old(items), user)
      ensures !loading && error == old(error)
      ensures old(DistinctIds(items)) ==> DistinctIds(items)
    {
      loading := false;
      if DistinctIds(items) {
        UpsertKeepsIdsDistinct(items, user);
      }
      var found := FindIndex(items, user.id);
      if found >= 0 {
        items := items[found := user];
      } else {
        items := items + [user];
      }
    }

    method FetchRejected(message: Option<string>)
      modifies this
      ensures !loading && items == old(items)
      ensures error == Some(OrElse(message, "Failed to fetch user"))
    {
      loading := false;
      error := Some(OrElse(message, "Failed to fetch user"));
    }
  }
}
