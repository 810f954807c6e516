/** The part of TanStack Query and the toast library that the pages' mutation
    callbacks use: which query key gets invalidated, and which toast is shown. */
module Query {
  import opened Http

  /** `['plans']`, `['users', 'list', search, filter]`, ... */
  type QueryKey = seq<string>

  /** Invalidating a key refreshes every query whose key starts with it (the query
      client's default, non-exact matching). */
  predicate Refreshes(invalidatedKey: QueryKey, queryKey: QueryKey): (b: bool)
    ensures b <==> |invalidatedKey| <= |queryKey|
                   && forall i :: 0 <= i < |invalidatedKey| ==> invalidatedKey[i] == queryKey[i]
  {
    invalidatedKey <= queryKey
  }

  /** The keys an invalidation refreshes are exactly its own key followed by anything. */
  lemma RefreshedKeysExtendTheKey(invalidatedKey: QueryKey, queryKey: QueryKey)
    ensures Refreshes(invalidatedKey, queryKey) <==> exists rest: QueryKey :: queryKey == invalidatedKey + rest
  {
    if Refreshes(invalidatedKey, queryKey) {
      assert queryKey == invalidatedKey + queryKey[|invalidatedKey|..];
    }
  }

  /** How the server answered a mutation. The callbacks only distinguish success from
      failure; the error a failure carries matters to the interceptors. */
  datatype Outcome = Succeeded | Failed(error: HttpError)

  datatype Toast = SuccessToast(text: string) | ErrorToast(content: Json)

  /** The keys a mutation's callbacks invalidate: its own key on success, nothing on failure. */
  function Invalidations(outcome: Outcome, key: QueryKey): (r: seq<QueryKey>)
    ensures |r| <= 1
    ensures r != [] <==> outcome.Succeeded?
    ensures forall k :: k in r ==> k == key
  {
    if outcome.Succeeded? then [key] else []
  }

  /** `toast.success(okText)` on success, `toast.error(errText)` on failure. */
  function Notice(outcome: Outcome, okText: string, errText: string): Toast {
    if outcome.Succeeded? then SuccessToast(okText) else ErrorToast(JString(errText))
  }

  /** The query client's invalidations and the toasts shown, in order. */
  class Effects {
    var invalidated: seq<QueryKey>
    var toasts: seq<Toast>

    constructor ()
      ensures invalidated == [] && toasts == []
    {
      invalidated := [];
      toasts := [];
    }

    /** The `onSuccess`/`onError` pair shared by every mutation: invalidate the key and
        toast on success, only toast on failure. */
    method Settle(outcome: Outcome, key: QueryKey, okText: string, errText: string)
      modifies this
      ensures invalidated == old(invalidated) + Invalidations(outcome, key)
      ensures toasts == old(toasts) + [Notice(outcome, okText, errText)]
    {
      if outcome.Succeeded? {
        invalidated := invalidated + [key];
      }
      toasts := toasts + [Notice(outcome, okText, errText)];
    }

    method Show(t: Toast)
      modifies this
      ensures toasts == old(toasts) + [t]
      ensures invalidated == old(invalidated)
    {
      toasts := toasts + [t];
    }
  }
}
