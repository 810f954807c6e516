/** The VPN servers page (app/servers/page.tsx): a server list with a create/edit form
    and deletion after confirmation. */
module ServersPage {
  import opened Wrappers
  import opened Types
  import opened Query
  import Browser
  import LibApi

  /** The seven inputs of the form; it is also the body sent to the server. */
  datatype ServerForm = ServerForm(
    name: string,
    ip_address: string,
    country: string,
    city: string,
    is_premium: bool,
    status: ServerStatus,
    max_connections: int)

  datatype ServerRequest =
    | CreateServer(data: ServerForm)
    | UpdateServer(id: string, data: ServerForm)
    | DeleteServer(id: string)

  const ServersKey: QueryKey := ["servers"]

  /** The required text inputs are filled (the status select and the number always hold a value). */
  predicate Complete(f: ServerForm) {
    f.name != "" && f.ip_address != "" && f.country != "" && f.city != ""
  }

  /** `handleEdit`'s `setValue` calls: every editable field of the server. */
  function FormOf(s: VPNServer): (f: ServerForm)
    ensures f.name == s.name && f.ip_address == s.ip_address && f.country == s.country
    ensures f.city == s.city && f.is_premium == s.is_premium && f.status == s.status
    ensures f.max_connections == s.max_connections
  {
    ServerForm(s.name, s.ip_address, s.country, s.city, s.is_premium, s.status, s.max_connections)
  }

  /** Two servers load the same form exactly when they agree on everything but their id
      and their live connection count, which the form does not carry. */
  lemma FormOfForgetsOnlyIdAndLoad(s: VPNServer, t: VPNServer)
    ensures FormOf(s) == FormOf(t) <==>
      s.(id := t.id, current_connections := t.current_connections) == t
  {
  }

  /** `getStatusColor` on the status names. */
  function StatusColor(status: string): (c: string)
    ensures status == "active" ==> c == "text-green-600"
    ensures status == "inactive" ==> c == "text-red-600"
    ensures status == "maintenance" ==> c == "text-yellow-600"
    ensures status !in {"active", "inactive", "maintenance"} ==> c == "text-gray-600"
  {
    match status
    case "active" => "text-green-600"
    case "inactive" => "text-red-600"
    case "maintenance" => "text-yellow-600"
    case _ => "text-gray-600"
  }

  /** Every status a server can have gets its own colour, never the grey fallback. */
  lemma KnownStatusesAreColoured(s: ServerStatus)
    ensures StatusColor(ServerStatusName(s)) != "text-gray-600"
  {
  }

  class ServersPage {
    var showForm: bool
    var editingServer: Option<VPNServer>
    var values: Option<ServerForm>
    var requests: seq<ServerRequest>
    const window: Browser.Window
    const effects: Effects

    predicate Consistent()
      reads this
    {
      editingServer.Some? ==> showForm
    }

    constructor (w: Browser.Window, fx: Effects)
      ensures window == w && effects == fx && !showForm && editingServer == None && values == None && requests == []
      ensures Consistent()
    {
      window := w;
      effects := fx;
      showForm := false;
      editingServer := None;
      values := None;
      requests := [];
    }

    /** The 'Add Server' button. */
    method OpenForm()
      modifies this
      requires Consistent()
      ensures Consistent()
      ensures showForm && editingServer == old(editingServer) && values == old(values) && requests == old(requests)
    {
      showForm := true;
    }

    method Fill(f: ServerForm)
      modifies this
      requires Consistent()
      ensures Consistent()
      ensures values == Some(f)
      ensures showForm == old(showForm) && editingServer == old(editingServer) && requests == old(requests)
    {
      values := Some(f);
    }

    method Edit(s: VPNServer)
      modifies this
      requires Consistent()
      ensures Consistent()
      ensures editingServer == Some(s) && values == Some(FormOf(s)) && showForm
      ensures requests == old(requests)
    {
      editingServer := Some(s);
      values := Some(FormOf(s));
      showForm := true;
    }

    /** The form's submit: update the server being edited, or create one. */
    method Submit(outcome: Outcome)
      modifies this, effects, window
      ensures window.localStorage ==
        if old(showForm && values.Some? && Complete(values.value)) then LibApi.StorageAfter(old(window.localStorage), outcome) else old(window.localStorage)
      ensures window.navigations ==
        old(window.navigations) + if old(showForm && values.Some? && Complete(values.value)) then LibApi.RedirectsAfter(outcome) else []
      requires Consistent()
      ensures Consistent()
      ensures old(!(showForm && values.Some? && Complete(values.value))) ==>
        requests == old(requests) && showForm == old(showForm) && editingServer == old(editingServer)
        && values == old(values)
        && effects.invalidated == old(effects.invalidated) && effects.toasts == old(effects.toasts)
      ensures old(showForm && values.Some? && Complete(values.value) && editingServer.Some?) ==>
        requests == old(requests) + [UpdateServer(old(editingServer.value.id), old(values.value))]
        && effects.invalidated == old(effects.invalidated) + Invalidations(outcome, ServersKey)
        && effects.toasts == old(effects.toasts)
          + [Notice(outcome, "Server updated successfully", "Failed to update server")]
      ensures old(showForm && values.Some? && Complete(values.value) && editingServer.None?) ==>
        requests == old(requests) + [CreateServer(old(values.value))]
        && effects.invalidated == old(effects.invalidated) + Invalidations(outcome, ServersKey)
        && effects.toasts == old(effects.toasts)
          + [Notice(outcome, "Server created successfully", "Failed to create server")]
      ensures old(showForm && values.Some? && Complete(values.value)) ==>
        if outcome.Succeeded? then !showForm && editingServer == None && values == None
        else showForm == old(showForm) && editingServer == old(editingServer) && values == old(values)
    {
      if showForm && values.Some? && Complete(values.value) {
        var data := values.value;
        match editingServer
        case Some(s) =>
          requests := requests + [UpdateServer(s.id, data)];
          LibApi.Settle(window, effects, outcome, ServersKey, "Server updated successfully", "Failed to update server");
          if outcome.Succeeded? {
            showForm := false;
            editingServer := None;
            values := None;
          }
        case None =>
          requests := requests + [CreateServer(data)];
          LibApi.Settle(window, effects, outcome, ServersKey, "Server created successfully", "Failed to create server");
          if outcome.Succeeded? {
            showForm := false;
            values := None;
          }
      }
    }

    method Delete(id: string, confirmed: bool, outcome: Outcome)
      modifies this, effects, window
      ensures window.localStorage ==
        if confirmed then LibApi.StorageAfter(old(window.localStorage), outcome) else old(window.localStorage)
      ensures window.navigations ==
        old(window.navigations) + if confirmed then LibApi.RedirectsAfter(outcome) else []
      requires Consistent()
      ensures Consistent()
      ensures showForm == old(showForm) && editingServer == old(editingServer) && values == old(values)
      ensures requests == old(requests) + (if confirmed then [DeleteServer(id)] else [])
      ensures confirmed ==>
        effects.invalidated == old(effects.invalidated) + Invalidations(outcome, ServersKey)
        && effects.toasts == old(effects.toasts)
          + [Notice(outcome, "Server deleted successfully", "Failed to delete server")]
      ensures !confirmed ==>
        effects.invalidated == old(effects.invalidated) && effects.toasts == old(effects.toasts)
    {
      if confirmed {
        requests := requests + [DeleteServer(id)];
        LibApi.Settle(window, effects, outcome, ServersKey, "Server deleted successfully", "Failed to delete server");
      }
    }

    method Cancel()
      modifies this
      requires Consistent()
      ensures Consistent()
      ensures !showForm && editingServer == None && values == None && requests == old(requests)
    {
      showForm := false;
      editingServer := None;
      values := None;
    }
  }
}
