/** The admin users page (app/admin-users/page.tsx): the admin accounts, a creation
    form and deletion, both offered to super admins only. */
module AdminUsersPage {
  import opened Wrappers
  import opened Query
  import Browser
  import LibApi
  import opened UseRole

  datatype AdminUserForm = AdminUserForm(
    username: string,
    email: string,
    password: string,
    full_name: string,
    role: string)

  datatype AdminRequest = CreateAdminUser(data: AdminUserForm) | DeleteAdminUser(id: string)

  const AdminUsersKey: QueryKey := ["admin-users"]

  /** Every input is required; the role select starts on its empty 'Select Role' option. */
  predicate Complete(f: AdminUserForm) {
    f.username != "" && f.email != "" && f.password != "" && f.full_name != "" && f.role != ""
  }

  /** The role select offers exactly two roles; only they can complete the form through it. */
  const RoleOptions: seq<string> := ["", "admin", "super_admin"]

  predicate IsAdminRole(role: string) {
    role == "admin" || role == "super_admin"
  }

  lemma SelectableRolesAreAdminRoles(f: AdminUserForm)
    requires f.role in RoleOptions && Complete(f)
    ensures IsAdminRole(f.role)
  {
  }

  class AdminUsersPage {
    /** `useRole().isSuperAdmin` as the page was rendered. */
    const isSuperAdmin: bool
    var showForm: bool
    var values: Option<AdminUserForm>
    var requests: seq<AdminRequest>
    const window: Browser.Window
    const effects: Effects

    /** Only a super admin can have opened the form; the role field holds one of the
        select's options; every account created so far was given an admin role. */
    predicate Consistent()
      reads this
    {
      (showForm ==> isSuperAdmin)
      && (values.Some? ==> values.value.role in RoleOptions)
      && forall i :: 0 <= i < |requests| && requests[i].CreateAdminUser? ==> IsAdminRole(requests[i].data.role)
    }

    constructor (role: Option<string>, w: Browser.Window, fx: Effects)
      ensures isSuperAdmin == Flags(role).isSuperAdmin
      ensures window == w && effects == fx && !showForm && values == None && requests == []
      ensures Consistent()
    {
      isSuperAdmin := Flags(role).isSuperAdmin;
      window := w;
      effects := fx;
      showForm := false;
      values := None;
      requests := [];
    }

    /** The 'Add Admin User' button, rendered for super admins only. */
    method OpenForm()
      modifies this
      requires Consistent()
      ensures Consistent()
      ensures showForm == (old(showForm) || isSuperAdmin)
      ensures values == old(values) && requests == old(requests)
    {
      if isSuperAdmin {
        showForm := true;
      }
    }

    /** Typing into the inputs and picking an option of the role select. */
    method Fill(f: AdminUserForm)
      modifies this
      requires f.role in RoleOptions
      requires Consistent()
      ensures Consistent()
      ensures values == Some(f) && showForm == old(showForm) && requests == old(requests)
    {
      values := Some(f);
    }

    /** The form's submit always creates an account; a success closes and resets the form. */
    method Submit(outcome: Outcome)
      modifies this, effects, window
      ensures window.localStorage ==
        if old(showForm && values.Some? && Complete(values.value)) then LibApi.StorageAfter(old(window.localStorage), outcome) else old(window.localStorage)
      ensures window.navigations ==
        old(window.navigations) + if old(showForm && values.Some? && Complete(values.value)) then LibApi.RedirectsAfter(outcome) else []
      requires Consistent()
      ensures Consistent()
      ensures !isSuperAdmin ==> requests == old(requests)
      ensures old(!(showForm && values.Some? && Complete(values.value))) ==>
        requests == old(requests) && showForm == old(showForm) && values == old(values)
        && effects.invalidated == old(effects.invalidated) && effects.toasts == old(effects.toasts)
      ensures old(showForm && values.Some? && Complete(values.value)) ==>
        requests == old(requests) + [CreateAdminUser(old(values.value))]
        && effects.invalidated == old(effects.invalidated) + Invalidations(outcome, AdminUsersKey)
        && effects.toasts == old(effects.toasts)
          + [Notice(outcome, "Admin user created successfully", "Failed to create admin user")]
        && (if outcome.Succeeded? then !showForm && values == None
            else showForm == old(showForm) && values == old(values))
      ensures |requests| > |old(requests)| ==>
        requests[|requests| - 1].CreateAdminUser? && IsAdminRole(requests[|requests| - 1].data.role)
    {
      if showForm && values.Some? && Complete(values.value) {
        SelectableRolesAreAdminRoles(values.value);
        requests := requests + [CreateAdminUser(values.value)];
        LibApi.Settle(window, effects, outcome, AdminUsersKey, "Admin user created successfully", "Failed to create admin user");
        if outcome.Succeeded? {
          showForm := false;
          values := None;
        }
      }
    }

    /** The delete button, rendered for super admins only, acts after confirmation. */
    method Delete(id: string, confirmed: bool, outcome: Outcome)
      modifies this, effects, window
      ensures window.localStorage ==
        if isSuperAdmin && confirmed then LibApi.StorageAfter(old(window.localStorage), outcome) else old(window.localStorage)
      ensures window.navigations ==
        old(window.navigations) + if isSuperAdmin && confirmed then LibApi.RedirectsAfter(outcome) else []
      requires Consistent()
      ensures Consistent()
      ensures showForm == old(showForm) && values == old(values)
      ensures requests == old(requests) + (if isSuperAdmin && confirmed then [DeleteAdminUser(id)] else [])
      ensures isSuperAdmin && confirmed ==>
        effects.invalidated == old(effects.invalidated) + Invalidations(outcome, AdminUsersKey)
        && effects.toasts == old(effects.toasts)
          + [Notice(outcome, "Admin user deleted successfully", "Failed to delete admin user")]
      ensures !(isSuperAdmin && confirmed) ==>
        effects.invalidated == old(effects.invalidated) && effects.toasts == old(effects.toasts)
    {
      if isSuperAdmin && confirmed {
        requests := requests + [DeleteAdminUser(id)];
        LibApi.Settle(window, effects, outcome, AdminUsersKey, "Admin user deleted successfully", "Failed to delete admin user");
      }
    }

    method Cancel()
      modifies this
      requires Consistent()
      ensures Consistent()
      ensures !showForm && values == None && requests == old(requests)
    {
      showForm := false;
      values := None;
    }
  }
}
