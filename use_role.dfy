/** The role hook of the Next.js front end (hooks/use-role.ts): the role starts as
    null, an effect reads it once from localStorage 'user_role', and the two flags
    are derived from it. */
module UseRole {
  import opened Wrappers
  import opened Browser

  const SuperAdminRole := "super_admin"
  const AdminRole := "admin"

  datatype RoleFlags = RoleFlags(isSuperAdmin: bool, isAdmin: bool, role: Option<string>)

  /** `isSuperAdmin = role === 'super_admin'`, `isAdmin = role === 'admin' || isSuperAdmin`. */
  function Flags(role: Option<string>): (f: RoleFlags)
    ensures f.role == role
    ensures f.isSuperAdmin <==> role == Some("super_admin")
    ensures f.isAdmin <==> role == Some("admin") || role == Some("super_admin")
  {
    var isSuperAdmin := role == Some(SuperAdminRole);
    RoleFlags(isSuperAdmin, role == Some(AdminRole) || isSuperAdmin, role)
  }

  /** A super admin is an admin; without a role neither flag holds. */
  lemma FlagsAreOrdered(role: Option<string>)
    ensures Flags(role).isSuperAdmin ==> Flags(role).isAdmin
    ensures role.None? ==> !Flags(role).isAdmin && !Flags(role).isSuperAdmin
  {
  }

  class RoleHook {
    var role: Option<string>

    constructor ()
      ensures role == None
    {
      role := None;
    }

    /** The mount effect: copy the stored role; storage is only read. */
    method LoadRole(w: Window)
      modifies this
      ensures role == w.GetItem(UserRoleKey)
    {
      role := w.GetItem(UserRoleKey);
    }

    function Result(): RoleFlags
      reads this
    {
      Flags(role)
    }
  }
}
