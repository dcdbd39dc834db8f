/**
 * The role-sync rule run after every save of a user, stated on a value snapshot
 * of the user: the staff and superuser flags are derived from the role, and the
 * four "post" permissions are granted to staff roles and revoked from all others.
 */
module RoleSync {
  import opened Permissions

  /** The values of the `role` field's choices. The field itself holds any string. */
  const Admin: string := "ADMIN"
  const Moderator: string := "MODERATOR"
  const NonAdmin: string := "NON_ADMIN"

  /** The roles that are staff and hold the post permissions: MODERATOR and ADMIN. */
  predicate IsStaffRole(role: string) {
    role in [Moderator, Admin]
  }

  /** A snapshot of a user row together with its direct permission set. */
  datatype Account = Account(
    firstName: string,
    lastName: string,
    email: string,
    userName: string,
    password: string,
    role: string,
    isStaff: bool,
    isActive: bool,
    isSuperuser: bool,
    permissions: set<Permission>)

  /**
   * The account after the rule, given the post permissions `post` the handler looked up:
   * a superuser is promoted to ADMIN; ADMIN and MODERATOR become staff (ADMIN also
   * superuser) and are granted `post` one at a time; any other role loses staff status
   * and has `post` revoked one at a time.
   */
  function Sync(a: Account, post: seq<Permission>): (r: Account)
    ensures r.role == (if a.isSuperuser then Admin else a.role)
    ensures r.isStaff <==> IsStaffRole(r.role)
    ensures r.isSuperuser <==> r.role == Admin
    ensures a.isSuperuser ==> r.isSuperuser
    ensures r.isStaff ==> r.permissions == a.permissions + Elems(post)
    ensures !r.isStaff ==> r.permissions == a.permissions - Elems(post)
    ensures r.firstName == a.firstName && r.lastName == a.lastName && r.email == a.email
    ensures r.userName == a.userName && r.password == a.password && r.isActive == a.isActive
  {
    var role := if a.isSuperuser then Admin else a.role;
    if IsStaffRole(role) then
      AddAllIsUnion(a.permissions, post);
      a.(role := role, isStaff := true,
         isSuperuser := if role == Admin then true else a.isSuperuser,
         permissions := AddAll(a.permissions, post))
    else
      RemoveAllIsDifference(a.permissions, post);
      a.(role := role, isStaff := false, permissions := RemoveAll(a.permissions, post))
  }

  /** Holding the post permissions is decided by the role alone; every other permission is kept or lacked as before. */
  lemma SyncPermissionsFollowRole(a: Account, post: seq<Permission>, q: Permission)
    ensures q in post ==> (q in Sync(a, post).permissions <==> IsStaffRole(Sync(a, post).role))
    ensures q !in post ==> (q in Sync(a, post).permissions <==> q in a.permissions)
  {
  }

  /** Applying the rule to its own output changes nothing: saving twice is saving once. */
  lemma SyncIdempotent(a: Account, post: seq<Permission>)
    ensures Sync(Sync(a, post), post) == Sync(a, post)
  {
  }

  /** A superuser always comes out as an ADMIN who is staff and holds every post permission. */
  lemma SuperuserBecomesAdmin(a: Account, post: seq<Permission>)
    requires a.isSuperuser
    ensures Sync(a, post).role == Admin
    ensures Sync(a, post).isStaff && Sync(a, post).isSuperuser
    ensures Elems(post) <= Sync(a, post).permissions
  {
  }
}
