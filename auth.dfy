/** The permission helpers of the authentication context (`src/contexts/AuthContext.tsx`).
    They look the current user's role up in the compiled-in `ROLE_PERMISSIONS` table, passed
    here as `table`; loading and saving the current user is not part of this model. */
module Auth {
  import opened Types
  import Seqs

  /** `hasPermission(p)`: false without a user, else whether the user's role lists `p`. */
  function HasPermission(user: Option<AuthUser>, table: RolePermissionTable, p: Permission): (r: bool)
    ensures r <==> user.Some? && p in table(user.value.role)
  {
    if user.None? then false else Seqs.Includes(table(user.value.role), p)
  }

  /** `hasAnyPermission(ps)`: a user exists and holds at least one of `ps`. */
  function HasAnyPermission(user: Option<AuthUser>, table: RolePermissionTable, ps: seq<Permission>): (r: bool)
    ensures r <==> user.Some? && exists p :: p in ps && p in table(user.value.role)
  {
    if user.None? then false else Seqs.Any(p => HasPermission(user, table, p), ps)
  }

  /** `hasAllPermissions(ps)`: a user exists and holds every one of `ps`. */
  function HasAllPermissions(user: Option<AuthUser>, table: RolePermissionTable, ps: seq<Permission>): (r: bool)
    ensures r <==> user.Some? && forall p :: p in ps ==> p in table(user.value.role)
  {
    if user.None? then false else Seqs.All(p => HasPermission(user, table, p), ps)
  }

  /** Without a current user every check is false, even `hasAllPermissions([])`. */
  lemma NoUserHoldsNothing(table: RolePermissionTable, p: Permission, ps: seq<Permission>)
    ensures !HasPermission(None, table, p)
    ensures !HasAnyPermission(None, table, ps)
    ensures !HasAllPermissions(None, table, ps)
  {
  }

  /** The empty list: no permission is "any" of it, and a user holds "all" of it. */
  lemma EmptyList(user: Option<AuthUser>, table: RolePermissionTable)
    ensures !HasAnyPermission(user, table, [])
    ensures HasAllPermissions(user, table, []) <==> user.Some?
  {
  }

  /** For a non-empty list, holding all of it implies holding some of it. */
  lemma AllImpliesAny(user: Option<AuthUser>, table: RolePermissionTable, ps: seq<Permission>)
    requires |ps| > 0
    ensures HasAllPermissions(user, table, ps) ==> HasAnyPermission(user, table, ps)
  {
    assert ps[0] in ps;
  }
}
