/** The role/permission configuration page (`src/app/configuracoes/perfis/page.tsx`): an
    editable copy of the role-to-permissions record, toggled one permission at a time, saved
    to or cleared from the browser store, and the permission catalogue grouped by category. */
module Profiles {
  import opened Types
  import Seqs
  import Auth

  /** The edited record. Unlike `ROLE_PERMISSIONS`, a record loaded from the store may lack
      roles, so a lookup falls back to the empty list. */
  type RoleConfig = map<UserRole, seq<Permission>>

  /** `configs[role] || []`. */
  function PermissionsOf(configs: RoleConfig, role: UserRole): (ps: seq<Permission>)
    ensures role in configs ==> ps == configs[role]
    ensures role !in configs ==> ps == []
  {
    if role in configs then configs[role] else []
  }

  /** The compiled-in table as an editable record: one entry per role. */
  function AsConfig(table: RolePermissionTable): (m: RoleConfig)
    ensures forall r :: r in m && m[r] == table(r)
  {
    assert forall r :: r in AllRoles by {
      forall r ensures r in AllRoles { EveryRoleListed(r); }
    }
    map r | r in AllRoles :: table(r)
  }

  /** Only an administrator may use the page: the check is on the role, not on a permission. */
  predicate CanConfigure(user: Option<AuthUser>): (r: bool)
    ensures r <==> user.Some? && user.value.role == ADMIN
  {
    user.Some? && user.value.role == ADMIN
  }

  /** The gate ignores the permission table: a non-administrator is refused even when their role
      holds every permission, and an administrator is let in even when theirs holds none. */
  lemma ConfigureGateIgnoresTable(u: AuthUser, table: RolePermissionTable)
    ensures u.role != ADMIN && (forall p :: Auth.HasPermission(Some(u), table, p)) ==> !CanConfigure(Some(u))
    ensures u.role == ADMIN && table(ADMIN) == [] ==> CanConfigure(Some(u)) && !Auth.HasPermission(Some(u), table, MANAGE_USERS)
  {
  }

  /** Looking a role up in the defaults gives the table's list. */
  lemma DefaultsLookup(table: RolePermissionTable, role: UserRole)
    ensures PermissionsOf(AsConfig(table), role) == table(role)
  {
  }

  /** `rolePerms.filter(p => p !== permission)`: every occurrence of `p` dropped, and every
      other permission kept as often as it occurs, in its original order. */
  function Without(ps: seq<Permission>, p: Permission): (r: seq<Permission>)
    ensures forall q :: q in r <==> q in ps && q != p
    ensures forall q :: multiset(r)[q] == if q != p then multiset(ps)[q] else 0
    ensures |r| == |ps| - multiset(ps)[p]
    ensures Seqs.SubsequenceOf(r, ps)
  {
    Seqs.Remove(ps, p)
  }

  /** The toggle on one role's list: removes every occurrence of `p` if it is there, appends
      `p` at the end otherwise; every other permission keeps its membership. */
  function Toggled(ps: seq<Permission>, p: Permission): (r: seq<Permission>)
    ensures p in ps ==> p !in r
    ensures p !in ps ==> r == ps + [p]
    ensures forall q :: q != p ==> (q in r <==> q in ps)
  {
    if Seqs.Includes(ps, p) then Without(ps, p) else ps + [p]
  }

  /** `togglePermission(role, p)` applied to the record: the role's list is toggled (a role
      missing from the record starts from the empty list) and the other roles keep their entries. */
  function ToggledConfig(configs: RoleConfig, role: UserRole, p: Permission): (r: RoleConfig)
    ensures r.Keys == configs.Keys + {role}
    ensures forall k :: k in configs && k != role ==> r[k] == configs[k]
    ensures r[role] == Toggled(PermissionsOf(configs, role), p)
  {
    configs[role := Toggled(PermissionsOf(configs, role), p)]
  }

  /** Toggling twice gives the permission back its membership, and leaves the other roles alone. */
  lemma ToggleTwiceMembership(configs: RoleConfig, role: UserRole, p: Permission)
    ensures var twice := ToggledConfig(ToggledConfig(configs, role, p), role, p);
      && twice.Keys == configs.Keys + {role}
      && (p in twice[role] <==> p in PermissionsOf(configs, role))
      && (forall k :: k in configs && k != role ==> twice[k] == configs[k])
  {
  }

  /** Toggling an absent permission twice restores the role's list exactly. */
  lemma {:induction false} ToggleAbsentTwice(ps: seq<Permission>, p: Permission)
    requires p !in ps
    ensures Toggled(Toggled(ps, p), p) == ps
  {
    assert Toggled(ps, p) == ps + [p];
    assert Toggled(ps + [p], p) == Without(ps + [p], p);
    Seqs.FilterAppend(Seqs.NotEqualTo(p), ps, [p]);
    assert Without(ps + [p], p) == Without(ps, p) + Without([p], p);
    Seqs.FilterKeepsAll(Seqs.NotEqualTo(p), ps);
    assert Without(ps, p) == ps;
  }

  /** Toggling a present permission twice keeps the other permissions in order and moves
      `p` to the end, once. */
  lemma TogglePresentTwice(ps: seq<Permission>, p: Permission)
    requires p in ps
    ensures Toggled(Toggled(ps, p), p) == Without(ps, p) + [p]
  {
  }

  /** `hasPermission` reads only the compiled-in table: a saved record that drops `p` from the
      user's role does not take it away. */
  lemma SavedConfigIgnoredByHasPermission(user: Option<AuthUser>, table: RolePermissionTable,
                                          saved: RoleConfig, p: Permission)
    requires user.Some? && p in table(user.value.role) && p !in PermissionsOf(saved, user.value.role)
    ensures Auth.HasPermission(user, table, p)
  {
  }

  // ----- the page's state -----

  /** The page state: the edited record, the selected role, the unsaved-changes and
      saved-message flags, and the stored override (the `"role_permissions_config"` entry). */
  class ProfilesPage {
    const defaults: RolePermissionTable
    const user: Option<AuthUser>
    var configs: RoleConfig
    var selectedRole: UserRole
    var hasChanges: bool
    var saveSuccess: bool
    var stored: Option<RoleConfig>

    /** What the page shows after loading: the stored override if there is one, else the defaults. */
    function Loaded(): RoleConfig
      reads this
    {
      if stored.Some? then stored.value else AsConfig(defaults)
    }

    /** The success message never shows beside unsaved changes, and without unsaved changes
        the page shows exactly what it would load. */
    predicate Valid()
      reads this
    {
      && (hasChanges ==> !saveSuccess)
      && (!hasChanges ==> configs == Loaded())
    }

    /** Mounting the page: start from the defaults, then adopt the stored override if any. */
    constructor (defaults: RolePermissionTable, user: Option<AuthUser>, stored: Option<RoleConfig>)
      ensures Valid()
      ensures this.defaults == defaults && this.user == user && this.stored == stored
      ensures configs == (if stored.Some? then stored.value else AsConfig(defaults))
      ensures selectedRole == BACKOFFICE && !hasChanges && !saveSuccess
    {
      this.defaults := defaults;
      this.user := user;
      this.stored := stored;
      configs := AsConfig(defaults);
      selectedRole := BACKOFFICE;
      hasChanges := false;
      saveSuccess := false;
      new;
      if stored.Some? {
        configs := stored.value;
      }
    }

    /** The list shown for the selected role (`configs[selectedRole] || []`). */
    function SelectedPermissions(): (ps: seq<Permission>)
      reads this
      ensures selectedRole in configs ==> ps == configs[selectedRole]
      ensures selectedRole !in configs ==> ps == []
    {
      PermissionsOf(configs, selectedRole)
    }

    /** The save button is enabled only with unsaved changes. */
    predicate SaveEnabled()
      reads this
    {
      hasChanges
    }

    method SelectRole(role: UserRole)
      requires CanConfigure(user) && Valid()
      modifies this
      ensures Valid()
      ensures selectedRole == role
      ensures configs == old(configs) && stored == old(stored)
      ensures hasChanges == old(hasChanges) && saveSuccess == old(saveSuccess)
    {
      selectedRole := role;
    }

    method TogglePermission(role: UserRole, p: Permission)
      requires CanConfigure(user) && Valid()
      modifies this
      ensures Valid()
      ensures configs == ToggledConfig(old(configs), role, p)
      ensures hasChanges && !saveSuccess
      ensures stored == old(stored) && selectedRole == old(selectedRole)
    {
      configs := ToggledConfig(configs, role, p);
      hasChanges := true;
      saveSuccess := false;
    }

    /** `saveConfig`, reached only through the save button, so only with unsaved changes. */
    method SaveConfig()
      requires CanConfigure(user) && Valid() && SaveEnabled()
      modifies this
      ensures Valid()
      ensures stored == Some(old(configs)) && configs == old(configs)
      ensures !hasChanges && saveSuccess
      ensures selectedRole == old(selectedRole)
    {
      stored := Some(configs);
      hasChanges := false;
      saveSuccess := true;
    }

    /** The timer that hides the saved message. */
    method HideSaveMessage()
      requires Valid()
      modifies this`saveSuccess
      ensures Valid() && !saveSuccess
    {
      saveSuccess := false;
    }

    /** `resetToDefault`, given the answer to the confirmation dialog. */
    method ResetToDefault(confirmed: bool)
      requires CanConfigure(user) && Valid()
      modifies this
      ensures Valid()
      ensures confirmed ==> configs == AsConfig(defaults) && stored == None && !hasChanges && !saveSuccess
      ensures !confirmed ==> configs == old(configs) && stored == old(stored)
                             && hasChanges == old(hasChanges) && saveSuccess == old(saveSuccess)
      ensures selectedRole == old(selectedRole)
    {
      if confirmed {
        configs := AsConfig(defaults);
        stored := None;
        hasChanges := false;
        saveSuccess := false;
      }
    }
  }
}
