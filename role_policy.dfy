/** Authorisation rules for role administration
    (apps/headless-erp-app/app/Policies/RolePolicy.php). Permission and role
    lookups are resolved before the policy runs: a user carries the names of
    its roles and of the permissions it holds. */
module RolePolicy {
  import opened Common

  datatype PolicyUser = PolicyUser(roles: set<string>, permissions: set<string>, tenantId: Option<string>)

  /** A role; `teamId == None` is a global role. */
  datatype Role = Role(name: string, teamId: Option<string>)

  const SuperAdmin: string := "super-admin"
  const ViewRoles: string := "view-roles"
  const ManageRoles: string := "manage-roles"
  const AssignRoles: string := "assign-roles"

  predicate IsSuperAdmin(user: PolicyUser)
  {
    SuperAdmin in user.roles
  }

  /** The role is global or belongs to the user's tenant (`===` on nullable ids). */
  predicate InScope(user: PolicyUser, role: Role)
  {
    role.teamId == None || user.tenantId == role.teamId
  }

  function ViewAny(user: PolicyUser): (allowed: bool)
    ensures allowed <==> ViewRoles in user.permissions
  {
    ViewRoles in user.permissions
  }

  function View(user: PolicyUser, role: Role): (allowed: bool)
    ensures IsSuperAdmin(user) ==> allowed
    ensures allowed ==> IsSuperAdmin(user) || ViewRoles in user.permissions
    ensures allowed ==> IsSuperAdmin(user) || InScope(user, role)
  {
    if IsSuperAdmin(user) then true
    else ViewRoles in user.permissions && (role.teamId == None || user.tenantId == role.teamId)
  }

  function Create(user: PolicyUser): (allowed: bool)
    ensures allowed <==> ManageRoles in user.permissions
  {
    ManageRoles in user.permissions
  }

  function Update(user: PolicyUser, role: Role): (allowed: bool)
    ensures IsSuperAdmin(user) ==> allowed
    ensures allowed && role.name == SuperAdmin ==> IsSuperAdmin(user)
    ensures allowed ==> IsSuperAdmin(user) || (ManageRoles in user.permissions && InScope(user, role))
  {
    if IsSuperAdmin(user) then true
    else if role.name == SuperAdmin then false
    else ManageRoles in user.permissions && (role.teamId == None || user.tenantId == role.teamId)
  }

  function Delete(user: PolicyUser, role: Role): (allowed: bool)
    ensures role.name == SuperAdmin ==> !allowed
    ensures allowed ==> IsSuperAdmin(user) || (ManageRoles in user.permissions && user.tenantId == role.teamId)
  {
    if IsSuperAdmin(user) then role.name != SuperAdmin
    else if role.name == SuperAdmin then false
    else ManageRoles in user.permissions && user.tenantId == role.teamId
  }

  function Assign(user: PolicyUser, role: Role): (allowed: bool)
    ensures IsSuperAdmin(user) ==> allowed
    ensures allowed && role.name == SuperAdmin ==> IsSuperAdmin(user)
    ensures allowed ==> IsSuperAdmin(user) || (AssignRoles in user.permissions && InScope(user, role))
  {
    if IsSuperAdmin(user) then true
    else if role.name == SuperAdmin then false
    else AssignRoles in user.permissions && (role.teamId == None || user.tenantId == role.teamId)
  }

  // ----- characterisations for users without the super-admin role

  lemma ViewForOthers(user: PolicyUser, role: Role)
    requires !IsSuperAdmin(user)
    ensures View(user, role) <==> ViewRoles in user.permissions && InScope(user, role)
  {
  }

  lemma UpdateForOthers(user: PolicyUser, role: Role)
    requires !IsSuperAdmin(user)
    ensures Update(user, role) <==>
      role.name != SuperAdmin && ManageRoles in user.permissions && InScope(user, role)
  {
  }

  lemma AssignForOthers(user: PolicyUser, role: Role)
    requires !IsSuperAdmin(user)
    ensures Assign(user, role) <==>
      role.name != SuperAdmin && AssignRoles in user.permissions && InScope(user, role)
  {
  }

  /** Deleting has no exception for global roles: the role's team must equal
      the user's tenant. */
  lemma DeleteForOthers(user: PolicyUser, role: Role)
    requires !IsSuperAdmin(user)
    ensures Delete(user, role) <==>
      role.name != SuperAdmin && ManageRoles in user.permissions && user.tenantId == role.teamId
  {
  }

  /** A super-admin may delete every role but `super-admin`. */
  lemma DeleteForSuperAdmin(user: PolicyUser, role: Role)
    requires IsSuperAdmin(user)
    ensures Delete(user, role) <==> role.name != SuperAdmin
  {
  }

  /** Because both ids are compared with `===`, a user with no tenant who holds
      `manage-roles` may delete a global role, while a user with a tenant may not. */
  lemma GlobalRoleDeletion(user: PolicyUser, name: string)
    requires !IsSuperAdmin(user) && ManageRoles in user.permissions && name != SuperAdmin
    ensures Delete(user, Role(name, None)) <==> user.tenantId == None
  {
  }
}
