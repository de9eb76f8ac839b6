/** The life of one tenant, from an empty store: bootstrap it, register its
    first user as super-admin, refuse a second super-admin, and log the
    first user in with every permission of the registry as scopes. */
module Scenario {
  import opened Wrappers
  import opened Store
  import opened Permissions
  import opened UserServices
  import opened Aggregation
  import opened UserControllers
  import opened ApplicationControllers

  /** The first super-admin of a tenant without users is created and given
      the tenant's SUPER_ADMIN role, whatever other tenants hold. */
  lemma FirstSuperAdminRegisters(t: Tables, first: CreateUserBody, env: RegisterEnv, superAdmin: Role)
    requires !TenantHasUser(t, first.applicationId) && first.initialUser == Some(true)
    requires GetRoleByName(t.roles, SUPER_ADMIN, first.applicationId) == Some(superAdmin)
    requires env.createSucceeds && env.assignSucceeds
    ensures Register(t, first, env).0 == Ok(CreatedUser(env.newUserId, first.email, first.name, env.returnedApplicationId))
    ensures Register(t, first, env).1 == t.(users := t.users + [NewUserRow(first, env)],
      usersToRoles := t.usersToRoles + [UserRole(env.newUserId, superAdmin.id, first.applicationId)])
  {
  }

  /** A user who is the only one with its email in its tenant, and whose
      only assignment there is to a SUPER_ADMIN role holding the whole
      registry, is granted exactly the registry, whatever other tenants
      hold. */
  lemma SoleSuperAdminGrants(t: Tables, u: User, superAdmin: Role)
    requires u in t.users
    requires forall v :: v in t.users && Matches(v, u.email, u.applicationId) ==> v == u
    requires UserRole(u.id, superAdmin.id, u.applicationId) in t.usersToRoles
    requires forall l :: l in t.usersToRoles && Owns(u, l) ==> l == UserRole(u.id, superAdmin.id, u.applicationId)
    requires superAdmin in t.roles && superAdmin.permissions == ALL_PERMISSIONS
    requires forall role :: role in t.roles && role.id == superAdmin.id ==> Elements(role.permissions) <= Elements(ALL_PERMISSIONS)
    ensures forall p :: Grants(t, u.email, u.applicationId, p) <==> p in ALL_PERMISSIONS
  {
    var link := UserRole(u.id, superAdmin.id, u.applicationId);
    assert u in t.users && Matches(u, u.email, u.applicationId);
    assert link in t.usersToRoles;
    forall p | p in ALL_PERMISSIONS
      ensures Grants(t, u.email, u.applicationId, p)
    {
      assert p in superAdmin.permissions;
    }
    forall p | Grants(t, u.email, u.applicationId, p)
      ensures p in ALL_PERMISSIONS
    {
      var v, l, role :| v in t.users && Matches(v, u.email, u.applicationId) && l in t.usersToRoles && Owns(v, l)
        && role in t.roles && role.id == l.roleId && p in role.permissions;
      assert p in Elements(role.permissions);
    }
  }

  /** Such a user logs in with the whole registry as scopes. */
  lemma SoleSuperAdminScopes(t: Tables, u: User, superAdmin: Role, password: string)
    requires forall v :: v in t.users ==> v.id != ""
    requires u in t.users
    requires forall v :: v in t.users && Matches(v, u.email, u.applicationId) ==> v == u
    requires UserRole(u.id, superAdmin.id, u.applicationId) in t.usersToRoles
    requires forall l :: l in t.usersToRoles && Owns(u, l) ==> l == UserRole(u.id, superAdmin.id, u.applicationId)
    requires superAdmin in t.roles && superAdmin.permissions == ALL_PERMISSIONS
    requires forall role :: role in t.roles && role.id == superAdmin.id ==> Elements(role.permissions) <= Elements(ALL_PERMISSIONS)
    ensures var login := LoginPayload(t, LoginBody(u.email, password, u.applicationId));
      && login.Some? && login.value.id == u.id
      && NoDuplicates(login.value.scopes)
      && Elements(login.value.scopes) == Elements(ALL_PERMISSIONS)
  {
    var body := LoginBody(u.email, password, u.applicationId);
    assert u in t.users && Matches(u, body.email, body.applicationId);
    LoginScopesAreGrantedPermissions(t, body);
    SoleSuperAdminGrants(t, u, superAdmin);
  }

  lemma TenantLifecycle(
    name: string, env: BootstrapEnv,
    first: CreateUserBody, firstEnv: RegisterEnv,
    second: CreateUserBody, secondEnv: RegisterEnv)
    requires env.applicationOk && env.superAdminOk && env.applicationUserOk
    requires first.applicationId == env.applicationId && first.initialUser == Some(true)
    requires firstEnv.createSucceeds && firstEnv.assignSucceeds && firstEnv.newUserId != ""
    requires second.applicationId == env.applicationId && second.initialUser == Some(true)
    ensures var t1 := Bootstrap(Tables([], [], [], []), name, env).1;
      var t2 := Register(t1, first, firstEnv).1;
      var login := LoginPayload(t2, LoginBody(first.email, first.password, env.applicationId));
      && Register(t1, first, firstEnv).0 == Ok(CreatedUser(firstEnv.newUserId, first.email, first.name, firstEnv.returnedApplicationId))
      && Register(t2, second, secondEnv) == (Error(ApplicationAlreadySuperUser(env.applicationId)), t2)
      && login.Some? && login.value.id == firstEnv.newUserId
      && NoDuplicates(login.value.scopes)
      && Elements(login.value.scopes) == Elements(ALL_PERMISSIONS)
  {
    var t0 := Tables([], [], [], []);
    var t1 := Bootstrap(t0, name, env).1;
    BootstrapProvisionsSystemRoles(t0, name, env);
    var superAdmin := SuperAdminRoleOf(env);
    FirstSuperAdminRegisters(t1, first, firstEnv, superAdmin);
    var t2 := Register(t1, first, firstEnv).1;
    var u := NewUserRow(first, firstEnv);
    assert u in t2.users;
    UserRolePermissionsStrictSubset();
    assert t2.roles == [superAdmin, ApplicationUserRoleOf(env)];
    SoleSuperAdminScopes(t2, u, superAdmin, first.password);
  }
}
