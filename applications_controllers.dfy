/** The tenant bootstrap (src/modules/applications/applications.controllers.ts):
    create the application, then its SUPER_ADMIN role with every permission,
    then its APPLICATION_USER role with the default subset, each awaited in
    turn; a failure leaves the earlier writes in place. */
module ApplicationControllers {
  import opened Wrappers
  import opened Store
  import opened Permissions

  datatype Provisioned = Provisioned(application: Application, superAdminRole: Role, applicationUserRole: Role)

  /** What the handler can throw: an insert's own error, or the two errors
      raised after settling the role results. */
  datatype BootstrapError =
    | ApplicationInsertFailed
    | RoleInsertFailed(roleName: string)
    | SuperAdminRoleError
    | ApplicationUserRoleError

  /** A settled result as `Promise.allSettled` reports it. */
  datatype Settled<+T> = Fulfilled(value: T) | Rejected(reason: BootstrapError)

  /** What the bootstrap's collaborators do: the ids the database gives the
      three new rows and whether each insert succeeds. */
  datatype BootstrapEnv = BootstrapEnv(
    applicationId: string, applicationOk: bool,
    superAdminRoleId: string, superAdminOk: bool,
    applicationUserRoleId: string, applicationUserOk: bool)

  function SuperAdminRoleOf(env: BootstrapEnv): Role {
    Role(env.superAdminRoleId, SUPER_ADMIN, env.applicationId, ALL_PERMISSIONS)
  }

  function ApplicationUserRoleOf(env: BootstrapEnv): Role {
    Role(env.applicationUserRoleId, APPLICATION_USER, env.applicationId, USER_ROLE_PERMISSIONS)
  }

  /** The checks after `allSettled`: the super-admin result is looked at
      first, so its error wins when both were rejected. */
  function CheckSettled(application: Application, superAdmin: Settled<Role>, applicationUser: Settled<Role>)
    : (r: Result<Provisioned, BootstrapError>)
    ensures superAdmin.Rejected? ==> r == Failure(SuperAdminRoleError)
    ensures superAdmin.Fulfilled? && applicationUser.Rejected? ==> r == Failure(ApplicationUserRoleError)
    ensures r.Success? <==> superAdmin.Fulfilled? && applicationUser.Fulfilled?
    ensures r.Success? ==> r.value == Provisioned(application, superAdmin.value, applicationUser.value)
  {
    if superAdmin.Rejected? then Failure(SuperAdminRoleError)
    else if applicationUser.Rejected? then Failure(ApplicationUserRoleError)
    else Success(Provisioned(application, superAdmin.value, applicationUser.value))
  }

  /** The bootstrap decision: the outcome and the store afterwards. */
  function Bootstrap(t: Tables, name: string, env: BootstrapEnv): (out: (Result<Provisioned, BootstrapError>, Tables))
    // users and assignments are never touched
    ensures out.1.users == t.users && out.1.usersToRoles == t.usersToRoles
    // the application is written first; without it nothing else is
    ensures !env.applicationOk ==> out == (Failure(ApplicationInsertFailed), t)
    ensures env.applicationOk ==> out.1.applications == t.applications + [Application(env.applicationId, name)]
    // a failed SUPER_ADMIN role stops the bootstrap before the second role
    ensures env.applicationOk && !env.superAdminOk ==>
      out.0 == Failure(RoleInsertFailed(SUPER_ADMIN)) && out.1.roles == t.roles
    ensures env.applicationOk && env.superAdminOk && !env.applicationUserOk ==>
      out.0 == Failure(RoleInsertFailed(APPLICATION_USER)) && out.1.roles == t.roles + [SuperAdminRoleOf(env)]
    ensures out.0.Success? <==> env.applicationOk && env.superAdminOk && env.applicationUserOk
    ensures out.0.Success? ==>
      out.0.value == Provisioned(Application(env.applicationId, name), SuperAdminRoleOf(env), ApplicationUserRoleOf(env))
      && out.1.roles == t.roles + [SuperAdminRoleOf(env), ApplicationUserRoleOf(env)]
    // the errors raised after settling can never arise
    ensures out.0 != Failure(SuperAdminRoleError) && out.0 != Failure(ApplicationUserRoleError)
  {
    if !env.applicationOk then (Failure(ApplicationInsertFailed), t)
    else
      var application := Application(env.applicationId, name);
      var t1 := t.(applications := t.applications + [application]);
      if !env.superAdminOk then (Failure(RoleInsertFailed(SUPER_ADMIN)), t1)
      else
        var t2 := t1.(roles := t.roles + [SuperAdminRoleOf(env)]);
        if !env.applicationUserOk then (Failure(RoleInsertFailed(APPLICATION_USER)), t2)
        else
          (CheckSettled(application, Fulfilled(SuperAdminRoleOf(env)), Fulfilled(ApplicationUserRoleOf(env))),
           t2.(roles := t2.roles + [ApplicationUserRoleOf(env)]))
  }

  /** createApplicationHandler, step by step against the store. */
  method CreateApplicationHandler(db: Database, name: string, env: BootstrapEnv)
    returns (r: Result<Provisioned, BootstrapError>)
    modifies db
    ensures (r, db.State()) == Bootstrap(old(db.State()), name, env)
  {
    var application := db.InsertApplication(Application(env.applicationId, name), env.applicationOk);
    if application.Failure? {
      return Failure(ApplicationInsertFailed);
    }
    var superAdminRole := db.InsertRole(
      Role(env.superAdminRoleId, SUPER_ADMIN, application.value.id, ALL_PERMISSIONS), env.superAdminOk);
    if superAdminRole.Failure? {
      return Failure(RoleInsertFailed(SUPER_ADMIN));
    }
    var applicationUserRole := db.InsertRole(
      Role(env.applicationUserRoleId, APPLICATION_USER, application.value.id, USER_ROLE_PERMISSIONS), env.applicationUserOk);
    if applicationUserRole.Failure? {
      return Failure(RoleInsertFailed(APPLICATION_USER));
    }
    r := CheckSettled(application.value, Fulfilled(superAdminRole.value), Fulfilled(applicationUserRole.value));
  }

  /** After a successful bootstrap of a fresh tenant, the role lookup of
      either system role by name finds the role just created, and the two
      carry the whole registry and its strict default subset. */
  lemma BootstrapProvisionsSystemRoles(t: Tables, name: string, env: BootstrapEnv)
    requires forall role :: role in t.roles ==> role.applicationId != env.applicationId
    requires env.applicationOk && env.superAdminOk && env.applicationUserOk
    ensures var roles := Bootstrap(t, name, env).1.roles;
      && GetRoleByName(roles, SUPER_ADMIN, env.applicationId) == Some(SuperAdminRoleOf(env))
      && GetRoleByName(roles, APPLICATION_USER, env.applicationId) == Some(ApplicationUserRoleOf(env))
    ensures Elements(SuperAdminRoleOf(env).permissions) == Elements(ALL_PERMISSIONS)
    ensures Elements(ApplicationUserRoleOf(env).permissions) < Elements(ALL_PERMISSIONS)
  {
    var roles := Bootstrap(t, name, env).1.roles;
    RoleLookupSkipsOtherTenants(t.roles, [SuperAdminRoleOf(env), ApplicationUserRoleOf(env)], SUPER_ADMIN, env.applicationId);
    RoleLookupSkipsOtherTenants(t.roles, [SuperAdminRoleOf(env), ApplicationUserRoleOf(env)], APPLICATION_USER, env.applicationId);
    UserRolePermissionsStrictSubset();
  }

  /** Roles of other tenants in front do not change a tenant's lookup. */
  lemma {:induction false} RoleLookupSkipsOtherTenants(others: seq<Role>, roles: seq<Role>, name: string, applicationId: string)
    requires forall role :: role in others ==> role.applicationId != applicationId
    ensures GetRoleByName(others + roles, name, applicationId) == GetRoleByName(roles, name, applicationId)
    decreases |others|
  {
    if others == [] {
      assert others + roles == roles;
    } else {
      assert (others + roles)[0] == others[0] && others[0] in others;
      assert (others + roles)[1..] == others[1..] + roles;
      RoleLookupSkipsOtherTenants(others[1..], roles, name, applicationId);
    }
  }
}
