# Multi-tenant RBAC core, modelled in Dafny

This project models the decision logic of a small multi-tenant role-based
access control service. Each application is a tenant that owns its own roles,
users and role assignments. The model covers five pieces:

- the permission registry (seven permissions, the identity record over them,
  the default user subset, the two system role names);
- the user service: creating a user with a hashed password, listing a
  tenant's users, inserting a role assignment, and `getUserByEmail`, which
  left-joins users to their assignments and to roles and folds the rows into
  one user whose permissions are the de-duplicated union of every role's list;
- the users controllers: registration (role choice, the "tenant already has a
  user" check, the role-not-found check, create-then-assign with a 500 on any
  failure), login (401 when no user matches, otherwise a token over the
  resolved permissions) and role assignment by an authenticated user;
- the tenant bootstrap: create the application, then the SUPER_ADMIN role with
  every permission, then the APPLICATION_USER role with the default subset;
- the request hook: strip the first `"Bearer "`, trim, verify, and set the
  request's user only on success.

The database is an in-memory store of four tables (`Store.Database`). The
argon2 hash, `jwt.sign` and `jwt.verify` are function values passed in. Ids the
database generates, and whether each insert succeeds, are parameters. Each
controller is a method over the store, proved equal to a pure decision function
(`Register`, `Login`, `AssignRole`, `Bootstrap`); the properties are stated
on those functions and in lemmas.

Files: `wrappers.dfy` (Option, Result), `permissions.dfy`, `store.dfy`,
`jwt.dfy`, `users_services.dfy`, `users_aggregation.dfy` (the lemmas about
`getUserByEmail`), `users_controllers.dfy`, `applications_controllers.dfy`,
`server.dfy`, `scenario.dfy` (one tenant's life from an empty store).

Notable behaviours of the code, which the model keeps:

- The two `createRole` calls of the bootstrap are each awaited in turn, so
  they run one after the other. A failing SUPER_ADMIN role stops the handler
  before the APPLICATION_USER role is attempted. `Promise.allSettled` then
  only ever sees fulfilled values, so the two errors raised after it can never
  arise (`ApplicationControllers.Bootstrap`). Their priority, super-admin
  first, is still modelled in `CheckSettled`.
- Login does not check the password. It fails only when no user matches the
  email in the tenant.
- The resolved permissions come in first-occurrence order over the joined
  rows, not in an unspecified order.
- The role join is by role id alone. Only the assignment join checks the
  tenant.

## Model

| member | source | states |
|---|---|---|
| `Permissions.IdentityRecord` | src/config/permissions.ts:16-20 | the reduce over a permission list yields a record whose keys are exactly the list's elements, each mapped to itself |
| `Permissions.AllPermissionsDistinct` | src/config/permissions.ts:1-14 | the registry has exactly seven entries, pairwise distinct |
| `Permissions.PermissionsIsIdentity` | src/config/permissions.ts:16-20 | PERMISSIONS has exactly the registry's permissions as keys and maps each to itself |
| `Permissions.UserRolePermissionsStrictSubset` | src/config/permissions.ts:22-25 | the default user permissions are ["posts:write", "posts:read"], duplicate-free, a strict subset of the registry |
| `Permissions.SystemRolesDistinct` | src/config/permissions.ts:27-30 | the two system role names differ |
| `Store.GetRoleByName` | src/modules/users/users.controllers.ts:30-33 | the role lookup returns a role of the table with that name and tenant, and returns nothing exactly when no such role exists |
| `Store.Database.InsertApplication` | src/modules/applications/applications.controllers.ts:18-20 | a successful insert appends the application and returns it; a failed one changes nothing |
| `Store.Database.InsertRole` | src/modules/applications/applications.controllers.ts:22-32 | a successful insert appends the role and returns it; a failed one changes nothing |
| `Store.Database.InsertUser` | src/modules/users/users.services.ts:9-14 | a successful insert appends the user row and returns it; a failed one changes nothing |
| `Store.Database.InsertUserRole` | src/modules/users/users.services.ts:36 | a successful insert appends the assignment and returns it; a failed one changes nothing |
| `UserServices.CreateUser` | src/modules/users/users.services.ts:6-23 | the stored row holds hash(password), never the plaintext, in the user's tenant; the result has only the new id, email and name, and the application id the `returning` clause yields; a failure writes nothing |
| `UserServices.GetUserByApplication` | src/modules/users/users.services.ts:25-31 | returns exactly the users whose application id is the argument |
| `UserServices.AssignRoleToUser` | src/modules/users/users.services.ts:33-38 | appends exactly the given assignment and returns it, or fails and writes nothing |
| `UserServices.RoleRows` | src/modules/users/users.services.ts:66 | the second left join yields a row for every role with the assignment's role id, and no other rows |
| `UserServices.LinkRows` | src/modules/users/users.services.ts:59-65 | every row comes from an assignment of the user in the user's own tenant, or is null-extended; every such assignment and role is present; no rows exactly when the user owns no assignment |
| `UserServices.UserRows` | src/modules/users/users.services.ts:59-66 | a user always contributes at least one row (left join), and only rows from its own assignments |
| `UserServices.UsersRows` | src/modules/users/users.services.ts:47-66 | the join yields no rows exactly when no user matches email and tenant; every row carries a matching user's identity; every non-null permission list comes from a role reached through an assignment of that tenant, and every such role is present |
| `UserServices.JoinRows` | src/modules/users/users.services.ts:47-66 | the lookup's join yields no rows exactly when no user of the tenant has the email, and every row carries the identity columns of such a user |
| `UserServices.AddPermission` | src/modules/users/users.services.ts:85 | Set.add keeps the set duplicate-free and adds exactly the new element |
| `UserServices.AddAll` | src/modules/users/users.services.ts:84-86 | adding a list to an insertion-ordered set keeps the elements already there in place, appends at most one element per item, and keeps the set duplicate-free |
| `UserServices.AddAllMembers` | src/modules/users/users.services.ts:84-86 | adding a list to a set yields exactly the union of their elements |
| `UserServices.Seed` | src/modules/users/users.services.ts:73-78 | the first accumulator takes the row's identity columns and, duplicate-free, exactly the row's permissions (none for a null list) |
| `UserServices.Step` | src/modules/users/users.services.ts:72-89 | a falsy accumulator is replaced by the row; otherwise the accumulator keeps its identity, a null list changes nothing, and the row's permissions are added after the existing ones, keeping duplicate-freedom |
| `UserServices.Reduce` | src/modules/users/users.services.ts:68-89 | the lookup yields null exactly when the join yields no row; otherwise the identity columns are those of one of the rows |
| `UserServices.AddEach` | src/modules/users/users.services.ts:84-86 | the loop adding a list's permissions one by one leaves the set equal to the fold AddAll |
| `UserServices.GetUserByEmail` | src/modules/users/users.services.ts:40-95 | the method with loops returns exactly the fold of the joined rows |
| `Aggregation.AddAllConcat` | src/modules/users/users.services.ts:72-89 | adding two lists one after the other equals adding their concatenation |
| `Aggregation.DedupOrder` | src/modules/users/users.services.ts:91-94 | Array.from of a set built from a list lists the elements in the order of their first occurrences |
| `Aggregation.FlattenMembers` | src/modules/users/users.services.ts:80-86 | a permission is among the concatenated non-null lists exactly when some row's list holds it |
| `Aggregation.ReduceFromFirstRow` | src/modules/users/users.services.ts:72-89 | when the first row has an id, the identity fields are the first row's, and the permissions are the first occurrences of all non-null lists |
| `Aggregation.ReduceNoDuplicates` | src/modules/users/users.services.ts:72-94 | the resolved permissions never contain a duplicate |
| `Aggregation.PermissionsIndependentOfRowOrder` | src/modules/users/users.services.ts:47-94 | rows in any order give the same permission set |
| `Aggregation.JoinPermissions` | src/modules/users/users.services.ts:57-66 | the joined rows' permissions are exactly those granted to matching users by assignments of the same tenant |
| `Aggregation.GetUserByEmailResolves` | src/modules/users/users.services.ts:40-95 | null exactly when no user of the tenant has the email; otherwise a matching user's identity and exactly the granted permissions, duplicate-free, in first-occurrence order |
| `Aggregation.UnassignedUserHasNoPermissions` | src/modules/users/users.services.ts:72-94 | a user with no assignment still resolves (not null), with no permissions |
| `Aggregation.LinkRowsIgnoreForeignLink` | src/modules/users/users.services.ts:59-65 | an assignment the user does not own adds no row |
| `Aggregation.UsersRowsIgnoreForeignLink` | src/modules/users/users.services.ts:58-65 | an assignment of another tenant changes no row of this tenant's lookup |
| `Aggregation.UsersRowsIgnoreForeignUser` | src/modules/users/users.services.ts:58 | a user of another tenant changes no row of this tenant's lookup |
| `Aggregation.TenantIsolation` | src/modules/users/users.services.ts:58-66 | users and assignments written for other tenants leave the lookup unchanged |
| `UserControllers.RoleNameFor` | src/modules/users/users.controllers.ts:26-28 | SUPER_ADMIN exactly when initialUser is true; APPLICATION_USER when it is false or absent |
| `UserControllers.Register` | src/modules/users/users.controllers.ts:18-75 | a super-admin registration into a populated tenant is refused with APPLICATION_ALREADY_SUPER_USER before the role check; otherwise a missing role gives ROLE_NOT_FOUND with the role name; these are the only 400s, and they write nothing; success needs the role and both writes, returns the created user, and adds exactly one user (with the digest) and one assignment (user, role, tenant); once both checks pass, a failed create or assign is a 500, which keeps a user already created |
| `UserControllers.CreateUserHandler` | src/modules/users/users.controllers.ts:18-75 | the step-by-step handler yields exactly Register's reply and store |
| `UserControllers.SuperUserCheckPrecedesRoleLookup` | src/modules/users/users.controllers.ts:35-56 | a populated tenant without a SUPER_ADMIN role still answers APPLICATION_ALREADY_SUPER_USER and writes nothing |
| `UserControllers.LoginPayload` | src/modules/users/users.controllers.ts:85-104 | no payload exactly when no user has the email in the tenant; the payload's id is the id of such a user; its email and tenant are the request's |
| `UserControllers.Login` | src/modules/users/users.controllers.ts:83-105 | 401 INVALID_CREDENTIALS exactly when no user matches; otherwise the token signs the resolved payload |
| `UserControllers.LoginHandler` | src/modules/users/users.controllers.ts:77-106 | the handler yields exactly Login's reply |
| `UserControllers.LoginScopesAreGrantedPermissions` | src/modules/users/users.controllers.ts:96-104 | the signed scopes are duplicate-free and exactly the permissions the user's roles grant in the tenant |
| `UserControllers.LoginIgnoresPassword` | src/modules/users/users.controllers.ts:83-105 | the password never changes the login reply |
| `UserControllers.AssignRole` | src/modules/users/users.controllers.ts:114-133 | the assignment uses the authenticated user's tenant; a success appends it; a failed insert is a 500 with no write |
| `UserControllers.AssignRoleToUserHandler` | src/modules/users/users.controllers.ts:108-134 | the handler yields exactly AssignRole's reply and store |
| `UserControllers.AssignRoleIgnoresBodyApplication` | src/modules/users/users.controllers.ts:114-123 | the body's application id never changes the outcome |
| `ApplicationControllers.CheckSettled` | src/modules/applications/applications.controllers.ts:34-51 | a rejected super-admin result raises the super-admin error whatever the other; success is exactly both fulfilled, and returns application and both roles |
| `ApplicationControllers.Bootstrap` | src/modules/applications/applications.controllers.ts:11-52 | the application is written first and stays; a failed SUPER_ADMIN role stops before the APPLICATION_USER role; success returns the application and both roles scoped to it, with all permissions and the default subset, appended in that order; the errors raised after settling never arise |
| `ApplicationControllers.CreateApplicationHandler` | src/modules/applications/applications.controllers.ts:11-52 | the step-by-step handler yields exactly Bootstrap's outcome and store |
| `ApplicationControllers.BootstrapProvisionsSystemRoles` | src/modules/applications/applications.controllers.ts:18-32 | in a fresh tenant, the lookup by name then finds both new roles; the super-admin role holds the whole registry, the user role a strict subset |
| `ApplicationControllers.RoleLookupSkipsOtherTenants` | src/modules/applications/applications.controllers.ts:22-32 | roles of other tenants placed before a tenant's roles never change its role lookup |
| `Server.TrimStart` | src/utils/server.ts:32 | removes exactly the leading JavaScript whitespace |
| `Server.TrimEnd` | src/utils/server.ts:32 | removes exactly the trailing JavaScript whitespace |
| `Server.Trim` | src/utils/server.ts:32 | trim never lengthens the string and leaves no whitespace at either end |
| `Server.IndexOf` | src/utils/server.ts:32 | finds the first occurrence of the pattern, or reports that none exists |
| `Server.Replace` | src/utils/server.ts:32 | String.replace with a string pattern replaces only the first occurrence; no occurrence leaves the string unchanged |
| `Server.ExtractToken` | src/utils/server.ts:32 | the token is never longer than the header, has no whitespace at its ends, and a header without "Bearer " is only trimmed |
| `Server.TrimKeepsInterior` | src/utils/server.ts:32 | trim keeps a contiguous piece of the header, starting where the leading whitespace ends, and cuts only whitespace after it |
| `Server.BearerRoundTrip` | src/utils/server.ts:32 | "Bearer " followed by a token without outer whitespace gives the token back |
| `Server.ReplaceFirstBearer` | src/utils/server.ts:32 | when the text before the first "Bearer " holds none, replacing it with "" joins the text before and after it |
| `Server.BearerRemovedAnywhere` | src/utils/server.ts:32 | for every header `a + "Bearer " + b` with no earlier "Bearer ", the token is the trimmed `a + b`: the first occurrence is removed even when it is not a prefix |
| `Server.OnlyFirstBearerRemoved` | src/utils/server.ts:32 | for every `b`, the header `"Bearer " + b` gives the trimmed `b`: any later "Bearer " stays in the token |
| `Server.Request.OnRequest` | src/utils/server.ts:24-38 | a missing or empty header leaves the user unchanged; a verified token sets the user to its payload; a failed verification leaves the user unchanged |
| `Server.GuardErrorReply` | src/utils/server.ts:44-46 | whatever the guard's result, the error handler sends "Unauthorized" |
| `Scenario.FirstSuperAdminRegisters` | src/modules/users/users.controllers.ts:24-66 | the first super-admin of a tenant without users is created, with the reply createUser returns, appended to the users table and assigned the tenant's SUPER_ADMIN role, whatever other tenants hold |
| `Scenario.SoleSuperAdminGrants` | src/modules/users/users.services.ts:47-66 | a user alone with its email in its tenant, whose only assignment there is to a SUPER_ADMIN role with the whole registry (and any other role sharing that id stays inside the registry), is granted exactly the registry, whatever other tenants hold |
| `Scenario.SoleSuperAdminScopes` | src/modules/users/users.controllers.ts:85-104 | a user alone with its email in its tenant, whose only assignment there is to a SUPER_ADMIN role with the whole registry (and any other role sharing that id stays inside the registry), logs in with exactly the registry as scopes, whatever other tenants hold |
| `Scenario.TenantLifecycle` | src/modules/applications/applications.controllers.ts:11-52 | from an empty store: bootstrap, the first super-admin registers, a second is refused with no write, and the first logs in with all seven permissions |

## Left out

- The SQL queries are modelled as functions over in-memory tables. SQL gives the join no row order, so the model uses table order. The permission set does not depend on it (`PermissionsIndependentOfRowOrder`), but the list order and the identity fields (first row) do.
- Database constraints (foreign keys, unique keys) and the reasons an insert fails are not modelled. Each insert's success is a parameter.
- Generated ids (database uuids) are parameters.
- argon2 hashing, `jwt.sign` and `jwt.verify` are opaque function parameters. A hash failure counts as a failure of `createUser`.
- `src/modules/roles/roles.services.ts` is not part of this model. `getRoleByName` is modelled as the first role with that name and tenant, and `createRole` as a plain insert. No registry check is made on a role's permissions.
- `src/modules/applications/applications.services.ts` is not part of this model. `createApplication` is modelled as a plain insert.
- UserServices.CreateUser: the returned `applicationId` is a parameter (`RegisterEnv.returnedApplicationId`). The source's `returning` clause names a column of the applications table, which the insert does not write, and what the query builder returns for it is not part of this model.
- Aggregation.GetUserByEmailResolves: assumes every stored user id is non-empty. The ids are database uuids. With an empty first id, the reduce re-seeds on the next row and drops earlier permissions; `UserServices.Step` models that as written.
- Aggregation.UnassignedUserHasNoPermissions: assumes every stored user id is non-empty, as above.
- UserControllers.LoginScopesAreGrantedPermissions: assumes every stored user id is non-empty, as above.
- Scenario.SoleSuperAdminScopes: assumes every stored user id is non-empty, as above.
- Aggregation.PermissionsIndependentOfRowOrder: assumes the first row of each ordering has a non-empty id, as above.
- Reads and signing are total in the model. In the source, `getRoleByName` (`src/modules/users/users.controllers.ts:30`), `getUserByApplication` (line 36), `getUserByEmail` (line 85) and `jwt.sign` (line 96) run outside any `try`; if one of them rejects, the framework's default error reply is sent and nothing is written. The model has lookups that always answer and a total `Signer`, so it does not capture those failures.
- UserControllers.AssignRoleToUserHandler: takes the authenticated user as given. A request that reaches the handler without `request.user` fails outside the `try`, which is not modelled.
- Errors the bootstrap handler throws are returned as `BootstrapError` values. The framework's default error reply is not modelled.
- Promises and `async` are not modelled. Every step in these handlers is awaited in turn.
- Request validation (`src/modules/users/users.schemas.ts`) is not modelled; only its field shapes are kept.
- The fastify-guard scope matching, route registration and the logger (`src/utils/server.ts:40-52`, apart from the error handler) are not modelled, and neither is the `logger.error` call.
- `getApplicationsHandler` only passes its call through and is not modelled.
- Reply bodies are modelled as `ApiError` values with their status, code and message.
