/** The users controllers (src/modules/users/users.controllers.ts):
    registration, login and role assignment as decision procedures over the
    store, each answering with a body or an error reply. */
module UserControllers {
  import opened Wrappers
  import opened Store
  import opened Permissions
  import opened Jwt
  import opened UserServices
  import opened Aggregation

  datatype CreateUserBody = CreateUserBody(
    name: string, email: string, password: string, applicationId: string, initialUser: Option<bool>)

  datatype LoginBody = LoginBody(email: string, password: string, applicationId: string)

  datatype AssignRoleToUserBody = AssignRoleToUserBody(userId: string, roleId: string, applicationId: string)

  /** The error replies the controllers send, with their extensions. */
  datatype ApiError =
    | ApplicationAlreadySuperUser(applicationId: string)
    | RoleNotFound(roleName: string)
    | InternalServerError
    | InvalidCredentials
  {
    function StatusCode(): int {
      match this
      case ApplicationAlreadySuperUser(_) => 400
      case RoleNotFound(_) => 400
      case InternalServerError => 500
      case InvalidCredentials => 401
    }

    function Code(): string {
      match this
      case ApplicationAlreadySuperUser(_) => "APPLICATION_ALREADY_SUPER_USER"
      case RoleNotFound(_) => "ROLE_NOT_FOUND"
      case InternalServerError => "INTERNAL_SERVER_ERROR"
      case InvalidCredentials => "INVALID_CREDENTIALS"
    }

    function Message(): string {
      match this
      case ApplicationAlreadySuperUser(_) => "User already exists for this application"
      case RoleNotFound(_) => "Role not found"
      case InternalServerError => "Internal server error"
      case InvalidCredentials => "Invalid credentials"
    }
  }

  datatype Reply<+T> = Ok(body: T) | Error(error: ApiError)

  datatype LoginResponse = LoginResponse(token: string)

  /** What the registration's collaborators do: the password hash, the id the
      database gives the new user, the application id createUser's query
      returns, and whether createUser and the role assignment succeed. */
  datatype RegisterEnv = RegisterEnv(
    hash: string -> string, newUserId: string, returnedApplicationId: string,
    createSucceeds: bool, assignSucceeds: bool)

  /** The role a registration asks for: SUPER_ADMIN for a truthy
      `initialUser`, APPLICATION_USER when it is false or absent. */
  function RoleNameFor(initialUser: Option<bool>): (name: string)
    ensures name == SUPER_ADMIN <==> initialUser == Some(true)
    ensures name == APPLICATION_USER <==> initialUser != Some(true)
  {
    if initialUser == Some(true) then SUPER_ADMIN else APPLICATION_USER
  }

  /** The tenant already has at least one user. */
  predicate TenantHasUser(t: Tables, applicationId: string) {
    exists u :: u in t.users && u.applicationId == applicationId
  }

  /** The tenant has a role with this name. */
  predicate TenantHasRole(t: Tables, name: string, applicationId: string) {
    exists role :: role in t.roles && role.name == name && role.applicationId == applicationId
  }

  /** The users-table row a registration writes: the digest, never the plaintext. */
  function NewUserRow(body: CreateUserBody, env: RegisterEnv): User {
    User(env.newUserId, body.name, body.email, body.applicationId, env.hash(body.password))
  }

  /** The registration decision: the reply and the store afterwards. */
  function Register(t: Tables, body: CreateUserBody, env: RegisterEnv): (out: (Reply<CreatedUser>, Tables))
    // a super-admin registration into a populated tenant is refused first, with no write
    ensures out.0 == Error(ApplicationAlreadySuperUser(body.applicationId))
      <==> body.initialUser == Some(true) && TenantHasUser(t, body.applicationId)
    // a missing role is refused next, with no write
    ensures out.0 == Error(RoleNotFound(RoleNameFor(body.initialUser)))
      <==> !(body.initialUser == Some(true) && TenantHasUser(t, body.applicationId))
           && !TenantHasRole(t, RoleNameFor(body.initialUser), body.applicationId)
    ensures out.0.Error? && out.0.error.StatusCode() == 400 ==>
      out.1 == t
      && (out.0.error == ApplicationAlreadySuperUser(body.applicationId)
          || out.0.error == RoleNotFound(RoleNameFor(body.initialUser)))
    // success needs the role and both writes
    ensures out.0.Ok? <==>
      !(body.initialUser == Some(true) && TenantHasUser(t, body.applicationId))
      && TenantHasRole(t, RoleNameFor(body.initialUser), body.applicationId)
      && env.createSucceeds && env.assignSucceeds
    ensures out.0.Ok? ==> out.0.body == CreatedUser(env.newUserId, body.email, body.name, env.returnedApplicationId)
    ensures out.0.Ok? ==>
      exists role :: role in t.roles && role.name == RoleNameFor(body.initialUser) && role.applicationId == body.applicationId
        && out.1.usersToRoles == t.usersToRoles + [UserRole(env.newUserId, role.id, body.applicationId)]
    // every other outcome is the internal error, and a created user stays
    ensures out.0.Error? ==> out.0.error.StatusCode() == 400 || out.0.error == InternalServerError
    ensures !(body.initialUser == Some(true) && TenantHasUser(t, body.applicationId))
      && TenantHasRole(t, RoleNameFor(body.initialUser), body.applicationId)
      && !(env.createSucceeds && env.assignSucceeds)
      ==> out.0 == Error(InternalServerError)
    ensures out.0 == Error(InternalServerError) ==> out.1.usersToRoles == t.usersToRoles
    ensures out.0.Ok? || (out.0 == Error(InternalServerError) && env.createSucceeds)
      <==> out.1.users == t.users + [NewUserRow(body, env)]
    ensures out.1.users == t.users || out.1.users == t.users + [NewUserRow(body, env)]
    ensures out.1.applications == t.applications && out.1.roles == t.roles
  {
    var applicationId := body.applicationId;
    var roleName := RoleNameFor(body.initialUser);
    var role := GetRoleByName(t.roles, roleName, applicationId);
    var appUsers := GetUserByApplication(t.users, applicationId);
    assert appUsers != [] ==> appUsers[0] in appUsers;
    if roleName == SUPER_ADMIN && |appUsers| > 0 then
      (Error(ApplicationAlreadySuperUser(applicationId)), t)
    else if role.None? then
      (Error(RoleNotFound(roleName)), t)
    else if !env.createSucceeds then
      (Error(InternalServerError), t)
    else
      var created := t.(users := t.users + [NewUserRow(body, env)]);
      if !env.assignSucceeds then
        (Error(InternalServerError), created)
      else
        (Ok(CreatedUser(env.newUserId, body.email, body.name, env.returnedApplicationId)),
         created.(usersToRoles := t.usersToRoles + [UserRole(env.newUserId, role.value.id, applicationId)]))
  }

  /** createUserHandler, step by step against the store. */
  method CreateUserHandler(db: Database, body: CreateUserBody, env: RegisterEnv) returns (reply: Reply<CreatedUser>)
    modifies db
    ensures (reply, db.State()) == Register(old(db.State()), body, env)
  {
    var data := NewUser(body.name, body.email, body.password, body.applicationId);
    var roleName := RoleNameFor(body.initialUser);
    var role := GetRoleByName(db.roles, roleName, data.applicationId);
    if roleName == SUPER_ADMIN {
      var appUsers := GetUserByApplication(db.users, data.applicationId);
      if |appUsers| > 0 {
        return Error(ApplicationAlreadySuperUser(data.applicationId));
      }
    }
    if role.None? {
      return Error(RoleNotFound(roleName));
    }
    var user := CreateUser(db, data, env.hash, env.newUserId, env.returnedApplicationId, env.createSucceeds);
    if user.Failure? {
      return Error(InternalServerError);
    }
    var link := AssignRoleToUser(db, UserRole(user.value.id, role.value.id, data.applicationId), env.assignSucceeds);
    if link.Failure? {
      return Error(InternalServerError);
    }
    reply := Ok(user.value);
  }

  /** The ordering of the checks: a super-admin registration into a
      populated tenant is refused as such even when the tenant has no
      SUPER_ADMIN role, and nothing is written. */
  lemma SuperUserCheckPrecedesRoleLookup(t: Tables, body: CreateUserBody, env: RegisterEnv)
    requires body.initialUser == Some(true) && TenantHasUser(t, body.applicationId)
    requires !TenantHasRole(t, SUPER_ADMIN, body.applicationId)
    ensures Register(t, body, env) == (Error(ApplicationAlreadySuperUser(body.applicationId)), t)
  {
  }

  // ---------------------------------------------------------------------
  // Login.

  /** The token payload login signs: the resolved user's id and permissions,
      and the email and tenant as given in the request body. */
  function LoginPayload(t: Tables, body: LoginBody): (p: Option<TokenPayload>)
    ensures p.None? <==> forall u :: u in t.users ==> !Matches(u, body.email, body.applicationId)
    ensures p.Some? ==> p.value.email == body.email && p.value.applicationId == body.applicationId
    ensures p.Some? ==> exists u :: u in t.users && Matches(u, body.email, body.applicationId) && p.value.id == u.id
  {
    var user := Reduce(JoinRows(t, body.email, body.applicationId));
    if user.None? then None
    else Some(TokenPayload(user.value.id, body.email, body.applicationId, user.value.permissions))
  }

  /** The login decision. The password of the body plays no part. */
  function Login(t: Tables, body: LoginBody, sign: Signer): (r: Reply<LoginResponse>)
    ensures r.Error? <==> forall u :: u in t.users ==> !Matches(u, body.email, body.applicationId)
    ensures r.Error? ==> r.error == InvalidCredentials && r.error.StatusCode() == 401
    ensures r.Ok? ==> LoginPayload(t, body).Some? && r.body.token == sign(LoginPayload(t, body).value)
  {
    var payload := LoginPayload(t, body);
    if payload.None? then Error(InvalidCredentials) else Ok(LoginResponse(sign(payload.value)))
  }

  /** loginHandler: looks the user up and signs its permissions as scopes. */
  method LoginHandler(db: Database, body: LoginBody, sign: Signer) returns (reply: Reply<LoginResponse>)
    ensures reply == Login(db.State(), body, sign)
  {
    var user := GetUserByEmail(db, body.email, body.applicationId);
    if user.None? {
      return Error(InvalidCredentials);
    }
    var token := sign(TokenPayload(user.value.id, body.email, body.applicationId, user.value.permissions));
    reply := Ok(LoginResponse(token));
  }

  /** The scopes login signs are, without duplicates, exactly the
      permissions the user's roles grant within the tenant. */
  lemma LoginScopesAreGrantedPermissions(t: Tables, body: LoginBody)
    requires forall u :: u in t.users ==> u.id != ""
    ensures LoginPayload(t, body).Some? ==>
      && NoDuplicates(LoginPayload(t, body).value.scopes)
      && forall p :: p in LoginPayload(t, body).value.scopes <==> Grants(t, body.email, body.applicationId, p)
  {
    GetUserByEmailResolves(t, body.email, body.applicationId);
  }

  /** Login never looks at the password: any two passwords give the same reply. */
  lemma LoginIgnoresPassword(t: Tables, body: LoginBody, password: string, sign: Signer)
    ensures Login(t, body.(password := password), sign) == Login(t, body, sign)
  {
  }

  // ---------------------------------------------------------------------
  // Role assignment by an authenticated user.

  /** The assignment decision: the tenant is the authenticated user's, the
      body's application id is never read, and a failed insert is a 500. */
  function AssignRole(t: Tables, user: TokenPayload, body: AssignRoleToUserBody, ok: bool): (out: (Reply<UserRole>, Tables))
    ensures out.0.Ok? <==> ok
    ensures out.0.Ok? ==> out.0.body == UserRole(body.userId, body.roleId, user.applicationId)
    ensures out.0.Ok? ==> out.1 == t.(usersToRoles := t.usersToRoles + [out.0.body])
    ensures out.0.Error? ==> out.0.error == InternalServerError && out.1 == t
  {
    var row := UserRole(body.userId, body.roleId, user.applicationId);
    if ok then (Ok(row), t.(usersToRoles := t.usersToRoles + [row])) else (Error(InternalServerError), t)
  }

  /** assignRoleToUserHandler. */
  method AssignRoleToUserHandler(db: Database, user: TokenPayload, body: AssignRoleToUserBody, ok: bool)
    returns (reply: Reply<UserRole>)
    modifies db
    ensures (reply, db.State()) == AssignRole(old(db.State()), user, body, ok)
  {
    var applicationId := user.applicationId;
    var result := AssignRoleToUser(db, UserRole(body.userId, body.roleId, applicationId), ok);
    if result.Failure? {
      return Error(InternalServerError);
    }
    reply := Ok(result.value);
  }

  /** The application id in the body never matters. */
  lemma AssignRoleIgnoresBodyApplication(t: Tables, user: TokenPayload, body: AssignRoleToUserBody, applicationId: string, ok: bool)
    ensures AssignRole(t, user, body.(applicationId := applicationId), ok) == AssignRole(t, user, body, ok)
  {
  }
}
