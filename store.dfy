/** The persistence collaborator: the four tables the core reads and writes,
    held in memory, and the lookups and inserts the core performs on them.
    Generated ids and the database's success or failure are outside facts,
    so every insert receives the new row (with its id) and an `ok` flag. */
module Store {
  import opened Wrappers

  datatype Application = Application(id: string, name: string)

  datatype Role = Role(id: string, name: string, applicationId: string, permissions: seq<string>)

  /** A row of the users table; `password` holds the stored digest. */
  datatype User = User(id: string, name: string, email: string, applicationId: string, password: string)

  /** A row of the users-to-roles table: one role assignment in one tenant. */
  datatype UserRole = UserRole(userId: string, roleId: string, applicationId: string)

  /** A snapshot of the whole store. */
  datatype Tables = Tables(
    applications: seq<Application>,
    roles: seq<Role>,
    users: seq<User>,
    usersToRoles: seq<UserRole>)

  /** The database rejected an insert (constraint violation, lost connection). */
  datatype DbError = InsertFailed

  /** The role lookup by name inside one tenant: the first role of the table
      with that name and that application id, or nothing. */
  function GetRoleByName(roles: seq<Role>, name: string, applicationId: string): (r: Option<Role>)
    ensures r.Some? ==> r.value in roles && r.value.name == name && r.value.applicationId == applicationId
    ensures r.None? <==> forall role :: role in roles ==> !(role.name == name && role.applicationId == applicationId)
  {
    if roles == [] then None
    else if roles[0].name == name && roles[0].applicationId == applicationId then Some(roles[0])
    else GetRoleByName(roles[1..], name, applicationId)
  }

  class Database {
    var applications: seq<Application>
    var roles: seq<Role>
    var users: seq<User>
    var usersToRoles: seq<UserRole>

    constructor ()
      ensures State() == Tables([], [], [], [])
    {
      applications, roles, users, usersToRoles := [], [], [], [];
    }

    function State(): Tables
      reads this
    {
      Tables(applications, roles, users, usersToRoles)
    }

    method InsertApplication(row: Application, ok: bool) returns (r: Result<Application, DbError>)
      modifies this
      ensures r == if ok then Success(row) else Failure(InsertFailed)
      ensures State() == if ok then old(State()).(applications := old(applications) + [row]) else old(State())
    {
      if !ok {
        return Failure(InsertFailed);
      }
      applications := applications + [row];
      r := Success(row);
    }

    method InsertRole(row: Role, ok: bool) returns (r: Result<Role, DbError>)
      modifies this
      ensures r == if ok then Success(row) else Failure(InsertFailed)
      ensures State() == if ok then old(State()).(roles := old(roles) + [row]) else old(State())
    {
      if !ok {
        return Failure(InsertFailed);
      }
      roles := roles + [row];
      r := Success(row);
    }

    method InsertUser(row: User, ok: bool) returns (r: Result<User, DbError>)
      modifies this
      ensures r == if ok then Success(row) else Failure(InsertFailed)
      ensures State() == if ok then old(State()).(users := old(users) + [row]) else old(State())
    {
      if !ok {
        return Failure(InsertFailed);
      }
      users := users + [row];
      r := Success(row);
    }

    method InsertUserRole(row: UserRole, ok: bool) returns (r: Result<UserRole, DbError>)
      modifies this
      ensures r == if ok then Success(row) else Failure(InsertFailed)
      ensures State() == if ok then old(State()).(usersToRoles := old(usersToRoles) + [row]) else old(State())
    {
      if !ok {
        return Failure(InsertFailed);
      }
      usersToRoles := usersToRoles + [row];
      r := Success(row);
    }
  }
}
