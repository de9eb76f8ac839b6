/** The user service (src/modules/users/users.services.ts): creating users,
    listing a tenant's users, assigning roles, and resolving a user with the
    permissions of all its roles. */
module UserServices {
  import opened Wrappers
  import opened Store
  import opened Permissions

  /** The fields of a new user, without `initialUser`. */
  datatype NewUser = NewUser(name: string, email: string, password: string, applicationId: string)

  /** What `createUser` returns: the identity fields, never the digest. */
  datatype CreatedUser = CreatedUser(id: string, email: string, name: string, applicationId: string)

  /** Hashes the password and inserts the user with the digest in place of
      the plaintext. `ok` is whether hashing and the insert both succeed.
      The `applicationId` of the result comes from a column of the
      applications table, which the insert does not write; what the query
      builder returns for it is the parameter `returnedApplicationId`. */
  method CreateUser(db: Database, data: NewUser, hash: string -> string, id: string,
                    returnedApplicationId: string, ok: bool)
    returns (r: Result<CreatedUser, DbError>)
    modifies db
    ensures ok ==> r == Success(CreatedUser(id, data.email, data.name, returnedApplicationId))
    ensures ok ==> db.State() == old(db.State()).(users := old(db.users) + [User(id, data.name, data.email, data.applicationId, hash(data.password))])
    ensures !ok ==> r.Failure? && db.State() == old(db.State())
  {
    var digest := hash(data.password);
    var inserted := db.InsertUser(User(id, data.name, data.email, data.applicationId, digest), ok);
    if inserted.Failure? {
      return Failure(inserted.error);
    }
    var row := inserted.value;
    r := Success(CreatedUser(row.id, row.email, row.name, returnedApplicationId));
  }

  /** The users of one tenant, in table order. */
  function GetUserByApplication(users: seq<User>, applicationId: string): (r: seq<User>)
    ensures forall u :: u in r <==> u in users && u.applicationId == applicationId
    ensures |r| <= |users|
  {
    if users == [] then []
    else
      var rest := GetUserByApplication(users[1..], applicationId);
      if users[0].applicationId == applicationId then [users[0]] + rest else rest
  }

  /** Inserts one role assignment as given and returns it. */
  method AssignRoleToUser(db: Database, data: UserRole, ok: bool) returns (r: Result<UserRole, DbError>)
    modifies db
    ensures r == if ok then Success(data) else Failure(InsertFailed)
    ensures db.State() == if ok then old(db.State()).(usersToRoles := old(db.usersToRoles) + [data]) else old(db.State())
  {
    r := db.InsertUserRole(data, ok);
  }

  // ---------------------------------------------------------------------
  // The join of getUserByEmail: users, left-joined to their assignments in
  // their own tenant, left-joined to roles by id.

  /** One row of the join; a missing assignment or role gives null columns. */
  datatype JoinedRow = JoinedRow(
    id: string, email: string, name: string, applicationId: string,
    roleId: Option<string>, password: string, permissions: Option<seq<string>>)

  predicate Matches(u: User, email: string, applicationId: string) {
    u.email == email && u.applicationId == applicationId
  }

  /** The join condition of the first left join. */
  predicate Owns(u: User, link: UserRole) {
    link.userId == u.id && link.applicationId == u.applicationId
  }

  function NullRow(u: User): JoinedRow {
    JoinedRow(u.id, u.email, u.name, u.applicationId, None, u.password, None)
  }

  function RoleRow(u: User, role: Role): JoinedRow {
    JoinedRow(u.id, u.email, u.name, u.applicationId, Some(role.id), u.password, Some(role.permissions))
  }

  /** The row carries the identity columns of user `u`. */
  predicate SameUser(row: JoinedRow, u: User) {
    row.id == u.id && row.email == u.email && row.name == u.name
    && row.applicationId == u.applicationId && row.password == u.password
  }

  /** The rows of user `u` joined with every role whose id is `roleId`. */
  function RoleRows(u: User, roleId: string, roles: seq<Role>): (rows: seq<JoinedRow>)
    ensures forall row :: row in rows ==> exists role :: role in roles && role.id == roleId && row == RoleRow(u, role)
    ensures forall role :: role in roles && role.id == roleId ==> RoleRow(u, role) in rows
  {
    if roles == [] then []
    else
      var rest := RoleRows(u, roleId, roles[1..]);
      if roles[0].id == roleId then [RoleRow(u, roles[0])] + rest else rest
  }

  /** The rows of user `u` for each of its assignments in `links`; an
      assignment whose role is missing gives a row with null role columns. */
  function LinkRows(u: User, links: seq<UserRole>, roles: seq<Role>): (rows: seq<JoinedRow>)
    ensures forall row :: row in rows ==>
      row == NullRow(u) || exists link, role :: link in links && Owns(u, link) && role in roles && role.id == link.roleId && row == RoleRow(u, role)
    ensures forall link, role :: link in links && Owns(u, link) && role in roles && role.id == link.roleId ==> RoleRow(u, role) in rows
    ensures rows == [] <==> forall link :: link in links ==> !Owns(u, link)
  {
    if links == [] then []
    else
      var rest := LinkRows(u, links[1..], roles);
      if Owns(u, links[0]) then
        var matched := RoleRows(u, links[0].roleId, roles);
        (if matched == [] then [NullRow(u)] else matched) + rest
      else rest
  }

  /** All rows of user `u`: at least one, a null-extended row when the user
      has no assignment (left join). */
  function UserRows(u: User, links: seq<UserRole>, roles: seq<Role>): (rows: seq<JoinedRow>)
    ensures rows != []
    ensures forall row :: row in rows ==>
      row == NullRow(u) || exists link, role :: link in links && Owns(u, link) && role in roles && role.id == link.roleId && row == RoleRow(u, role)
    ensures forall link, role :: link in links && Owns(u, link) && role in roles && role.id == link.roleId ==> RoleRow(u, role) in rows
  {
    var rows := LinkRows(u, links, roles);
    if rows == [] then [NullRow(u)] else rows
  }

  /** The rows of every user matching `(email, applicationId)`, in table order. */
  function UsersRows(users: seq<User>, links: seq<UserRole>, roles: seq<Role>, email: string, applicationId: string)
    : (rows: seq<JoinedRow>)
    ensures rows == [] <==> forall u :: u in users ==> !Matches(u, email, applicationId)
    ensures forall row :: row in rows ==> exists u :: u in users && Matches(u, email, applicationId) && SameUser(row, u)
    ensures forall row :: row in rows && row.permissions.Some? ==>
      exists u, link, role :: u in users && Matches(u, email, applicationId) && link in links && Owns(u, link)
        && role in roles && role.id == link.roleId && row == RoleRow(u, role)
    ensures forall u, link, role ::
      u in users && Matches(u, email, applicationId) && link in links && Owns(u, link) && role in roles && role.id == link.roleId
      ==> RoleRow(u, role) in rows
  {
    if users == [] then []
    else
      var rest := UsersRows(users[1..], links, roles, email, applicationId);
      if Matches(users[0], email, applicationId) then UserRows(users[0], links, roles) + rest else rest
  }

  /** The joined rows of the lookup by `(email, applicationId)`. */
  function JoinRows(t: Tables, email: string, applicationId: string): (rows: seq<JoinedRow>)
    ensures rows == [] <==> forall u :: u in t.users ==> !Matches(u, email, applicationId)
    ensures forall row :: row in rows ==> exists u :: u in t.users && Matches(u, email, applicationId) && SameUser(row, u)
  {
    UsersRows(t.users, t.usersToRoles, t.roles, email, applicationId)
  }

  // ---------------------------------------------------------------------
  // The reduce of getUserByEmail.

  /** The resolved user: the identity columns of a row and the accumulated
      permissions, in the insertion order of a JavaScript Set. */
  datatype ResolvedUser = ResolvedUser(
    id: string, email: string, name: string, applicationId: string,
    roleId: Option<string>, password: string, permissions: seq<string>)

  /** `Set.prototype.add` on an insertion-ordered set held as a sequence. */
  function AddPermission(s: seq<string>, p: string): (r: seq<string>)
    ensures NoDuplicates(s) ==> NoDuplicates(r)
    ensures forall q :: q in r <==> q in s || q == p
  {
    if p in s then s else s + [p]
  }

  /** Adding every element of `xs`, left to right. The elements already in
      the set keep their places; new ones are appended. */
  function AddAll(s: seq<string>, xs: seq<string>): (r: seq<string>)
    decreases |xs|
    ensures s <= r && |r| <= |s| + |xs|
    ensures NoDuplicates(s) ==> NoDuplicates(r)
  {
    if xs == [] then s else AddPermission(AddAll(s, xs[..|xs| - 1]), xs[|xs| - 1])
  }

  lemma {:induction false} AddAllMembers(s: seq<string>, xs: seq<string>)
    ensures forall p :: p in AddAll(s, xs) <==> p in s || p in xs
    decreases |xs|
  {
    if xs != [] {
      var init := xs[..|xs| - 1];
      AddAllMembers(s, init);
      assert xs == init + [xs[|xs| - 1]];
    }
  }

  /** The non-null permission list of a row, or nothing. */
  function RowPermissions(row: JoinedRow): seq<string> {
    row.permissions.GetOr([])
  }

  /** The resolved user carries the identity columns of `row`. */
  predicate FromRow(r: ResolvedUser, row: JoinedRow) {
    r.id == row.id && r.email == row.email && r.name == row.name
    && r.applicationId == row.applicationId && r.roleId == row.roleId && r.password == row.password
  }

  /** The first accumulator: the row's columns with `new Set(row.permissions)`. */
  function Seed(row: JoinedRow): (r: ResolvedUser)
    ensures FromRow(r, row)
    ensures NoDuplicates(r.permissions)
    ensures forall p :: p in r.permissions <==> p in RowPermissions(row)
  {
    AddAllMembers([], RowPermissions(row));
    ResolvedUser(row.id, row.email, row.name, row.applicationId, row.roleId, row.password,
                 AddAll([], RowPermissions(row)))
  }

  /** One step of the reduce; `None` is the initial empty object `{}`, whose
      `id` is undefined. An accumulator with an empty id is falsy too. */
  function Step(acc: Option<ResolvedUser>, row: JoinedRow): (r: ResolvedUser)
    // a falsy accumulator is replaced by the row and its permissions
    ensures acc.None? || acc.value.id == "" ==>
      FromRow(r, row) && NoDuplicates(r.permissions)
      && forall p :: p in r.permissions <==> p in RowPermissions(row)
    // otherwise the accumulator keeps its identity and gains the row's permissions
    ensures acc.Some? && acc.value.id != "" ==>
      r.(permissions := acc.value.permissions) == acc.value
      && acc.value.permissions <= r.permissions
      && (NoDuplicates(acc.value.permissions) ==> NoDuplicates(r.permissions))
      && forall p :: p in r.permissions <==> p in acc.value.permissions || p in RowPermissions(row)
  {
    if acc.None? || acc.value.id == "" then Seed(row)
    else if row.permissions.None? then acc.value
    else
      AddAllMembers(acc.value.permissions, row.permissions.value);
      acc.value.(permissions := AddAll(acc.value.permissions, row.permissions.value))
  }

  /** The lookup's result: null for no rows, else the reduce over all rows. */
  function Reduce(rows: seq<JoinedRow>): (r: Option<ResolvedUser>)
    decreases |rows|
    ensures r.None? <==> rows == []
    ensures r.Some? ==> exists row :: row in rows && FromRow(r.value, row)
  {
    if rows == [] then None
    else
      var init, last := rows[..|rows| - 1], rows[|rows| - 1];
      var acc := Reduce(init);
      assert acc.Some? && acc.value.id != "" ==> exists row :: row in init && FromRow(acc.value, row);
      assert forall row :: row in init ==> row in rows;
      Some(Step(acc, last))
  }

  /** Adds the elements of `xs` to `s` one at a time, as the `for` loop over
      a row's permission list does. */
  method AddEach(s: seq<string>, xs: seq<string>) returns (r: seq<string>)
    ensures r == AddAll(s, xs)
  {
    r := s;
    var k := 0;
    while k < |xs|
      invariant 0 <= k <= |xs|
      invariant r == AddAll(s, xs[..k])
    {
      assert xs[..k + 1][..k] == xs[..k];
      if xs[k] !in r {
        r := r + [xs[k]];
      }
      k := k + 1;
    }
    assert xs[..k] == xs;
  }

  /** getUserByEmail: runs the join, returns null when it yields no row, and
      otherwise folds the rows into one user, mutating the accumulator's
      permission set in place. */
  method GetUserByEmail(db: Database, email: string, applicationId: string) returns (r: Option<ResolvedUser>)
    ensures r == Reduce(JoinRows(db.State(), email, applicationId))
  {
    var rows := JoinRows(db.State(), email, applicationId);
    if |rows| == 0 {
      return None;
    }
    var acc: Option<ResolvedUser> := None;
    var i := 0;
    while i < |rows|
      invariant 0 <= i <= |rows|
      invariant acc == Reduce(rows[..i])
    {
      assert rows[..i + 1][..i] == rows[..i];
      var curr := rows[i];
      if acc.None? || acc.value.id == "" {
        var seeded := AddEach([], RowPermissions(curr));
        acc := Some(ResolvedUser(curr.id, curr.email, curr.name, curr.applicationId, curr.roleId, curr.password, seeded));
      } else if curr.permissions.Some? {
        var grown := AddEach(acc.value.permissions, curr.permissions.value);
        acc := Some(acc.value.(permissions := grown));
      }
      i := i + 1;
    }
    assert rows[..i] == rows;
    r := acc;
  }
}
