/** What the permission aggregation of getUserByEmail promises: null exactly
    when no user matches, identity from the first row, permissions that are
    the duplicate-free union of every role reachable in the user's own
    tenant, in first-occurrence order, whatever the order of the rows. */
module Aggregation {
  import opened Wrappers
  import opened Store
  import opened Permissions
  import opened UserServices

  /** The non-null permission lists of all rows, concatenated in row order. */
  function Flatten(rows: seq<JoinedRow>): seq<string>
    decreases |rows|
  {
    if rows == [] then [] else Flatten(rows[..|rows| - 1]) + RowPermissions(rows[|rows| - 1])
  }

  /** The position of the first occurrence of `p` in `xs`. */
  function FirstIndex(xs: seq<string>, p: string): (k: nat)
    requires p in xs
    ensures k < |xs| && xs[k] == p && p !in xs[..k]
  {
    if xs[0] == p then 0
    else
      var k := FirstIndex(xs[1..], p);
      assert xs[1..][..k] == xs[1..k + 1];
      1 + k
  }

  /** Every element of `d` occurs in `xs`, and `d` lists them in the order
      of their first occurrences in `xs`. */
  ghost predicate InFirstOccurrenceOrder(d: seq<string>, xs: seq<string>) {
    (forall p :: p in d ==> p in xs)
    && forall i, j :: 0 <= i < j < |d| ==> FirstIndex(xs, d[i]) < FirstIndex(xs, d[j])
  }

  /** Some role of the tenant, assigned to a user with this email in this
      tenant by an assignment of the same tenant, grants `p`. */
  ghost predicate Grants(t: Tables, email: string, applicationId: string, p: string) {
    exists u, link, role ::
      u in t.users && Matches(u, email, applicationId) && link in t.usersToRoles && Owns(u, link)
      && role in t.roles && role.id == link.roleId && p in role.permissions
  }

  /** The identity columns of a resolved user, as a users-table row. */
  function UserOf(r: ResolvedUser): User {
    User(r.id, r.name, r.email, r.applicationId, r.password)
  }

  // ---------------------------------------------------------------------
  // The insertion-ordered set.

  lemma {:induction false} AddAllConcat(s: seq<string>, a: seq<string>, b: seq<string>)
    ensures AddAll(AddAll(s, a), b) == AddAll(s, a + b)
    decreases |b|
  {
    if b == [] {
      assert a + b == a;
    } else {
      var b0 := b[..|b| - 1];
      AddAllConcat(s, a, b0);
      assert (a + b)[..|a + b| - 1] == a + b0;
    }
  }

  lemma FirstIndexUnique(xs: seq<string>, p: string, k: nat)
    requires k < |xs| && xs[k] == p && p !in xs[..k]
    ensures FirstIndex(xs, p) == k
  {
  }

  /** Adding to an empty set keeps first occurrences, in order. */
  lemma {:induction false} DedupOrder(xs: seq<string>)
    ensures InFirstOccurrenceOrder(AddAll([], xs), xs)
    decreases |xs|
  {
    AddAllMembers([], xs);
    if xs != [] {
      var init, x := xs[..|xs| - 1], xs[|xs| - 1];
      assert xs == init + [x];
      DedupOrder(init);
      AddAllMembers([], init);
      var d0 := AddAll([], init);
      var d := AddAll([], xs);
      forall y | y in init
        ensures FirstIndex(xs, y) == FirstIndex(init, y)
      {
        var k := FirstIndex(init, y);
        assert xs[..k] == init[..k];
        FirstIndexUnique(xs, y, k);
      }
      if x !in d0 {
        assert d == d0 + [x];
        assert xs[..|init|] == init;
        FirstIndexUnique(xs, x, |init|);
        forall i, j | 0 <= i < j < |d|
          ensures FirstIndex(xs, d[i]) < FirstIndex(xs, d[j])
        {
          assert d[i] == d0[i] && d0[i] in init;
          if j < |d0| {
            assert d[j] == d0[j];
          }
        }
      }
    }
  }

  // ---------------------------------------------------------------------
  // The reduce.

  lemma {:induction false} FlattenMembers(rows: seq<JoinedRow>)
    ensures forall p :: p in Flatten(rows) <==> exists row :: row in rows && p in RowPermissions(row)
    decreases |rows|
  {
    if rows != [] {
      var init := rows[..|rows| - 1];
      FlattenMembers(init);
      assert rows == init + [rows[|rows| - 1]];
    }
  }

  /** When the first row has an id, the accumulator is seeded once: the
      identity columns are the first row's and the permissions are the
      first occurrences of all non-null lists. */
  lemma {:induction false} ReduceFromFirstRow(rows: seq<JoinedRow>)
    requires rows != [] && rows[0].id != ""
    ensures FromRow(Reduce(rows).value, rows[0])
    ensures Reduce(rows).value.permissions == AddAll([], Flatten(rows))
    decreases |rows|
  {
    var init, last := rows[..|rows| - 1], rows[|rows| - 1];
    if init == [] {
      assert Flatten(rows) == RowPermissions(last);
    } else {
      assert init[0] == rows[0];
      ReduceFromFirstRow(init);
      AddAllConcat([], Flatten(init), RowPermissions(last));
    }
  }

  /** The resolved permissions never hold a duplicate, whatever the ids. */
  lemma {:induction false} ReduceNoDuplicates(rows: seq<JoinedRow>)
    ensures Reduce(rows).Some? ==> NoDuplicates(Reduce(rows).value.permissions)
    decreases |rows|
  {
    if rows != [] {
      var init, last := rows[..|rows| - 1], rows[|rows| - 1];
      ReduceNoDuplicates(init);
    }
  }

  /** The permission set does not depend on the order the rows arrive in. */
  lemma PermissionsIndependentOfRowOrder(rows1: seq<JoinedRow>, rows2: seq<JoinedRow>)
    requires multiset(rows1) == multiset(rows2)
    requires rows1 != [] && rows1[0].id != "" && rows2 != [] && rows2[0].id != ""
    ensures Elements(Reduce(rows1).value.permissions) == Elements(Reduce(rows2).value.permissions)
  {
    ReduceFromFirstRow(rows1);
    ReduceFromFirstRow(rows2);
    AddAllMembers([], Flatten(rows1));
    AddAllMembers([], Flatten(rows2));
    FlattenMembers(rows1);
    FlattenMembers(rows2);
    assert forall row :: row in rows1 <==> row in rows2 by {
      forall row ensures row in rows1 <==> row in rows2 {
        assert row in rows1 <==> row in multiset(rows1);
        assert row in rows2 <==> row in multiset(rows2);
      }
    }
  }

  // ---------------------------------------------------------------------
  // The join and the reduce together.

  /** The permissions of the joined rows are exactly those granted to the
      matching users through assignments of their own tenant. */
  lemma JoinPermissions(t: Tables, email: string, applicationId: string)
    ensures forall p :: p in Flatten(JoinRows(t, email, applicationId)) <==> Grants(t, email, applicationId, p)
  {
    var rows := JoinRows(t, email, applicationId);
    FlattenMembers(rows);
    forall p | p in Flatten(rows)
      ensures Grants(t, email, applicationId, p)
    {
      var row :| row in rows && p in RowPermissions(row);
      assert row.permissions.Some?;
    }
    forall p | Grants(t, email, applicationId, p)
      ensures p in Flatten(rows)
    {
      var u, link, role :| u in t.users && Matches(u, email, applicationId) && link in t.usersToRoles && Owns(u, link)
        && role in t.roles && role.id == link.roleId && p in role.permissions;
      assert RoleRow(u, role) in rows;
      assert p in RowPermissions(RoleRow(u, role));
    }
  }

  /** getUserByEmail, end to end: null exactly when no user of the tenant has
      the email; otherwise a matching user's identity and, without
      duplicates, exactly the permissions its tenant's assignments grant,
      in first-occurrence order over the rows. */
  lemma GetUserByEmailResolves(t: Tables, email: string, applicationId: string)
    requires forall u :: u in t.users ==> u.id != ""
    ensures var r := Reduce(JoinRows(t, email, applicationId));
      && (r.None? <==> forall u :: u in t.users ==> !Matches(u, email, applicationId))
      && (r.Some? ==> UserOf(r.value) in t.users && Matches(UserOf(r.value), email, applicationId))
      && (r.Some? ==> NoDuplicates(r.value.permissions))
      && (r.Some? ==> forall p :: p in r.value.permissions <==> Grants(t, email, applicationId, p))
      && (r.Some? ==> InFirstOccurrenceOrder(r.value.permissions, Flatten(JoinRows(t, email, applicationId))))
  {
    var rows := JoinRows(t, email, applicationId);
    if rows != [] {
      assert rows[0] in rows;
      var u :| u in t.users && Matches(u, email, applicationId) && SameUser(rows[0], u);
      ReduceFromFirstRow(rows);
      assert UserOf(Reduce(rows).value) == u;
      ReduceNoDuplicates(rows);
      AddAllMembers([], Flatten(rows));
      JoinPermissions(t, email, applicationId);
      DedupOrder(Flatten(rows));
    }
  }

  /** A user with no assignment in its tenant still resolves, with no
      permissions. */
  lemma UnassignedUserHasNoPermissions(t: Tables, email: string, applicationId: string)
    requires forall u :: u in t.users ==> u.id != ""
    requires exists u :: u in t.users && Matches(u, email, applicationId)
    requires forall u, link :: u in t.users && Matches(u, email, applicationId) && link in t.usersToRoles ==> !Owns(u, link)
    ensures Reduce(JoinRows(t, email, applicationId)).Some?
    ensures Reduce(JoinRows(t, email, applicationId)).value.permissions == []
  {
    var perms := Reduce(JoinRows(t, email, applicationId)).value.permissions;
    assert perms != [] ==> perms[0] in perms;
    GetUserByEmailResolves(t, email, applicationId);
  }

  // ---------------------------------------------------------------------
  // Tenant isolation.

  lemma {:induction false} LinkRowsIgnoreForeignLink(u: User, links: seq<UserRole>, link: UserRole, roles: seq<Role>)
    requires !Owns(u, link)
    ensures LinkRows(u, links + [link], roles) == LinkRows(u, links, roles)
    decreases |links|
  {
    if links == [] {
      assert ([] + [link])[1..] == [];
    } else {
      assert (links + [link])[1..] == links[1..] + [link];
      LinkRowsIgnoreForeignLink(u, links[1..], link, roles);
    }
  }

  lemma {:induction false} UsersRowsIgnoreForeignLink(
    users: seq<User>, links: seq<UserRole>, link: UserRole, roles: seq<Role>, email: string, applicationId: string)
    requires link.applicationId != applicationId
    ensures UsersRows(users, links + [link], roles, email, applicationId) == UsersRows(users, links, roles, email, applicationId)
    decreases |users|
  {
    if users != [] {
      UsersRowsIgnoreForeignLink(users[1..], links, link, roles, email, applicationId);
      if Matches(users[0], email, applicationId) {
        LinkRowsIgnoreForeignLink(users[0], links, link, roles);
      }
    }
  }

  lemma {:induction false} UsersRowsIgnoreForeignUser(
    users: seq<User>, u: User, links: seq<UserRole>, roles: seq<Role>, email: string, applicationId: string)
    requires u.applicationId != applicationId
    ensures UsersRows(users + [u], links, roles, email, applicationId) == UsersRows(users, links, roles, email, applicationId)
    decreases |users|
  {
    if users == [] {
      assert ([] + [u])[1..] == [];
    } else {
      assert (users + [u])[1..] == users[1..] + [u];
      UsersRowsIgnoreForeignUser(users[1..], u, links, roles, email, applicationId);
    }
  }

  /** A user or an assignment written for another tenant changes nothing in
      the lookup of this tenant. */
  lemma TenantIsolation(t: Tables, u: User, link: UserRole, email: string, applicationId: string)
    requires u.applicationId != applicationId && link.applicationId != applicationId
    ensures JoinRows(t.(users := t.users + [u]), email, applicationId) == JoinRows(t, email, applicationId)
    ensures JoinRows(t.(usersToRoles := t.usersToRoles + [link]), email, applicationId) == JoinRows(t, email, applicationId)
  {
    UsersRowsIgnoreForeignUser(t.users, u, t.usersToRoles, t.roles, email, applicationId);
    UsersRowsIgnoreForeignLink(t.users, t.usersToRoles, link, t.roles, email, applicationId);
  }
}
