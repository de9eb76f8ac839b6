/** The permission registry: a closed list of permission strings, the record
    mapping each permission to itself, the default user subset and the two
    system role names (src/config/permissions.ts). */
module Permissions {

  /** No value occurs twice in `s`. */
  predicate NoDuplicates<T(==)>(s: seq<T>) {
    forall i, j :: 0 <= i < j < |s| ==> s[i] != s[j]
  }

  /** The set of elements of `s`. */
  function Elements<T>(s: seq<T>): set<T> {
    set x | x in s
  }

  const ALL_PERMISSIONS: seq<string> := [
    "users:roles:write",
    "users:roles:delete",
    "roles:write",
    "posts:write",
    "posts:read",
    "posts:delete",
    "posts:update"
  ]

  /** The `reduce` that writes `acc[permission] = permission` for every
      permission of the list, left to right, starting from an empty record. */
  function IdentityRecord(ps: seq<string>): (m: map<string, string>)
    ensures m.Keys == Elements(ps)
    ensures forall k :: k in m ==> m[k] == k
  {
    if ps == [] then map[]
    else IdentityRecord(ps[..|ps| - 1])[ps[|ps| - 1] := ps[|ps| - 1]]
  }

  const PERMISSIONS: map<string, string> := IdentityRecord(ALL_PERMISSIONS)

  const USER_ROLE_PERMISSIONS: seq<string> :=
    assert ALL_PERMISSIONS[3] == "posts:write" && ALL_PERMISSIONS[4] == "posts:read";
    [PERMISSIONS["posts:write"], PERMISSIONS["posts:read"]]

  const SUPER_ADMIN: string := "SUPER_ADMIN"
  const APPLICATION_USER: string := "APPLICATION_USER"

  /** The registry holds exactly seven permissions, pairwise distinct. */
  lemma AllPermissionsDistinct()
    ensures |ALL_PERMISSIONS| == 7
    ensures NoDuplicates(ALL_PERMISSIONS)
  {
  }

  /** PERMISSIONS has exactly the registry's permissions as keys and maps each
      of them to itself. */
  lemma PermissionsIsIdentity()
    ensures PERMISSIONS.Keys == Elements(ALL_PERMISSIONS)
    ensures forall k :: k in PERMISSIONS ==> PERMISSIONS[k] == k
  {
  }

  /** The default user role gets write and read on posts, a strict subset of
      the registry. */
  lemma UserRolePermissionsStrictSubset()
    ensures USER_ROLE_PERMISSIONS == ["posts:write", "posts:read"]
    ensures NoDuplicates(USER_ROLE_PERMISSIONS)
    ensures Elements(USER_ROLE_PERMISSIONS) < Elements(ALL_PERMISSIONS)
  {
    assert ALL_PERMISSIONS[0] !in Elements(USER_ROLE_PERMISSIONS);
  }

  /** The two system role names differ. */
  lemma SystemRolesDistinct()
    ensures SUPER_ADMIN != APPLICATION_USER
  {
  }
}
