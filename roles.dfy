/** The role collection and its start-up seeding (app/middleware/role.middleware.ts).
    The seeded permission lists are kept apart from the static tables of
    module Constants: the two sources disagree. */
module Roles {
  import opened Common
  import Constants

  /** A document of the role collection. */
  datatype RoleDoc = RoleDoc(id: Id, name: string, permissions: seq<string>)

  /** The permissions `createDefaultRoles` gives the seeded admin role. */
  const SEED_ADMIN_PERMISSIONS: seq<string> :=
    ["manage_users", "manage_movies", "manage_theaters", "view_reports", "assign_movies"]

  /** The permissions `createDefaultRoles` gives the seeded user role. */
  const SEED_USER_PERMISSIONS: seq<string> :=
    ["view_profile", "edit_profile", "book_tickets", "cancel_booking", "view_booking_history"]

  /** How the middleware hands control on: `next()` or `next(error)`. */
  datatype NextCall = NextOk | NextError(error: string)

  /** `roleModel.findOne({ name })`: the first role document, in collection
      order, with that name. */
  function FindRoleByName(roles: seq<RoleDoc>, name: string): (r: Option<RoleDoc>)
    ensures r.Some? ==> r.value in roles && r.value.name == name
    ensures r.None? <==> forall i :: 0 <= i < |roles| ==> roles[i].name != name
    ensures r.Some? ==> exists i :: 0 <= i < |roles| && roles[i] == r.value &&
                                     forall j :: 0 <= j < i ==> roles[j].name != name
  {
    if |roles| == 0 then None
    else if roles[0].name == name then Some(roles[0])
    else
      var r := FindRoleByName(roles[1..], name);
      if r.Some? then
        assert forall i :: 1 <= i < |roles| ==> roles[i] == roles[1..][i - 1];
        r
      else r
  }

  /** `roleModel.findById(id)`: the role document with that id, if any. */
  function FindRoleById(roles: seq<RoleDoc>, id: Id): (r: Option<RoleDoc>)
    ensures r.Some? ==> r.value in roles && r.value.id == id
    ensures r.None? <==> forall i :: 0 <= i < |roles| ==> roles[i].id != id
  {
    if |roles| == 0 then None
    else if roles[0].id == id then Some(roles[0])
    else FindRoleById(roles[1..], id)
  }

  /** What the seeding step leaves in the collection when the store does
      not fail: the two default roles when it was empty, else itself. */
  function Seeded(roles: seq<RoleDoc>, adminId: Id, userId: Id): (r: seq<RoleDoc>)
    ensures |r| >= 1
    ensures roles != [] ==> r == roles
    ensures roles == [] ==> FindRoleByName(r, "admin").Some? && FindRoleByName(r, "user").Some?
  {
    if |roles| == 0 then
      [RoleDoc(adminId, "admin", SEED_ADMIN_PERMISSIONS), RoleDoc(userId, "user", SEED_USER_PERMISSIONS)]
    else roles
  }

  /** The role collection as a mutable store. */
  class RoleCollection {
    var roles: seq<RoleDoc>

    constructor (initial: seq<RoleDoc>)
      ensures roles == initial
    {
      roles := initial;
    }

    /** `createDefaultRoles`: when `find()` returns no role, insert the
        admin and user roles (with the store-assigned ids `adminId` and
        `userId`); in every case call `next` exactly once, with the error
        when a store call raised `failure`. */
    method CreateDefaultRoles(failure: Option<string>, adminId: Id, userId: Id) returns (calls: seq<NextCall>)
      requires adminId != userId
      modifies this
      ensures |calls| == 1
      ensures calls[0] == if failure.Some? then NextError(failure.value) else NextOk
      ensures failure.Some? ==> roles == old(roles)
      ensures failure.None? && old(roles) == [] ==>
        roles == [RoleDoc(adminId, "admin", SEED_ADMIN_PERMISSIONS), RoleDoc(userId, "user", SEED_USER_PERMISSIONS)]
      ensures old(roles) != [] ==> roles == old(roles)
      ensures failure.None? ==> roles == Seeded(old(roles), adminId, userId)
    {
      calls := [];
      if failure.Some? {
        calls := calls + [NextError(failure.value)];
        return;
      }
      var existing := roles;
      if |existing| == 0 {
        roles := roles + [RoleDoc(adminId, "admin", SEED_ADMIN_PERMISSIONS),
                          RoleDoc(userId, "user", SEED_USER_PERMISSIONS)];
      }
      calls := calls + [NextOk];
    }
  }

  /** Seeding is idempotent: a second run, whatever ids it would assign,
      inserts nothing. */
  lemma SeedIdempotent(roles: seq<RoleDoc>, a1: Id, u1: Id, a2: Id, u2: Id)
    ensures Seeded(Seeded(roles, a1, u1), a2, u2) == Seeded(roles, a1, u1)
  {
  }

  /** On an empty collection seeding leaves exactly the names `admin` and
      `user`, each found by name with its seeded permissions. */
  lemma SeedOnEmpty(adminId: Id, userId: Id)
    ensures var s := Seeded([], adminId, userId);
      && (set r | r in s :: r.name) == {"admin", "user"}
      && FindRoleByName(s, "admin") == Some(RoleDoc(adminId, "admin", SEED_ADMIN_PERMISSIONS))
      && FindRoleByName(s, "user") == Some(RoleDoc(userId, "user", SEED_USER_PERMISSIONS))
  {
    var s := Seeded([], adminId, userId);
    assert s[0].name == "admin" && s[1].name == "user";
    assert forall r :: r in s ==> r == s[0] || r == s[1];
  }

  /** The seeded admin and user permission lists share no permission. */
  lemma SeedPermissionsDisjoint()
    ensures forall p :: p in SEED_ADMIN_PERMISSIONS ==> p !in SEED_USER_PERMISSIONS
  {
  }

  /** The seeded admin role lacks the user permissions, whereas the static
      admin table of module Constants contains them all: the two sources
      describe different admin roles. */
  lemma SeedDiffersFromTable()
    ensures "admin" in Constants.ROLE_PERMISSIONS
    ensures "view_profile" in Constants.ROLE_PERMISSIONS["admin"]
    ensures "view_profile" !in SEED_ADMIN_PERMISSIONS
    ensures multiset(SEED_USER_PERMISSIONS) == multiset(Constants.ROLE_PERMISSIONS["user"])
  {
    assert Constants.ROLE_PERMISSIONS["admin"][0] == "view_profile";
  }
}
