/** The user store of app/repositories/user.repo.ts: creation with
    role-name resolution, lookups, and the field-wise profile merge. */
module UserRepo {
  import opened Common
  import opened Roles

  /** How a user document refers to its role: the schema stores a role
      document id, but the login code also accepts a role name. */
  datatype RoleRef = RoleName(name: string) | RoleId(id: Id)

  /** A user document (app/models/user.Model.ts); `password` holds the hash. */
  datatype User = User(name: string, email: string, phone: int, password: string,
                       profilePicture: string, isVerified: bool, verificationToken: string,
                       role: RoleRef)

  /** A user document together with its store-assigned id. */
  datatype StoredUser = StoredUser(id: Id, user: User)

  /** The partial update `updateProfile` passes on. */
  datatype UpdateData = UpdateData(name: Option<string>, phone: Option<int>)

  /** What `getUserById` returns: the document, the string
      'user not available' for an unknown id, or `undefined` when the
      lookup threw (the error is only logged). */
  datatype UserLookup = Found(user: User) | NotAvailable | Undefined

  /** The unique index on `email`: no two users share an address. */
  ghost predicate EmailsUnique(users: map<Id, User>) {
    forall a, b :: a in users && b in users && users[a].email == users[b].email ==> a == b
  }

  /** Some stored user has this address. */
  predicate EmailTaken(users: map<Id, User>, email: string) {
    exists id :: id in users && users[id].email == email
  }

  /** The role name `save` looks up: `findOne({ name: data.role })` can only
      match when the role is given as a name. */
  function RoleNameOf(r: RoleRef): Option<string> {
    match r
    case RoleName(n) => Some(n)
    case RoleId(_) => None
  }

  /** `update_user`'s merge: name and phone are overwritten only when truthy
      in `data`, the picture only when a new path is given; every other
      field keeps its value. */
  function Merge(u: User, data: UpdateData, newPicture: Option<string>): (v: User)
    ensures v.name == (if TruthyStr(data.name) then data.name.value else u.name)
    ensures v.phone == (if TruthyNum(data.phone) then data.phone.value else u.phone)
    ensures v.profilePicture == (if TruthyStr(newPicture) then newPicture.value else u.profilePicture)
    ensures v.email == u.email && v.password == u.password && v.isVerified == u.isVerified
    ensures v.verificationToken == u.verificationToken && v.role == u.role
  {
    var named := if TruthyStr(data.name) then u.(name := data.name.value) else u;
    var phoned := if TruthyNum(data.phone) then named.(phone := data.phone.value) else named;
    if TruthyStr(newPicture) then phoned.(profilePicture := newPicture.value) else phoned
  }

  /** Applying the same update twice gives the record applying it once gives. */
  lemma MergeIdempotent(u: User, data: UpdateData, newPicture: Option<string>)
    ensures Merge(Merge(u, data, newPicture), data, newPicture) == Merge(u, data, newPicture)
  {
  }

  /** An update with nothing truthy in it leaves the record as it was. */
  lemma MergeEmpty(u: User)
    ensures Merge(u, UpdateData(None, None), None) == u
    ensures Merge(u, UpdateData(Some(""), Some(0)), Some("")) == u
  {
  }

  /** The user collection, keyed by document id. */
  class UserRepository {
    var users: map<Id, User>

    ghost predicate Valid()
      reads this
    {
      EmailsUnique(users)
    }

    constructor (initial: map<Id, User>)
      requires EmailsUnique(initial)
      ensures Valid() && users == initial
    {
      users := initial;
    }

    /** `findByEmail(email)`: `findOne({ email })`. */
    method FindByEmail(email: string) returns (r: Option<Id>)
      ensures r.None? <==> !EmailTaken(users, email)
      ensures r.Some? ==> r.value in users && users[r.value].email == email
    {
      if exists id :: id in users && users[id].email == email {
        var id :| id in users && users[id].email == email;
        r := Some(id);
      } else {
        r := None;
      }
    }

    /** `save(data)`: resolve `data.role` by name in the role collection
        and store the user under the fresh id with the role document's id
        in its place. An unknown role name, or an address the unique index
        already holds, makes the call throw; the error is swallowed and the
        result is `undefined` (`None`). */
    method Save(data: User, roles: seq<RoleDoc>, newId: Id) returns (r: Option<StoredUser>)
      requires Valid() && newId !in users
      modifies this
      ensures Valid()
      ensures var roleDoc := if RoleNameOf(data.role).Some? then FindRoleByName(roles, RoleNameOf(data.role).value) else None;
        if roleDoc.None? || EmailTaken(old(users), data.email) then
          r.None? && users == old(users)
        else
          r == Some(StoredUser(newId, data.(role := RoleId(roleDoc.value.id)))) &&
          users == old(users)[newId := r.value.user]
    {
      var roleDoc := if RoleNameOf(data.role).Some? then FindRoleByName(roles, RoleNameOf(data.role).value) else None;
      if roleDoc.None? {
        return None;
      }
      var stored := data.(role := RoleId(roleDoc.value.id));
      var clash := FindByEmail(stored.email);
      if clash.Some? {
        return None;
      }
      users := users[newId := stored];
      r := Some(StoredUser(newId, stored));
    }

    /** `getUserById(id)`; `lookupFails` stands for the store call throwing. */
    method GetUserById(id: Id, lookupFails: bool) returns (r: UserLookup)
      ensures lookupFails ==> r == Undefined
      ensures !lookupFails && id !in users ==> r == NotAvailable
      ensures !lookupFails && id in users ==> r == Found(users[id])
    {
      if lookupFails {
        return Undefined;
      }
      if id !in users {
        return NotAvailable;
      }
      return Found(users[id]);
    }

    /** `update_user(id, data, newProfilePicture)`: `null` and no write for
        an unknown id, else the merged record, saved. */
    method UpdateUser(id: Id, data: UpdateData, newPicture: Option<string>) returns (r: Option<User>)
      requires Valid()
      modifies this
      ensures Valid()
      ensures id !in old(users) ==> r.None? && users == old(users)
      ensures id in old(users) ==>
        r == Some(Merge(old(users)[id], data, newPicture)) && users == old(users)[id := r.value]
    {
      if id !in users {
        return None;
      }
      var user := Merge(users[id], data, newPicture);
      users := users[id := user];
      r := Some(user);
    }
  }
}
