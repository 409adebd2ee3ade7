/** The account handlers of app/controllers/user.controller.ts: register,
    email verification, login and profile update, as ordered steps over
    the user store. Password hashing (bcrypt), token signing and checking
    (jsonwebtoken) and Joi validation are parameters; outgoing mail is
    returned as the message that would be sent, and its delivery result
    is ignored, as the source only logs it. */
module UserController {
  import opened Common
  import opened Roles
  import opened UserRepo
  import Auth

  /** The result of a Joi schema check. */
  datatype Checked<+T> = Accepted(value: T) | Rejected(message: string)

  /** The validated sign-up fields. */
  datatype SignupValue = SignupValue(name: string, email: string, phone: int, password: string, role: string)

  /** A mail the handler asks the mail service to send. */
  datatype Mail = VerificationMail(to: string, token: string, name: string) | WelcomeMail(to: string, name: string)

  /** The payload of the email-verification token: `value.id` is undefined,
      so it carries no user id. */
  function VerificationClaims(v: SignupValue): (c: Auth.Claims)
    ensures c.userId.None? && c.email == v.email && c.role == v.role
  {
    Auth.Claims(None, v.email, v.role, None, None)
  }

  /** The user record `register` hands to `save`. */
  function NewUser(v: SignupValue, hashed: string, picture: string, token: string): (u: User)
    ensures u.password == hashed && !u.isVerified && u.verificationToken == token
    ensures u.name == v.name && u.email == v.email && u.phone == v.phone && u.role == RoleName(v.role)
  {
    User(v.name, v.email, v.phone, hashed, picture, false, token, RoleName(v.role))
  }

  /** `register`. `hashed` is bcrypt's hash of the password with a fresh
      salt, `sign` is `jwt.sign` with the server secret, `picture` the
      uploaded file's path if any, and `newId` the id the store would give
      the new document. */
  method Register(repo: UserRepository, roles: RoleCollection, validation: Checked<SignupValue>,
                  picture: Option<string>, hashed: string, sign: Auth.Claims -> string, newId: Id)
    returns (r: Reply<StoredUser>, mail: Option<Mail>)
    requires repo.Valid() && newId !in repo.users
    modifies repo
    ensures repo.Valid()
    ensures validation.Rejected? ==>
      r == Reply(400, validation.message, None) && mail.None? && repo.users == old(repo.users)
    ensures validation.Accepted? && EmailTaken(old(repo.users), validation.value.email) ==>
      r == Reply(400, "Email already registered", None) && mail.None? && repo.users == old(repo.users)
    ensures validation.Accepted? && !EmailTaken(old(repo.users), validation.value.email) ==>
      var v := validation.value;
      var token := sign(VerificationClaims(v));
      var pictureUrl := if TruthyStr(picture) then picture.value else "";
      var roleDoc := FindRoleByName(roles.roles, v.role);
      && mail == Some(VerificationMail(v.email, token, v.name))
      && (roleDoc.None? ==>
            r == Reply(400, "Failed to register new user", None) && repo.users == old(repo.users))
      && (roleDoc.Some? ==>
            var stored := NewUser(v, hashed, pictureUrl, token).(role := RoleId(roleDoc.value.id));
            r == Reply(200, "Registration successful. Please verify your email.", Some(StoredUser(newId, stored))) &&
            repo.users == old(repo.users)[newId := stored])
  {
    if validation.Rejected? {
      return Reply(400, validation.message, None), None;
    }
    var value := validation.value;
    var existingUser := repo.FindByEmail(value.email);
    if existingUser.Some? {
      return Reply(400, "Email already registered", None), None;
    }
    var profilePictureUrl := if TruthyStr(picture) then picture.value else "";
    var verificationToken := sign(VerificationClaims(value));
    var userData := NewUser(value, hashed, profilePictureUrl, verificationToken);
    var newUserdata := repo.Save(userData, roles.roles, newId);
    mail := Some(VerificationMail(value.email, verificationToken, value.name));
    if newUserdata.Some? {
      r := Reply(200, "Registration successful. Please verify your email.", newUserdata);
    } else {
      r := Reply(400, "Failed to register new user", None);
    }
  }

  /** `verifyEmail`. `decoded` is `jwt.verify` of the path token (`None`
      when it throws). Only the address in the payload is used: the token
      is not compared with the stored `verificationToken`. `saveFails`
      stands for `user.save()` throwing, which the same `catch` answers. */
  method VerifyEmail(repo: UserRepository, decoded: Option<Auth.Claims>, saveFails: bool) returns (r: Reply<bool>)
    requires repo.Valid()
    modifies repo
    ensures repo.Valid()
    ensures decoded.None? ==> r == Reply(400, "Invalid or expired token", None) && repo.users == old(repo.users)
    ensures decoded.Some? && !EmailTaken(old(repo.users), decoded.value.email) ==>
      r == Reply(404, "User not found", None) && repo.users == old(repo.users)
    ensures decoded.Some? && EmailTaken(old(repo.users), decoded.value.email) && saveFails ==>
      r == Reply(400, "Invalid or expired token", None) && repo.users == old(repo.users)
    ensures decoded.Some? && EmailTaken(old(repo.users), decoded.value.email) && !saveFails ==>
      r == Reply(200, "Email verified successfully!", None) &&
      forall id :: id in old(repo.users) && old(repo.users)[id].email == decoded.value.email ==>
        repo.users == old(repo.users)[id := old(repo.users)[id].(isVerified := true, verificationToken := "")]
  {
    if decoded.None? {
      return Reply(400, "Invalid or expired token", None);
    }
    var found := repo.FindByEmail(decoded.value.email);
    if found.None? {
      return Reply(404, "User not found", None);
    }
    if saveFails {
      return Reply(400, "Invalid or expired token", None);
    }
    var id := found.value;
    var user := repo.users[id].(isVerified := true, verificationToken := "");
    repo.users := repo.users[id := user];
    return Reply(200, "Email verified successfully!", None);
  }

  /** A user document without its `password` field. */
  datatype PublicUser = PublicUser(id: Id, name: string, email: string, phone: int, profilePicture: string,
                                   isVerified: bool, verificationToken: string, role: RoleRef)

  function Public(s: StoredUser): (p: PublicUser)
    ensures p.id == s.id && p.email == s.user.email && p.isVerified == s.user.isVerified
    ensures p.name == s.user.name && p.phone == s.user.phone && p.profilePicture == s.user.profilePicture
    ensures p.verificationToken == s.user.verificationToken && p.role == s.user.role
  {
    PublicUser(s.id, s.user.name, s.user.email, s.user.phone, s.user.profilePicture,
               s.user.isVerified, s.user.verificationToken, s.user.role)
  }

  datatype LoginReply = LoginReply(status: int, message: string, data: Option<PublicUser>,
                                   role: Option<string>, token: Option<string>)

  /** The role name `login` puts in the token: a role stored as a string
      is used as is, a role id is looked up in the role collection. */
  function RoleNameFor(ref: RoleRef, roles: seq<RoleDoc>): (n: Option<string>)
    ensures ref.RoleName? ==> n == Some(ref.name)
    ensures ref.RoleId? ==> (n.None? <==> FindRoleById(roles, ref.id).None?)
    ensures ref.RoleId? && n.Some? ==> exists d :: d in roles && d.id == ref.id && d.name == n.value
  {
    match ref
    case RoleName(name) => Some(name)
    case RoleId(id) =>
      var doc := FindRoleById(roles, id);
      if doc.None? then None else Some(doc.value.name)
  }

  /** The session token payload for a user and role name. */
  function SessionClaims(s: StoredUser, roleName: string): (c: Auth.Claims)
    ensures s.id != "" ==> TruthyStr(c.userId)
    ensures c.userId == Some(s.id) && c.email == s.user.email && c.role == roleName
    ensures c.name == Some(s.user.name) && c.phone == Some(s.user.phone)
  {
    Auth.Claims(Some(s.id), s.user.email, roleName, Some(s.user.name), Some(s.user.phone))
  }

  /** `login` after the lookup by email. `compare` is `bcrypt.compare`,
      `sign` is `jwt.sign`. `isVerified` is never consulted. */
  function LoginDecision(found: Option<StoredUser>, roles: seq<RoleDoc>, password: string,
                         compare: (string, string) -> bool, sign: Auth.Claims -> string): (r: LoginReply)
    ensures found.None? ==> r == LoginReply(404, "User not found", None, None, None)
    ensures found.Some? && !compare(password, found.value.user.password) ==>
      r == LoginReply(401, "Invalid password", None, None, None)
    ensures r.token.Some? <==>
      found.Some? && compare(password, found.value.user.password) &&
      RoleNameFor(found.value.user.role, roles).Some?
    ensures found.Some? && compare(password, found.value.user.password) &&
            RoleNameFor(found.value.user.role, roles).None? ==>
      r == LoginReply(500, "Role not found", None, None, None)
    ensures r.token.Some? ==>
      var name := RoleNameFor(found.value.user.role, roles).value;
      r == LoginReply(200, "Login successful", Some(Public(found.value)), Some(name),
                      Some(sign(SessionClaims(found.value, name))))
  {
    if found.None? then LoginReply(404, "User not found", None, None, None)
    else
      var userData := found.value;
      if !compare(password, userData.user.password) then LoginReply(401, "Invalid password", None, None, None)
      else
        var roleName := RoleNameFor(userData.user.role, roles);
        if roleName.None? then LoginReply(500, "Role not found", None, None, None)
        else
          var token := sign(SessionClaims(userData, roleName.value));
          LoginReply(200, "Login successful", Some(Public(userData)), roleName, Some(token))
  }

  /** Whether an account is verified changes neither the status, nor the
      role, nor the token of a login. */
  lemma LoginIgnoresVerification(s: StoredUser, verified: bool, roles: seq<RoleDoc>, password: string,
                                 compare: (string, string) -> bool, sign: Auth.Claims -> string)
    ensures var other := StoredUser(s.id, s.user.(isVerified := verified));
      var a := LoginDecision(Some(s), roles, password, compare, sign);
      var b := LoginDecision(Some(other), roles, password, compare, sign);
      a.status == b.status && a.role == b.role && a.token == b.token
  {
  }

  /** `login`: Joi check of email and password (`validationError`), lookup
      by email, then LoginDecision; the welcome mail is asked for only
      when a token was issued. */
  method Login(repo: UserRepository, roles: RoleCollection, email: string, password: string,
               validationError: Option<string>, compare: (string, string) -> bool,
               sign: Auth.Claims -> string)
    returns (r: LoginReply, mail: Option<Mail>)
    requires repo.Valid()
    ensures validationError.Some? ==> r == LoginReply(400, validationError.value, None, None, None) && mail.None?
    ensures validationError.None? && !EmailTaken(repo.users, email) ==>
      r == LoginReply(404, "User not found", None, None, None) && mail.None?
    ensures validationError.None? && EmailTaken(repo.users, email) ==>
      forall id :: id in repo.users && repo.users[id].email == email ==>
        r == LoginDecision(Some(StoredUser(id, repo.users[id])), roles.roles, password, compare, sign) &&
        (mail.Some? <==> r.token.Some?) &&
        (mail.Some? ==> mail.value == WelcomeMail(email, repo.users[id].name))
  {
    if validationError.Some? {
      return LoginReply(400, validationError.value, None, None, None), None;
    }
    var found := repo.FindByEmail(email);
    if found.None? {
      return LoginReply(404, "User not found", None, None, None), None;
    }
    var userData := StoredUser(found.value, repo.users[found.value]);
    r := LoginDecision(Some(userData), roles.roles, password, compare, sign);
    mail := if r.token.Some? then Some(WelcomeMail(userData.user.email, userData.user.name)) else None;
  }

  /** The profile fields `updateProfile` sends back. */
  datatype UserResponse = UserResponse(id: Id, name: string, phone: int, email: string, role: RoleRef,
                                       profilePicture: string, isVerified: bool)

  /** `updateProfile`. It acts on the caller's own id from the token; the
      `:id` path parameter (`pathId`) is not read. Only truthy name and
      phone reach the update, and `picture` is the uploaded file's path. */
  method UpdateProfile(repo: UserRepository, reqUser: Option<Auth.Claims>, pathId: Id,
                       name: Option<string>, phone: Option<int>, picture: Option<string>)
    returns (r: Reply<UserResponse>)
    requires repo.Valid()
    modifies repo
    ensures repo.Valid()
    ensures (reqUser.None? || !TruthyStr(reqUser.value.userId)) ==>
      r == Reply(401, "User not authenticated", None) && repo.users == old(repo.users)
    ensures reqUser.Some? && TruthyStr(reqUser.value.userId) ==>
      var id := reqUser.value.userId.value;
      var data := UpdateData(if TruthyStr(name) then name else None, if TruthyNum(phone) then phone else None);
      if id !in old(repo.users) then
        r == Reply(404, "User not found", None) && repo.users == old(repo.users)
      else
        var u := Merge(old(repo.users)[id], data, picture);
        repo.users == old(repo.users)[id := u] &&
        r == Reply(200, "Profile updated successfully",
                   Some(UserResponse(id, u.name, u.phone, u.email, u.role, u.profilePicture, u.isVerified)))
  {
    if reqUser.None? || !TruthyStr(reqUser.value.userId) {
      return Reply(401, "User not authenticated", None);
    }
    var userId := reqUser.value.userId.value;
    var updateName: Option<string> := None;
    var updatePhone: Option<int> := None;
    if TruthyStr(name) { updateName := name; }
    if TruthyNum(phone) { updatePhone := phone; }
    var updatedUser := repo.UpdateUser(userId, UpdateData(updateName, updatePhone), picture);
    if updatedUser.None? {
      return Reply(404, "User not found", None);
    }
    var u := updatedUser.value;
    return Reply(200, "Profile updated successfully",
                 Some(UserResponse(userId, u.name, u.phone, u.email, u.role, u.profilePicture, u.isVerified)));
  }

  /** What `getUserById` sends: the document, or the text the repository
      returns for an unknown id. */
  datatype UserPayload = Document(user: User) | Text(text: string)

  /** The `getUserById` handler: the repository's 'user not available'
      string is truthy, so an unknown id is answered with 200 and that
      string; only a failed lookup (`undefined`) gives 404. */
  function GetUserByIdReply(lookup: UserLookup): (r: Reply<UserPayload>)
    ensures r.status == 404 <==> lookup.Undefined?
    ensures lookup.NotAvailable? ==> r == Reply(200, "User fetched successfully", Some(Text("user not available")))
    ensures lookup.Found? ==> r == Reply(200, "User fetched successfully", Some(Document(lookup.user)))
  {
    match lookup
    case Undefined => Reply(404, "User not found", None)
    case NotAvailable => Reply(200, "User fetched successfully", Some(Text("user not available")))
    case Found(u) => Reply(200, "User fetched successfully", Some(Document(u)))
  }

  /** A verification token can never be used as a session token: its
      payload carries no user id, so `protect` turns it away even though
      its signature checks. */
  lemma VerificationTokenIsNoSession(v: SignupValue, sign: Auth.Claims -> string, verify: string -> Option<Auth.Claims>)
    requires ' ' !in sign(VerificationClaims(v))
    requires verify(sign(VerificationClaims(v))) == Some(VerificationClaims(v))
    ensures Auth.Protect(Some(Auth.BEARER + sign(VerificationClaims(v))), verify).Deny?
  {
    var token := sign(VerificationClaims(v));
    if token == "" {
      Auth.EmptyTokenRefused(verify, "");
      assert Auth.BEARER + token == "Bearer ";
    } else {
      Auth.NoUserIdNoEntry(token, verify);
    }
  }

  /** The token `login` issues opens the protected routes: its payload
      carries the user's id, so `protect` lets it through with the user's
      id, address and role name. */
  lemma SessionTokenEnters(s: StoredUser, roleName: string, sign: Auth.Claims -> string,
                           verify: string -> Option<Auth.Claims>)
    requires s.id != ""
    requires ' ' !in sign(SessionClaims(s, roleName)) && sign(SessionClaims(s, roleName)) != ""
    requires verify(sign(SessionClaims(s, roleName))) == Some(SessionClaims(s, roleName))
    ensures var r := Auth.Protect(Some(Auth.BEARER + sign(SessionClaims(s, roleName))), verify);
      r.Proceed? && r.user.userId == Some(s.id) && r.user.email == s.user.email && r.user.role == roleName
  {
    Auth.SignedTokenEnters(sign(SessionClaims(s, roleName)), verify);
  }
}
