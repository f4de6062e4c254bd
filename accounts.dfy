/** User accounts and the administrator gate of routes/auth.js: extracting the
    bearer token, the admin check shared by every privileged route, and the
    signup, login, admin-login, user update and user delete handlers over the
    user collection. Token verification, password comparison and the e-mail /
    ISO-8601 checks are external and passed in as functions. */
module Accounts {
  import opened Common

  datatype User = User(
    id: string,
    firstName: string,
    middleName: Option<string>,
    lastName: string,
    dateOfBirth: string,
    email: string,
    contactNumber: string,
    username: string,
    password: string,
    isAdmin: Option<bool>,
    lastLogin: Option<int>)

  /** `user.isAdmin` is truthy. */
  predicate IsAdminUser(u: User) {
    u.isAdmin == Some(true)
  }

  /** The user object a reply carries (never the password). */
  datatype UserView = UserView(
    id: string, username: string, email: string, firstName: string,
    lastName: string, contactNumber: string, isAdmin: Option<bool>)

  function ViewOf(u: User, isAdmin: Option<bool>): UserView {
    UserView(u.id, u.username, u.email, u.firstName, u.lastName, u.contactNumber, isAdmin)
  }

  /** The express-validator checks and sanitisers this code relies on. */
  datatype Validators = Validators(
    isEmail: string -> bool,
    normalizeEmail: string -> string,
    isIso8601: string -> bool)

  // ---------------------------------------------------------------------------
  // The admin gate (verifyAdminToken)

  /** `req.headers.authorization?.split(' ')[1]`, with a missing or empty
      second field read as "no token". */
  function BearerToken(header: Option<string>): (t: Option<string>)
    ensures t.Some? ==> t.value != "" && ' ' !in t.value
  {
    if header.None? then None
    else
      var h := header.value;
      var i := IndexOf(h, ' ');
      if i == |h| then None
      else
        var rest := h[i + 1..];
        var field := rest[..IndexOf(rest, ' ')];
        if field == "" then None else Some(field)
  }

  /** BearerToken agrees with splitting the header on spaces and taking the
      second part: a header without a space, or with two spaces in a row after
      the scheme, carries no token. */
  lemma BearerTokenIsSecondPart(h: string)
    ensures var parts := Split(h, ' ');
            BearerToken(Some(h)) == if |parts| >= 2 && parts[1] != "" then Some(parts[1]) else None
  {
    var parts := Split(h, ' ');
    var i := IndexOf(h, ' ');
    if i == |h| {
      assert parts == [h];
    } else {
      var rest := h[i + 1..];
      var tail := Split(rest, ' ');
      assert parts == [h[..i]] + tail;
      assert tail[0] == rest[..IndexOf(rest, ' ')];
      assert parts[1] == tail[0];
    }
  }


  datatype Gate = Admitted(adminId: string) | Denied(code: int, message: string)

  /** verifyAdminToken: 401 without a token, 401 when verification throws, 403
      when the decoded user is unknown or not an administrator. `verify` is
      `jwt.verify` followed by reading `userId` (None when it throws). */
  function VerifyAdminToken(header: Option<string>, verify: string -> Option<string>,
                            users: map<string, User>): (g: Gate)
    ensures g.Admitted? ==> g.adminId in users && IsAdminUser(users[g.adminId])
    ensures g.Denied? ==> g.code == 401 || g.code == 403
    ensures BearerToken(header).None? ==> g == Denied(401, "No token provided")
    ensures BearerToken(header).Some? && verify(BearerToken(header).value).None? ==>
              g == Denied(401, "Invalid or expired token")
    ensures g.Denied? && g.code == 403 <==>
              BearerToken(header).Some? && verify(BearerToken(header).value).Some? &&
              var id := verify(BearerToken(header).value).value;
              !(id in users && IsAdminUser(users[id]))
  {
    match BearerToken(header)
    case None => Denied(401, "No token provided")
    case Some(token) =>
      match verify(token)
      case None => Denied(401, "Invalid or expired token")
      case Some(id) =>
        if id in users && IsAdminUser(users[id]) then Admitted(id)
        else Denied(403, "Access denied. Admin privileges required.")
  }

  /** The gate admits exactly the holders of a verifiable token whose user is a
      stored administrator, and its answer depends on nothing else. */
  lemma GateAdmitsExactlyAdmins(header: Option<string>, verify: string -> Option<string>,
                                users: map<string, User>, id: string)
    ensures VerifyAdminToken(header, verify, users) == Admitted(id) <==>
              BearerToken(header).Some? && verify(BearerToken(header).value) == Some(id) &&
              id in users && IsAdminUser(users[id])
  {
  }

  // ---------------------------------------------------------------------------
  // Validation chains

  datatype SignupRequest = SignupRequest(
    firstName: Option<string>, middleName: Option<string>, lastName: Option<string>,
    dateOfBirth: Option<string>, email: Option<string>, contactNumber: Option<string>,
    username: Option<string>, password: Option<string>)

  /** A missing field reaches the validators as "". */
  function Text(v: Option<string>): string {
    if v.Some? then v.value else ""
  }

  datatype SignupField = Email | Username | Password | FirstName | LastName | ContactNumber | DateOfBirth

  function SignupFieldName(f: SignupField): string {
    match f
    case Email => "email"
    case Username => "username"
    case Password => "password"
    case FirstName => "firstName"
    case LastName => "lastName"
    case ContactNumber => "contactNumber"
    case DateOfBirth => "dateOfBirth"
  }

  /** Whether one field of a signup request passes its check in signupValidation. */
  predicate SignupFieldOk(req: SignupRequest, v: Validators, field: SignupField) {
    match field
    case Email => req.email.Some? && v.isEmail(req.email.value)
    case Username => ValidatorLength(Trim(Text(req.username))) >= 4
    case Password => ValidatorLength(Text(req.password)) >= 8
    case FirstName => Trim(Text(req.firstName)) != ""
    case LastName => Trim(Text(req.lastName)) != ""
    case ContactNumber => Trim(Text(req.contactNumber)) != ""
    case DateOfBirth => req.dateOfBirth.Some? && v.isIso8601(req.dateOfBirth.value)
  }

  const SignupFields: seq<SignupField> :=
    [Email, Username, Password, FirstName, LastName, ContactNumber, DateOfBirth]

  function SignupErrors(req: SignupRequest, v: Validators): seq<SignupField> {
    Failing(SignupFields, f => SignupFieldOk(req, v, f))
  }

  /** Every failing signup field is reported, and only those. */
  lemma SignupErrorsComplete(req: SignupRequest, v: Validators, f: SignupField)
    ensures f in SignupErrors(req, v) <==> !SignupFieldOk(req, v, f)
  {
    FailingExactly(SignupFields, f => SignupFieldOk(req, v, f), f);
  }

  datatype LoginRequest = LoginRequest(username: Option<string>, password: Option<string>)

  /** loginValidation: a username that is not blank after trim and a non-empty password. */
  function LoginErrors(req: LoginRequest): (errs: seq<string>)
    ensures errs == [] <==> Trim(Text(req.username)) != "" && Text(req.password) != ""
  {
    (if Trim(Text(req.username)) != "" then [] else ["username"]) +
    (if Text(req.password) != "" then [] else ["password"])
  }

  datatype UserUpdate = UserUpdate(
    email: Option<string>, username: Option<string>, firstName: Option<string>,
    middleName: Option<string>, lastName: Option<string>, contactNumber: Option<string>,
    dateOfBirth: Option<string>, isAdmin: Option<JsValue>, password: Option<string>)

  datatype UpdateField = UEmail | UUsername | UFirstName | ULastName | UContactNumber | UDateOfBirth | UIsAdmin

  function UpdateFieldName(f: UpdateField): string {
    match f
    case UEmail => "email"
    case UUsername => "username"
    case UFirstName => "firstName"
    case ULastName => "lastName"
    case UContactNumber => "contactNumber"
    case UDateOfBirth => "dateOfBirth"
    case UIsAdmin => "isAdmin"
  }

  /** How a JSON value fares under `isBoolean()` and then under the Boolean
      cast of the `isAdmin` path: the validator reads the value as a string
      (null as "") and accepts "true", "false", "1" and "0"; the cast turns
      each accepted value into the boolean it names. None marks a value the
      validator rejects. */
  function BooleanValue(v: JsValue): (b: Option<bool>)
    ensures v.JBool? ==> b == Some(v.b)
    ensures v.JNull? ==> b.None?
    ensures v.JStr? ==> (b.Some? <==> v.s in {"true", "false", "1", "0"})
    ensures v.JNum? ==> (b.Some? <==> v.n == 0 || v.n == 1)
    ensures b.Some? && !v.JBool? ==> (b.value <==> v == JStr("true") || v == JStr("1") || v == JNum(1))
  {
    match v
    case JBool(x) => Some(x)
    case JStr(t) =>
      if t == "true" || t == "1" then Some(true)
      else if t == "false" || t == "0" then Some(false)
      else None
    case JNum(n) => if n == 1 then Some(true) else if n == 0 then Some(false) else None
    case JNull => None
  }

  /** updateUserValidation: every check is optional, so a field is checked only
      when present. */
  predicate UpdateFieldOk(upd: UserUpdate, v: Validators, field: UpdateField) {
    match field
    case UEmail => upd.email.None? || v.isEmail(upd.email.value)
    case UUsername => upd.username.None? || ValidatorLength(Trim(upd.username.value)) >= 4
    case UFirstName => upd.firstName.None? || Trim(upd.firstName.value) != ""
    case ULastName => upd.lastName.None? || Trim(upd.lastName.value) != ""
    case UContactNumber => upd.contactNumber.None? || Trim(upd.contactNumber.value) != ""
    case UDateOfBirth => upd.dateOfBirth.None? || v.isIso8601(upd.dateOfBirth.value)
    case UIsAdmin => upd.isAdmin.None? || BooleanValue(upd.isAdmin.value).Some?
  }

  const UpdateFields: seq<UpdateField> :=
    [UEmail, UUsername, UFirstName, ULastName, UContactNumber, UDateOfBirth, UIsAdmin]

  function UpdateErrors(upd: UserUpdate, v: Validators): seq<UpdateField> {
    Failing(UpdateFields, f => UpdateFieldOk(upd, v, f))
  }

  /** Every failing update field is reported, and only those. */
  lemma UpdateErrorsExactly(upd: UserUpdate, v: Validators, f: UpdateField)
    ensures f in UpdateErrors(upd, v) <==> !UpdateFieldOk(upd, v, f)
  {
    FailingExactly(UpdateFields, f => UpdateFieldOk(upd, v, f), f);
  }

  /** An `isAdmin` sent as text passes `isBoolean()` exactly when it is one of
      "true", "false", "1" and "0", and then sets the flag to what it names. */
  lemma AdminTextUpdate(u: User, upd: UserUpdate, v: Validators, t: string)
    requires upd.isAdmin == Some(JStr(t))
    ensures UIsAdmin in UpdateErrors(upd, v) <==> t !in {"true", "false", "1", "0"}
    ensures UIsAdmin !in UpdateErrors(upd, v) ==> ApplyUpdate(u, upd).isAdmin == Some(t == "true" || t == "1")
  {
    UpdateErrorsExactly(upd, v, UIsAdmin);
    AdminTextAccepted(upd, v, t);
  }

  /** The validator and the cast on a text `isAdmin`, field by field. */
  lemma AdminTextAccepted(upd: UserUpdate, v: Validators, t: string)
    requires upd.isAdmin == Some(JStr(t))
    ensures UpdateFieldOk(upd, v, UIsAdmin) <==> t in {"true", "false", "1", "0"}
    ensures UpdateFieldOk(upd, v, UIsAdmin) ==> AdminAfter(None, upd.isAdmin) == Some(t == "true" || t == "1")
  {
  }

  function MapOption(x: Option<string>, f: string -> string): Option<string> {
    if x.Some? then Some(f(x.value)) else None
  }

  /** The sanitisers of updateUserValidation (trim, normalizeEmail) rewrite the
      fields that are present. */
  function SanitizeUpdate(upd: UserUpdate, v: Validators): UserUpdate {
    upd.(email := MapOption(upd.email, v.normalizeEmail),
         username := MapOption(upd.username, Trim),
         firstName := MapOption(upd.firstName, Trim),
         lastName := MapOption(upd.lastName, Trim),
         contactNumber := MapOption(upd.contactNumber, Trim))
  }

  /** The stored admin flag after `$set` with an `isAdmin` field: a value the
      cast reads replaces the flag; validation has already refused one it
      cannot read, which therefore leaves the flag alone here. */
  function AdminAfter(current: Option<bool>, given: Option<JsValue>): (r: Option<bool>)
    ensures given.None? ==> r == current
    ensures given.Some? && BooleanValue(given.value).Some? ==> r == BooleanValue(given.value)
  {
    if given.Some? && BooleanValue(given.value).Some? then BooleanValue(given.value) else current
  }

  /** `$set: updateData`: every present field replaces the stored one. */
  function ApplyUpdate(u: User, upd: UserUpdate): (r: User)
    ensures r.id == u.id
    ensures upd.password.None? ==> r.password == u.password
    ensures upd.username.None? ==> r.username == u.username
    ensures upd.email.None? ==> r.email == u.email
    ensures upd.isAdmin.None? ==> r.isAdmin == u.isAdmin
    ensures r.isAdmin == AdminAfter(u.isAdmin, upd.isAdmin)
  {
    u.(email := if upd.email.Some? then upd.email.value else u.email,
       username := if upd.username.Some? then upd.username.value else u.username,
       firstName := if upd.firstName.Some? then upd.firstName.value else u.firstName,
       middleName := if upd.middleName.Some? then upd.middleName else u.middleName,
       lastName := if upd.lastName.Some? then upd.lastName.value else u.lastName,
       contactNumber := if upd.contactNumber.Some? then upd.contactNumber.value else u.contactNumber,
       dateOfBirth := if upd.dateOfBirth.Some? then upd.dateOfBirth.value else u.dateOfBirth,
       isAdmin := AdminAfter(u.isAdmin, upd.isAdmin),
       password := if upd.password.Some? then upd.password.value else u.password)
  }

  /** The record signup stores: trimmed names, contact number and username,
      the normalised e-mail, the password as given (hashing happens in the
      User model, which is not part of this model) and no admin flag. */
  function NewUser(req: SignupRequest, v: Validators, id: string): User {
    User(id, Trim(Text(req.firstName)), req.middleName, Trim(Text(req.lastName)),
         Text(req.dateOfBirth), v.normalizeEmail(Text(req.email)), Trim(Text(req.contactNumber)),
         Trim(Text(req.username)), Text(req.password), None, None)
  }

  /** Usernames are unique; so are non-empty e-mail addresses. */
  ghost predicate UniqueAccounts(users: map<string, User>) {
    forall a, b :: a in users && b in users && a != b ==>
      users[a].username != users[b].username &&
      (users[a].email == "" || users[a].email != users[b].email)
  }

  predicate UsernameTaken(users: map<string, User>, username: string) {
    exists id :: id in users && users[id].username == username
  }

  predicate EmailTaken(users: map<string, User>, email: string) {
    exists id :: id in users && users[id].email == email
  }

  /** Some stored user has this username but a different e-mail. */
  predicate UsernameWithOtherEmail(users: map<string, User>, username: string, email: string) {
    exists id :: id in users && users[id].username == username && users[id].email != email
  }

  /** Some user other than `except` has this (non-empty) username. */
  predicate UsernameHeldByOther(users: map<string, User>, except: string, username: Option<string>) {
    Truthy(username) && exists id :: id in users && id != except && users[id].username == username.value
  }

  /** Some user other than `except` has this (non-empty) e-mail. */
  predicate EmailHeldByOther(users: map<string, User>, except: string, email: Option<string>) {
    Truthy(email) && exists id :: id in users && id != except && users[id].email == email.value
  }

  /** Some user other than `except` has this username or (non-empty) e-mail. */
  predicate Clash(users: map<string, User>, except: Option<string>, username: Option<string>, email: Option<string>) {
    exists id :: id in users && Some(id) != except &&
      ((Truthy(username) && users[id].username == username.value) ||
       (Truthy(email) && users[id].email == email.value))
  }

  class UserStore {
    var users: map<string, User>

    ghost predicate Valid()
      reads this
    {
      (forall id :: id in users ==> users[id].id == id) && UniqueAccounts(users)
    }

    constructor ()
      ensures Valid() && users == map[]
    {
      users := map[];
    }

    /** POST /signup. `newId` is the identifier the driver generates. */
    method Signup(req: SignupRequest, v: Validators, newId: string) returns (reply: Reply<UserView>)
      requires Valid()
      modifies this
      ensures Valid()
      ensures SignupErrors(req, v) != [] ==> reply == Invalid(Names(SignupErrors(req, v), SignupFieldName)) && users == old(users)
      ensures var u := NewUser(req, v, newId);
              SignupErrors(req, v) == [] && (UsernameTaken(old(users), u.username) || EmailTaken(old(users), u.email)) ==>
                reply.Fail? && reply.code == 400 &&
                (reply.message == "Email already registered" || reply.message == "Username already taken") &&
                (!UsernameTaken(old(users), u.username) ==> reply.message == "Email already registered") &&
                (!EmailTaken(old(users), u.email) ==> reply.message == "Username already taken")
      ensures var u := NewUser(req, v, newId);
              SignupErrors(req, v) == [] && (UsernameTaken(old(users), u.username) || EmailTaken(old(users), u.email)) ==>
                (reply.message == "Email already registered" ==> EmailTaken(old(users), u.email)) &&
                (reply.message == "Username already taken" ==> UsernameWithOtherEmail(old(users), u.username, u.email)) &&
                (!UsernameWithOtherEmail(old(users), u.username, u.email) ==> reply == Fail(400, "Email already registered"))
      ensures reply.Ok? <==>
                var u := NewUser(req, v, newId);
                SignupErrors(req, v) == [] &&
                !UsernameTaken(old(users), u.username) && !EmailTaken(old(users), u.email) &&
                newId !in old(users)
      ensures reply.Ok? ==> reply.code == 201 && users == old(users)[newId := NewUser(req, v, newId)] &&
                            reply.body == ViewOf(NewUser(req, v, newId), None)
      ensures !reply.Ok? ==> users == old(users)
    {
      var errors := SignupErrors(req, v);
      if errors != [] {
        return Invalid(Names(errors, SignupFieldName));
      }
      reply := Register(NewUser(req, v, newId));
    }

    /** The part of POST /signup after validation: refuse a user whose
        username or e-mail is already registered, otherwise save it. */
    method Register(u: User) returns (reply: Reply<UserView>)
      requires Valid()
      modifies this
      ensures Valid()
      ensures UsernameTaken(old(users), u.username) || EmailTaken(old(users), u.email) ==>
                reply.Fail? && reply.code == 400 &&
                (reply.message == "Email already registered" || reply.message == "Username already taken") &&
                (!UsernameTaken(old(users), u.username) ==> reply.message == "Email already registered") &&
                (!EmailTaken(old(users), u.email) ==> reply.message == "Username already taken")
      ensures UsernameTaken(old(users), u.username) || EmailTaken(old(users), u.email) ==>
                (reply.message == "Email already registered" ==> EmailTaken(old(users), u.email)) &&
                (reply.message == "Username already taken" ==> UsernameWithOtherEmail(old(users), u.username, u.email)) &&
                (!UsernameWithOtherEmail(old(users), u.username, u.email) ==> reply == Fail(400, "Email already registered"))
      ensures reply.Ok? <==> !UsernameTaken(old(users), u.username) && !EmailTaken(old(users), u.email) && u.id !in old(users)
      ensures reply.Ok? ==> reply.code == 201 && users == old(users)[u.id := u] && reply.body == ViewOf(u, None)
      ensures !reply.Ok? ==> users == old(users)
    {
      if UsernameTaken(users, u.username) || EmailTaken(users, u.email) {
        // findOne({ $or: [{ email }, { username }] }) returns one of the matches
        var found :| found in users && (users[found].email == u.email || users[found].username == u.username);
        if users[found].email == u.email {
          return Fail(400, "Email already registered");
        }
        return Fail(400, "Username already taken");
      }
      if u.id in users {
        // duplicate _id: the save throws and the catch-all answers 500
        return Fail(500, "Server error during signup");
      }
      AddKeepsUnique(users, u.id, u);
      users := users[u.id := u];
      reply := Ok(201, ViewOf(u, None));
    }

    /** POST /login. */
    method Login(req: LoginRequest, checkPassword: (User, string) -> bool, now: int)
      returns (reply: Reply<UserView>)
      requires Valid()
      modifies this
      ensures Valid()
      ensures LoginErrors(req) != [] ==> reply == Invalid(LoginErrors(req)) && users == old(users)
      ensures reply.Ok? <==>
                LoginErrors(req) == [] &&
                exists id :: id in old(users) && old(users)[id].username == Trim(Text(req.username)) &&
                             checkPassword(old(users)[id], Text(req.password))
      ensures reply.Fail? ==> reply == Fail(401, "Invalid credentials") && users == old(users)
      ensures reply.Ok? ==>
                var id := reply.body.id;
                id in old(users) && old(users)[id].username == Trim(Text(req.username)) &&
                users == old(users)[id := old(users)[id].(lastLogin := Some(now))] &&
                reply.code == 200 && reply.body == ViewOf(old(users)[id], Some(IsAdminUser(old(users)[id])))
    {
      var errors := LoginErrors(req);
      if errors != [] {
        return Invalid(errors);
      }
      var name := Trim(Text(req.username));
      if !exists id :: id in users && users[id].username == name {
        return Fail(401, "Invalid credentials");
      }
      var id :| id in users && users[id].username == name;
      var user := users[id];
      if !checkPassword(user, Text(req.password)) {
        return Fail(401, "Invalid credentials");
      }
      users := users[id := user.(lastLogin := Some(now))];
      reply := Ok(200, ViewOf(user, Some(IsAdminUser(user))));
    }

    /** POST /admin-login: the admin flag is checked before the password. */
    method AdminLogin(req: LoginRequest, checkPassword: (User, string) -> bool, now: int)
      returns (reply: Reply<UserView>)
      requires Valid()
      modifies this
      ensures Valid()
      ensures LoginErrors(req) != [] ==> reply == Invalid(LoginErrors(req)) && users == old(users)
      ensures !reply.Ok? ==> users == old(users)
      ensures LoginErrors(req) == [] ==>
                var name := Trim(Text(req.username));
                if !exists id :: id in old(users) && old(users)[id].username == name then
                  reply == Fail(401, "Invalid admin credentials")
                else
                  forall id :: id in old(users) && old(users)[id].username == name ==>
                    var u := old(users)[id];
                    if !IsAdminUser(u) then reply == Fail(403, "Access denied. Admin privileges required.")
                    else if !checkPassword(u, Text(req.password)) then reply == Fail(401, "Invalid admin credentials")
                    else reply == Ok(200, ViewOf(u, Some(true))) &&
                         users == old(users)[id := u.(lastLogin := Some(now))]
    {
      var errors := LoginErrors(req);
      if errors != [] {
        return Invalid(errors);
      }
      var name := Trim(Text(req.username));
      if !exists id :: id in users && users[id].username == name {
        return Fail(401, "Invalid admin credentials");
      }
      var id :| id in users && users[id].username == name;
      var user := users[id];
      if !IsAdminUser(user) {
        return Fail(403, "Access denied. Admin privileges required.");
      }
      if !checkPassword(user, Text(req.password)) {
        return Fail(401, "Invalid admin credentials");
      }
      users := users[id := user.(lastLogin := Some(now))];
      reply := Ok(200, ViewOf(user, Some(true)));
    }

    /** PUT /users/:id (admin only). The password is dropped from the update,
        the uniqueness check runs before the lookup and skips the target. */
    method UpdateUser(header: Option<string>, verify: string -> Option<string>, v: Validators,
                      id: string, update: UserUpdate) returns (reply: Reply<UserView>)
      requires Valid()
      modifies this
      ensures Valid()
      ensures !reply.Ok? ==> users == old(users)
      ensures var g := VerifyAdminToken(header, verify, old(users));
              g.Denied? ==> reply == Fail(g.code, g.message)
      ensures VerifyAdminToken(header, verify, old(users)).Admitted? && UpdateErrors(update, v) != [] ==>
                reply == Invalid(Names(UpdateErrors(update, v), UpdateFieldName))
      ensures var u := SanitizeUpdate(update, v);
              VerifyAdminToken(header, verify, old(users)).Admitted? && UpdateErrors(update, v) == [] &&
              Clash(old(users), Some(id), u.username, u.email) ==>
                reply.Fail? && reply.code == 400 &&
                (!UsernameHeldByOther(old(users), id, u.username) ==> reply.message == "Email already registered") &&
                (!EmailHeldByOther(old(users), id, u.email) ==> reply.message == "Username already taken")
      ensures var u := SanitizeUpdate(update, v);
              VerifyAdminToken(header, verify, old(users)).Admitted? && UpdateErrors(update, v) == [] &&
              !Clash(old(users), Some(id), u.username, u.email) && id !in old(users) ==>
                reply == Fail(404, "User not found")
      ensures var u := SanitizeUpdate(update, v);
              reply.Ok? <==>
                VerifyAdminToken(header, verify, old(users)).Admitted? && UpdateErrors(update, v) == [] &&
                !Clash(old(users), Some(id), u.username, u.email) && id in old(users)
      ensures reply.Ok? ==>
                id in old(users) && reply.code == 200 &&
                users == old(users)[id := ApplyUpdate(old(users)[id], SanitizeUpdate(update, v).(password := None))] &&
                users[id].password == old(users)[id].password &&
                reply.body == ViewOf(users[id], users[id].isAdmin)
    {
      var g := VerifyAdminToken(header, verify, users);
      if g.Denied? {
        return Fail(g.code, g.message);
      }
      var errors := UpdateErrors(update, v);
      if errors != [] {
        return Invalid(Names(errors, UpdateFieldName));
      }
      var u := SanitizeUpdate(update, v);
      var data := u.(password := None);
      assert data.username == u.username && data.email == u.email;
      assert UUsername in UpdateFields && UUsername !in errors;
      assert UpdateFieldOk(update, v, UUsername);
      assert data.username.Some? ==> ValidatorLength(data.username.value) >= 4;
      reply := Revise(id, data);
    }

    /** The part of PUT /users/:id after validation: refuse an update whose
        username or e-mail belongs to another user, then refuse an unknown
        id, otherwise write every field the update carries. */
    method Revise(id: string, data: UserUpdate) returns (reply: Reply<UserView>)
      requires Valid()
      requires data.username.Some? ==> data.username.value != ""
      modifies this
      ensures Valid()
      ensures !reply.Ok? ==> users == old(users)
      ensures Clash(old(users), Some(id), data.username, data.email) ==> reply.Fail? && reply.code == 400
      ensures (Clash(old(users), Some(id), data.username, data.email) &&
               !UsernameHeldByOther(old(users), id, data.username)) ==>
                reply == Fail(400, "Email already registered")
      ensures (Clash(old(users), Some(id), data.username, data.email) &&
               !EmailHeldByOther(old(users), id, data.email)) ==>
                reply == Fail(400, "Username already taken")
      ensures !Clash(old(users), Some(id), data.username, data.email) && id !in old(users) ==>
                reply == Fail(404, "User not found")
      ensures reply.Ok? <==> !Clash(old(users), Some(id), data.username, data.email) && id in old(users)
      ensures reply.Ok? ==>
                reply.code == 200 && users == old(users)[id := ApplyUpdate(old(users)[id], data)] &&
                reply.body == ViewOf(users[id], users[id].isAdmin)
    {
      if Truthy(data.username) || Truthy(data.email) {
        if Clash(users, Some(id), data.username, data.email) {
          var found :| found in users && Some(found) != Some(id) &&
            ((Truthy(data.username) && users[found].username == data.username.value) ||
             (Truthy(data.email) && users[found].email == data.email.value));
          if data.username.Some? && users[found].username == data.username.value {
            return Fail(400, "Username already taken");
          }
          return Fail(400, "Email already registered");
        }
      }
      if id !in users {
        return Fail(404, "User not found");
      }
      var updated := ApplyUpdate(users[id], data);
      UpdateKeepsUnique(users, id, data);
      users := users[id := updated];
      reply := Ok(200, ViewOf(updated, updated.isAdmin));
    }

    /** DELETE /users/:id (admin only). */
    method DeleteUser(header: Option<string>, verify: string -> Option<string>, id: string)
      returns (reply: Reply<UserView>)
      requires Valid()
      modifies this
      ensures Valid()
      ensures var g := VerifyAdminToken(header, verify, old(users));
              g.Denied? ==> reply == Fail(g.code, g.message) && users == old(users)
      ensures var g := VerifyAdminToken(header, verify, old(users));
              g.Admitted? && g.adminId == id ==>
                reply == Fail(400, "You cannot delete your own account") && users == old(users)
      ensures var g := VerifyAdminToken(header, verify, old(users));
              g.Admitted? && g.adminId != id && id !in old(users) ==>
                reply == Fail(404, "User not found") && users == old(users)
      ensures reply.Ok? <==>
                VerifyAdminToken(header, verify, old(users)).Admitted? &&
                VerifyAdminToken(header, verify, old(users)).adminId != id && id in old(users)
      ensures reply.Ok? ==> reply.code == 200 && users == old(users) - {id} &&
                            reply.body == ViewOf(old(users)[id], old(users)[id].isAdmin)
    {
      var g := VerifyAdminToken(header, verify, users);
      if g.Denied? {
        return Fail(g.code, g.message);
      }
      if id == g.adminId {
        return Fail(400, "You cannot delete your own account");
      }
      if id !in users {
        return Fail(404, "User not found");
      }
      var removed := users[id];
      users := users - {id};
      reply := Ok(200, ViewOf(removed, removed.isAdmin));
    }
  }

  /** A new account that passed the signup uniqueness check keeps usernames
      and e-mail addresses unique. */
  lemma AddKeepsUnique(users: map<string, User>, id: string, u: User)
    requires UniqueAccounts(users) && id !in users
    requires !UsernameTaken(users, u.username) && !EmailTaken(users, u.email)
    ensures UniqueAccounts(users[id := u])
  {
    var after := users[id := u];
    forall a, b | a in after && b in after && a != b
      ensures after[a].username != after[b].username &&
              (after[a].email == "" || after[a].email != after[b].email)
    {
      if a == id || b == id {
        var other := if a == id then b else a;
        assert other in users;
      }
    }
  }

  /** An update that passed the uniqueness check keeps usernames and e-mail
      addresses unique. */
  lemma UpdateKeepsUnique(users: map<string, User>, id: string, data: UserUpdate)
    requires UniqueAccounts(users) && id in users
    requires forall k :: k in users ==> users[k].id == k
    requires data.username.Some? ==> data.username.value != ""
    requires !Clash(users, Some(id), data.username, data.email)
    ensures UniqueAccounts(users[id := ApplyUpdate(users[id], data)])
  {
    var after := users[id := ApplyUpdate(users[id], data)];
    forall a, b | a in after && b in after && a != b
      ensures after[a].username != after[b].username &&
              (after[a].email == "" || after[a].email != after[b].email)
    {
      if a == id || b == id {
        var other := if a == id then b else a;
        assert other in users && Some(other) != Some(id);
      }
    }
  }
}
