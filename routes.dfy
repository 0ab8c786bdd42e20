/**
 * The API route handlers over one server state: the user table, the hospital table
 * and the client's cookie jar. Each handler is a chain of early returns, each check
 * with its own status; at most one insert, update or delete follows. A handler's
 * `catch` becomes the 500 (or, for forgotPassword, 400) branch: a request body that is
 * not JSON is `None`, a token `jwt.verify` rejects is `Unverifiable`, and a record the
 * schema rejects is a failed save or create.
 */
module Routes {
  import opened Wrappers
  import opened Passwords
  import opened Tokens
  import opened UserModel
  import opened HospitalModel
  import opened Http

  /** The signup form's JSON body; any field may be missing. */
  datatype SignupBody = SignupBody(
    name: Option<string>,
    email: Option<string>,
    password: Option<string>,
    confirmPassword: Option<string>,
    role: Option<string>)

  /** The login form's JSON body. */
  datatype LoginBody = LoginBody(email: string, password: string)

  /** Signup's first check: every field truthy. */
  predicate AllPresent(b: SignupBody)
  {
    Present(b.name) && Present(b.email) && Present(b.password) && Present(b.confirmPassword) && Present(b.role)
  }

  ghost predicate EmailTaken(users: map<UserId, User>, email: string)
  {
    exists id :: id in users && users[id].email == email
  }

  /** The record a successful signup stores: the given name, email and role, the
      password hashed under the hook's salt, no reset or verification tokens. */
  function NewUser(name: string, email: string, password: string, role: Role, salt: Salt): User
  {
    User(name, email, Hash(salt, Plain(password)), role, None, None, None, None)
  }

  /** The payload login signs: the user's id and role. */
  function TokenClaims(id: UserId, user: User): Claims
  {
    Claims(Some(id), Some(RoleName(user.role)))
  }

  /** The cookie options signup and login use: httpOnly, seven days, path "/", secure in production. */
  function SessionCookie(value: Text, production: bool): Cookie
  {
    Cookie(value, true, SevenDays, "/", production)
  }

  /** The cookie logout sets: empty value, max-age 0. */
  const ClearedToken := Cookie(Literal(""), true, 0, "/", false)

  /** What the `token` cookie establishes about a caller at time `now`. */
  datatype Session = NoToken | Unverifiable | Decoded(claims: Claims)

  /** A missing or empty `token` cookie is no token; one `jwt.verify` rejects throws. */
  function ReadSession(jar: CookieJar, now: int): Session
  {
    var token := RequestCookie(jar, "token");
    if token.None? || Falsy(token.value) then NoToken
    else
      match Verify(token.value, now)
      case None => Unverifiable
      case Some(claims) => Decoded(claims)
  }

  /** `User.findById(id)`, where an undefined id matches no document. */
  function FindUserById(users: map<UserId, User>, id: Option<UserId>): (r: Option<User>)
    ensures r.Some? <==> id.Some? && id.value in users
    ensures r.Some? ==> r.value == users[id.value]
  {
    if id.Some? && id.value in users then Some(users[id.value]) else None
  }

  /** The registration gate: the live record of the caller exists and is a doctor. */
  predicate IsDoctor(users: map<UserId, User>, id: Option<UserId>)
  {
    var user := FindUserById(users, id);
    user.Some? && user.value.role == Doctor
  }

  /** Which hospital route file a PUT or DELETE reaches. The `all` route has no `[id]`
      segment, so the `params.id` its handlers read is undefined. */
  datatype HospitalRoute = AllRoute | ByIdRoute(id: HospitalId)

  function RouteParamId(route: HospitalRoute): (r: Option<HospitalId>)
    ensures r.None? <==> route.AllRoute?
    ensures route.ByIdRoute? ==> r == Some(route.id)
  {
    match route
    case AllRoute => None
    case ByIdRoute(id) => Some(id)
  }

  class Server {
    /** `process.env.NODE_ENV === "production"`, which decides the cookies' `secure` flag. */
    const production: bool
    var users: map<UserId, User>
    var hospitals: map<HospitalId, Hospital>
    var jar: CookieJar
    /** The next fresh object id. */
    var nextId: nat

    /** Ids are fresh, emails unique, and no stored password is plaintext. */
    ghost predicate Valid()
      reads this
    {
      && (forall id :: id in users ==> id < nextId)
      && (forall id :: id in hospitals ==> id < nextId)
      && UniqueEmails(users)
      && (forall id :: id in users ==> users[id].password.Digest?)
    }

    constructor (production: bool)
      ensures Valid()
      ensures this.production == production
      ensures users == map[] && hospitals == map[] && jar == map[] && nextId == 0
    {
      this.production := production;
      users, hospitals, jar, nextId := map[], map[], map[], 0;
    }

    /** `User.findOne({ email })`. */
    method FindByEmail(email: string) returns (found: Option<UserId>)
      ensures found.None? <==> !EmailTaken(users, email)
      ensures found.Some? ==> found.value in users && users[found.value].email == email
    {
      var matches := set id | id in users && users[id].email == email;
      if matches == {} {
        assert forall id :: id in users && users[id].email == email ==> id in matches;
        return None;
      }
      var id :| id in matches;
      return Some(id);
    }

    /** `new User({ name, email, password, role })`, which draws a fresh `_id`. */
    method NewUserDocument(name: string, email: string, password: string, role: Option<string>) returns (doc: UserDocument)
      requires Valid()
      modifies this`nextId
      ensures Valid() && fresh(doc) && doc.Valid()
      ensures doc.id == old(nextId) && doc.id !in users && doc.id < nextId
      ensures doc.name == name && doc.email == email && doc.password == Plain(password)
      ensures doc.role == RoleOrDefault(role) && doc.passwordModified && doc.isNew
      ensures doc.forgotPasswordToken.None? && doc.forgotPasswordExpiry.None?
      ensures doc.verifyToken.None? && doc.verifyTokenExpiry.None?
    {
      doc := new UserDocument(nextId, name, email, password, role);
      nextId := nextId + 1;
    }

    /** `doc.save()`: validation, then the pre-save hook, then the insert (a new
        document) or replacement (a stored one), which the unique index on `email`
        refuses when another user holds the email. `ok` is false where save throws. */
    method SaveUser(doc: UserDocument, salt: Salt) returns (ok: bool)
      requires Valid() && doc.Valid() && doc.id < nextId
      modifies this`users, doc`password, doc`passwordModified, doc`isNew
      ensures Valid() && doc.Valid()
      ensures ok <==> && old(doc.Validated()).Some?
                      && EmailFreeFor(old(users), old(doc.email), doc.id)
                      && (old(doc.isNew) <==> doc.id !in old(users))
      ensures old(doc.Validated()).None? ==> doc.password == old(doc.password)
      ensures old(doc.Validated()).Some? && old(doc.passwordModified) ==> doc.password == Hash(salt, old(doc.password))
      ensures old(doc.Validated()).Some? && !old(doc.passwordModified) ==> doc.password == old(doc.password)
      ensures ok ==> users == old(users)[doc.id := old(doc.Validated()).value.(password := doc.password)]
      ensures ok ==> !doc.passwordModified && !doc.isNew
      ensures !ok ==> users == old(users) && doc.passwordModified == old(doc.passwordModified) && doc.isNew == old(doc.isNew)
    {
      var record := doc.Validated();
      if record.None? {
        return false;
      }
      doc.HashPasswordHook(salt);
      var clash := set other | other in users && other != doc.id && users[other].email == doc.email;
      if clash != {} || doc.isNew == (doc.id in users) {
        return false;
      }
      assert forall other :: other in users && other != doc.id && users[other].email == doc.email ==> other in clash;
      var stored := record.value.(password := doc.password);
      InsertKeepsUniqueEmails(users, doc.id, stored);
      users := users[doc.id := stored];
      doc.passwordModified, doc.isNew := false, false;
      ok := true;
    }

    /** POST /api/users/signup. */
    method Signup(request: Option<SignupBody>, salt: Salt) returns (r: Response)
      requires Valid()
      modifies this`users, this`jar, this`nextId
      ensures Valid()
      ensures request.None? ==> r == ServerError && users == old(users) && jar == old(jar)
      ensures request.Some? ==>
        var b := request.value;
        if !AllPresent(b) then
          r == Response(400, Error("All fields are required")) && users == old(users) && jar == old(jar)
        else if '@' !in b.email.value then
          r == Response(400, Error("Please enter a valid email")) && users == old(users) && jar == old(jar)
        else if b.password.value != b.confirmPassword.value then
          r == Response(400, Error("Passwords do not match")) && users == old(users) && jar == old(jar)
        else if EmailTaken(old(users), b.email.value) then
          r == Response(400, Error("User already exists with this email")) && users == old(users) && jar == old(jar)
        else if ParseRole(b.role.value).None? then
          r == ServerError && users == old(users) && jar == old(jar)
        else
          && r == Response(201, Message("Account created successfully"))
          && users == old(users)[old(nextId) := NewUser(b.name.value, b.email.value, b.password.value, ParseRole(b.role.value).value, salt)]
          && jar == old(jar)["userId" := SessionCookie(ObjectIdText(old(nextId)), production)]
    {
      if request.None? {
        return ServerError;
      }
      var b := request.value;
      if !AllPresent(b) {
        return Response(400, Error("All fields are required"));
      }
      var name, email, password, confirmPassword, role :=
        b.name.value, b.email.value, b.password.value, b.confirmPassword.value, b.role.value;
      if '@' !in email {
        return Response(400, Error("Please enter a valid email"));
      }
      if password != confirmPassword {
        return Response(400, Error("Passwords do not match"));
      }
      var check := FindByEmail(email);
      if check.Some? {
        return Response(400, Error("User already exists with this email"));
      }
      var doc := NewUserDocument(name, email, password, Some(role));
      var saved := SaveUser(doc, salt);
      if !saved {
        return ServerError;
      }
      r := Response(201, Message("Account created successfully"));
      jar := jar["userId" := SessionCookie(ObjectIdText(doc.id), production)];
    }

    /** POST /api/users/login. */
    method Login(request: Option<LoginBody>, now: int) returns (r: Response)
      requires Valid()
      modifies this`jar
      ensures Valid()
      ensures request.None? ==> r == ServerError && jar == old(jar)
      ensures request.Some? && !EmailTaken(users, request.value.email) ==>
        r == Response(400, Message("Email doesn't exist")) && jar == old(jar)
      ensures forall id :: request.Some? && id in users && users[id].email == request.value.email ==>
        if Compare(request.value.password, users[id].password) then
          && r == Response(200, LoginPayload("Login successful", Project(id, users[id])))
          && jar == old(jar)["token" := SessionCookie(Compact(Sign(TokenClaims(id, users[id]), now)), production)]
        else
          r == Response(400, Message("Invalid password")) && jar == old(jar)
    {
      if request.None? {
        return ServerError;
      }
      var check := FindByEmail(request.value.email);
      if check.None? {
        return Response(400, Message("Email doesn't exist"));
      }
      var id := check.value;
      var user := users[id];
      if !Compare(request.value.password, user.password) {
        return Response(400, Message("Invalid password"));
      }
      var token := Sign(TokenClaims(id, user), now);
      r := Response(200, LoginPayload("Login successful", Project(id, user)));
      jar := jar["token" := SessionCookie(Compact(token), production)];
    }

    /** GET /api/users/me. It changes nothing. */
    method Me(now: int) returns (r: Response)
      ensures ReadSession(jar, now).NoToken? ==> r == Response(401, Message("Not authenticated"))
      ensures ReadSession(jar, now).Unverifiable? ==> r == ServerError
      ensures ReadSession(jar, now).Decoded? ==>
        var id := ReadSession(jar, now).claims.id;
        if id.None? then r == Response(401, Message("Invalid token"))
        else if id.value !in users then r == Response(404, Message("User not found"))
        else r == Response(200, UserPayload(Project(id.value, users[id.value])))
    {
      var token := RequestCookie(jar, "token");
      if token.None? || Falsy(token.value) {
        return Response(401, Message("Not authenticated"));
      }
      var decoded := Verify(token.value, now);
      if decoded.None? {
        return ServerError;
      }
      if decoded.value.id.None? {
        return Response(401, Message("Invalid token"));
      }
      var user := FindUserById(users, decoded.value.id);
      if user.None? {
        return Response(404, Message("User not found"));
      }
      r := Response(200, UserPayload(Project(decoded.value.id.value, user.value)));
    }

    /** POST /api/users/logout: the `token` cookie is overwritten, nothing else. */
    method Logout() returns (r: Response)
      modifies this`jar
      ensures r == Response(200, LogoutPayload("Logged out successfully", 200))
      ensures jar == old(jar)["token" := ClearedToken]
    {
      r := Response(200, LogoutPayload("Logged out successfully", 200));
      jar := jar["token" := ClearedToken];
    }

    /** POST /api/users/forgotPassword, whose body is `{ email }`. For a known email the
        handler falls off its empty branch and returns no response (None). Its `catch`
        answers 400. It changes nothing. */
    method ForgotPassword(request: Option<string>) returns (r: Option<Response>)
      ensures request.None? ==> r == Some(Response(400, Message("Something went wrong try again later")))
      ensures request.Some? && !EmailTaken(users, request.value) ==> r == Some(Response(400, Message("email doesn't exsist")))
      ensures request.Some? && EmailTaken(users, request.value) ==> r.None?
    {
      if request.None? {
        return Some(Response(400, Message("Something went wrong try again later")));
      }
      var check := FindByEmail(request.value);
      if check.None? {
        return Some(Response(400, Message("email doesn't exsist")));
      }
      r := None;
    }

    /** POST /api/hospitals/registerHospital. The role comes from the user table, not
        from the token, and the body is read only once the caller is authorised. */
    method RegisterHospital(request: Option<HospitalBody>, now: int) returns (r: Response)
      requires Valid()
      modifies this`hospitals, this`nextId
      ensures Valid()
      ensures var session := ReadSession(jar, now);
        if session.NoToken? then
          r == Response(401, Error("Unauthorized. Please login.")) && hospitals == old(hospitals)
        else if session.Unverifiable? then
          r == ServerError && hospitals == old(hospitals)
        else if !IsDoctor(users, session.claims.id) then
          r == Response(403, Error("Only doctors can register hospitals.")) && hospitals == old(hospitals)
        else if request.None? || !AdmitsBody(request.value) then
          r == ServerError && hospitals == old(hospitals)
        else
          var h := CreateHospital(request.value, session.claims.id.value).value;
          && r == Response(201, RegisteredPayload("Hospital registered successfully", h))
          && hospitals == old(hospitals)[old(nextId) := h]
    {
      var token := RequestCookie(jar, "token");
      if token.None? || Falsy(token.value) {
        return Response(401, Error("Unauthorized. Please login."));
      }
      var decoded := Verify(token.value, now);
      if decoded.None? {
        return ServerError;
      }
      var user := FindUserById(users, decoded.value.id);
      if user.None? || user.value.role != Doctor {
        return Response(403, Error("Only doctors can register hospitals."));
      }
      if request.None? {
        return ServerError;
      }
      var created := CreateHospital(request.value, decoded.value.id.value);
      if created.None? {
        return ServerError;
      }
      hospitals := hospitals[nextId := created.value];
      nextId := nextId + 1;
      r := Response(201, RegisteredPayload("Hospital registered successfully", created.value));
    }

    /** GET /api/hospitals/all. It changes nothing. */
    method AllHospitals() returns (r: Response)
      ensures r.status == 200 && r.body.HospitalTable?
      ensures forall id :: id in r.body.hospitals <==> id in hospitals
      ensures forall id :: id in hospitals ==> r.body.hospitals[id] == hospitals[id]
    {
      r := Response(200, HospitalTable(hospitals));
    }

    /** PUT on a hospital route: `findById`, then `findByIdAndUpdate(id, body, { new: true })`.
        No cookie and no caller identity is consulted. */
    method UpdateHospital(id: Option<HospitalId>, request: Option<HospitalBody>) returns (r: Response)
      requires Valid()
      modifies this`hospitals
      ensures Valid()
      ensures request.None? ==> r == ServerError && hospitals == old(hospitals)
      ensures request.Some? && (id.None? || id.value !in old(hospitals)) ==>
        r == Response(404, Message("Hospital not found")) && hospitals == old(hospitals)
      ensures request.Some? && id.Some? && id.value in old(hospitals) ==>
        var updated := ApplyUpdate(old(hospitals)[id.value], request.value);
        r == Response(200, HospitalPayload(updated)) && hospitals == old(hospitals)[id.value := updated]
    {
      if request.None? {
        return ServerError;
      }
      if id.None? || id.value !in hospitals {
        return Response(404, Message("Hospital not found"));
      }
      var updated := ApplyUpdate(hospitals[id.value], request.value);
      hospitals := hospitals[id.value := updated];
      r := Response(200, HospitalPayload(updated));
    }

    /** DELETE on a hospital route: `findById`, then `findByIdAndDelete(id)`. No cookie
        and no caller identity is consulted. */
    method DeleteHospital(id: Option<HospitalId>) returns (r: Response)
      requires Valid()
      modifies this`hospitals
      ensures Valid()
      ensures id.None? || id.value !in old(hospitals) ==>
        r == Response(404, Message("Hospital not found")) && hospitals == old(hospitals)
      ensures id.Some? && id.value in old(hospitals) ==>
        r == Response(200, Message("Hospital deleted successfully")) && hospitals == old(hospitals) - {id.value}
    {
      if id.None? || id.value !in hospitals {
        return Response(404, Message("Hospital not found"));
      }
      hospitals := hospitals - {id.value};
      r := Response(200, Message("Hospital deleted successfully"));
    }
  }
}
