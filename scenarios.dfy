/**
 * Clients of the server: request sequences whose outcome follows from the handlers'
 * contracts alone.
 */
module Scenarios {
  import opened Wrappers
  import opened Passwords
  import opened Tokens
  import opened UserModel
  import opened HospitalModel
  import opened Http
  import opened Routes
  import opened Navbar

  /** A doctor signs up, logs in, registers a hospital, asks who they are, logs out and
      asks again. The hospital is owned by the new user; after logout the server no
      longer recognises the caller. */
  method DoctorWalkthrough(salt: Salt, now: int, form: HospitalBody)
    returns (signup: Response, login: Response, register: Response, me: Response, logout: Response, meAfterLogout: Response)
    requires AdmitsBody(form)
    ensures signup == Response(201, Message("Account created successfully"))
    ensures login.status == 200 && login.body.LoginPayload?
    ensures login.body.user == PublicUser(0, "A Doe", "a@x.com", Doctor)
    ensures register.status == 201 && register.body.RegisteredPayload? && register.body.data.doctor == 0
    ensures me == Response(200, UserPayload(login.body.user))
    ensures logout.status == 200
    ensures meAfterLogout == Response(401, Message("Not authenticated"))
  {
    var server := new Server(false);
    var email := "a@x.com";
    assert email[1] == '@';
    signup := server.Signup(Some(SignupBody(Some("A Doe"), Some(email), Some("p1"), Some("p1"), Some("doctor"))), salt);
    assert server.users == map[0 := NewUser("A Doe", email, "p1", Doctor, salt)];
    assert 0 in server.users && server.users[0].email == email;
    CompareAcceptsHash(salt, "p1");
    login := server.Login(Some(LoginBody(email, "p1")), now);
    assert ReadSession(server.jar, now + 1) == Decoded(Claims(Some(0), Some("doctor")));
    register := server.RegisterHospital(Some(form), now + 1);
    assert ReadSession(server.jar, now + 2) == Decoded(Claims(Some(0), Some("doctor")));
    me := server.Me(now + 2);
    logout := server.Logout();
    meAfterLogout := server.Me(now + 3);
  }

  /** For any new user: signing up, logging in with the same password and asking who
      one is. Login succeeds and hands out the stored user, and me answers with exactly
      the user login returned. */
  method SignupLoginMe(server: Server, name: string, email: string, password: string, role: string, salt: Salt, now: int)
    returns (signup: Response, login: Response, me: Response)
    requires server.Valid()
    requires name != "" && password != "" && '@' in email
    requires !EmailTaken(server.users, email)
    requires ParseRole(role).Some?
    modifies server
    ensures server.Valid()
    ensures signup == Response(201, Message("Account created successfully"))
    ensures login.status == 200 && login.body.LoginPayload?
    ensures login.body.user == PublicUser(old(server.nextId), name, email, ParseRole(role).value)
    ensures me == Response(200, UserPayload(login.body.user))
  {
    var id := server.nextId;
    var r := ParseRole(role).value;
    signup := server.Signup(Some(SignupBody(Some(name), Some(email), Some(password), Some(password), Some(role))), salt);
    assert server.users == old(server.users)[id := NewUser(name, email, password, r, salt)];
    assert id in server.users && server.users[id].email == email;
    CompareAcceptsHash(salt, password);
    login := server.Login(Some(LoginBody(email, password)), now);
    assert ReadSession(server.jar, now) == Decoded(Claims(Some(id), Some(RoleName(r))));
    me := server.Me(now);
  }

  /** Signing up again with a registered email fails, whatever password and role are
      given, and stores nothing. */
  method DuplicateSignupRejected(server: Server, salt: Salt, password: string, role: string)
    returns (r: Response)
    requires server.Valid()
    requires password != "" && role != ""
    requires exists id :: id in server.users && server.users[id].email == "a@x.com"
    modifies server
    ensures r == Response(400, Error("User already exists with this email"))
    ensures server.users == old(server.users) && server.jar == old(server.jar)
  {
    var email := "a@x.com";
    assert email[1] == '@';
    r := server.Signup(Some(SignupBody(Some("B"), Some(email), Some(password), Some(password), Some(role))), salt);
  }

  /** A document saved twice keeps the digest of the first save: the second save finds
      the password unmodified and does not hash it again. A missing role became "patient". */
  method PasswordHashedOnce(server: Server, salt1: Salt, salt2: Salt) returns (stored: User)
    requires server.Valid() && forall id :: id in server.users ==> server.users[id].email != "a@x.com"
    modifies server
    ensures stored.password == Hash(salt1, Plain("p1")) && Compare("p1", stored.password)
    ensures stored.name == "Ann" && stored.role == Patient
  {
    var doc := server.NewUserDocument("A Doe", "a@x.com", "p1", None);
    var first := server.SaveUser(doc, salt1);
    assert first;
    doc.name := "Ann";
    var second := server.SaveUser(doc, salt2);
    assert second;
    stored := server.users[doc.id];
    CompareAcceptsHash(salt1, "p1");
  }

  /** A document with an empty password fails the `required` validator and is not stored. */
  method BlankPasswordNotSaved(server: Server, salt: Salt) returns (saved: bool)
    requires server.Valid()
    modifies server
    ensures !saved && server.users == old(server.users)
  {
    var doc := server.NewUserDocument("A Doe", "a@x.com", "", Some("patient"));
    saved := server.SaveUser(doc, salt);
  }

  /** Logging out twice leaves the jar as logging out once; a `userId` cookie is kept. */
  method LogoutTwice(server: Server) returns (first: Response, second: Response)
    modifies server
    ensures first == second
    ensures server.jar == old(server.jar)["token" := ClearedToken]
    ensures "userId" in old(server.jar) ==> "userId" in server.jar && server.jar["userId"] == old(server.jar)["userId"]
  {
    first := server.Logout();
    second := server.Logout();
  }

  /** A token that still says "doctor" does not help a user whose stored role is
      "patient": the gate reads the table. */
  method StaleDoctorTokenRefused(server: Server, id: UserId, now: int, form: HospitalBody) returns (r: Response)
    requires server.Valid()
    requires id in server.users && server.users[id].role == Patient
    modifies server
    ensures r == Response(403, Error("Only doctors can register hospitals."))
    ensures server.hospitals == old(server.hospitals)
  {
    var token := Sign(Claims(Some(id), Some("doctor")), now);
    server.jar := server.jar["token" := SessionCookie(Compact(token), false)];
    assert ReadSession(server.jar, now) == Decoded(Claims(Some(id), Some("doctor")));
    r := server.RegisterHospital(Some(form), now);
  }

  /** After a delete, the listing no longer holds the record, and holds every other one. */
  method DeleteThenList(server: Server, id: HospitalId) returns (deleted: Response, listed: Response)
    requires server.Valid() && id in server.hospitals
    modifies server
    ensures deleted.status == 200
    ensures listed.status == 200 && listed.body.HospitalTable?
    ensures id !in listed.body.hospitals
    ensures forall other :: other in old(server.hospitals) && other != id ==> other in listed.body.hospitals
  {
    deleted := server.DeleteHospital(RouteParamId(ByIdRoute(id)));
    listed := server.AllHospitals();
  }

  /** As written: a PUT to /api/hospitals/all carries no id, so even an existing record
      is "not found" and nothing changes. */
  method UpdateThroughAllRoute(server: Server, id: HospitalId, body: HospitalBody) returns (r: Response)
    requires server.Valid() && id in server.hospitals
    modifies server
    ensures r == Response(404, Message("Hospital not found"))
    ensures server.hospitals == old(server.hospitals)
  {
    r := server.UpdateHospital(RouteParamId(AllRoute), Some(body));
  }

  /** As written: a DELETE to /api/hospitals/all likewise never reaches a record. */
  method DeleteThroughAllRoute(server: Server, id: HospitalId) returns (r: Response)
    requires server.Valid() && id in server.hospitals
    modifies server
    ensures r == Response(404, Message("Hospital not found"))
    ensures server.hospitals == old(server.hospitals)
  {
    r := server.DeleteHospital(RouteParamId(AllRoute));
  }

  /** Through the `[id]` route the id reaches the handler: the record is updated and
      returned, and the others are kept. */
  method UpdateThroughIdRoute(server: Server, id: HospitalId, body: HospitalBody) returns (r: Response)
    requires server.Valid() && id in server.hospitals
    modifies server
    ensures r == Response(200, HospitalPayload(ApplyUpdate(old(server.hospitals)[id], body)))
    ensures server.hospitals == old(server.hospitals)[id := ApplyUpdate(old(server.hospitals)[id], body)]
  {
    r := server.UpdateHospital(RouteParamId(ByIdRoute(id)), Some(body));
  }

  /** Through the `[id]` route a delete removes exactly that record. */
  method DeleteThroughIdRoute(server: Server, id: HospitalId) returns (r: Response)
    requires server.Valid() && id in server.hospitals
    modifies server
    ensures r == Response(200, Message("Hospital deleted successfully"))
    ensures server.hospitals == old(server.hospitals) - {id}
  {
    r := server.DeleteHospital(RouteParamId(ByIdRoute(id)));
  }

  /** The navbar offers "Register Hospital" to the user GET /api/users/me returns exactly
      when the registration gate would let that user through. */
  lemma RegisterLinkMatchesGate(users: map<UserId, User>, id: UserId, pathname: Option<string>)
    requires id in users && !IsAuthPage(pathname)
    ensures Render(pathname, Some(Project(id, users[id]))).value.registerHospital <==> IsDoctor(users, Some(id))
  {
  }
}
