# Hospital directory: authentication and role-gated registration, in Dafny

This project models the server side of a small hospital-directory web application.
Patients and doctors sign up and log in. A logged-in doctor registers hospitals, and
anyone can list, update or delete them. The navigation bar adapts to who is logged in.

The model is one abstract server state, `Routes.Server`. It holds:

- the user table (id to name, email, password digest, role; emails unique);
- the hospital table (id to record);
- the client's cookie jar;
- an object-id counter.

Each API route handler is a method on that state. It returns a status and a JSON body,
and changes at most the table or cookie it must. The handlers are chains of early
returns. Their ensures clauses give, check by check and in the handler's order, the
status each failing check produces. They also say that nothing was stored on every
error path.

The libraries stay abstract:

- bcrypt is `Passwords.Hash`/`Passwords.Compare` over a symbolic digest. The one property
  the application relies on, that `Compare(p, Hash(s, p))` holds, is a lemma.
- jsonwebtoken is `Tokens.Sign`/`Tokens.Verify` with an explicit clock. A token verifies
  if the server signed it and `now < exp`. Anything else makes `jwt.verify` throw.

The two Mongoose schemas are validity predicates, which `save` and `create` enforce.
The user model's `pre("save")` hook is a method on `UserModel.UserDocument`, the
in-memory document, which it changes in place. The navbar's string and visibility
helpers are pure functions in `Navbar`.

Modules: `Wrappers` (Option), `Passwords`, `Tokens`, `UserModel`, `HospitalModel`,
`Http` (cookies, responses), `Routes` (the server and its handlers), `Navbar`, and
`Scenarios`. `Scenarios` holds client request sequences proved from the handlers'
contracts alone.

How thrown errors are modelled. A request body that is not JSON is `None`. A token that
`jwt.verify` rejects is `Routes.Session.Unverifiable`. A record the schema rejects is a
failed `SaveUser` or a `None` from `CreateHospital`. In each case the model goes to the
handler's `catch` branch: 500 everywhere, except 400 in forgotPassword.
`findById(undefined)` matches no document, so an absent id is `None` and counts as "not
found".

Behaviour of the code worth noting:

- GET /api/users/me answers 500, not 401, for a token that fails verification, because
  `jwt.verify` throws into the `catch`.
- forgotPassword with a known email returns no response at all, not 200. Its branch is empty.
- Signup sets a plain `userId` cookie (seven days, httpOnly, path `/`) and no `token` cookie.
- Hospital update and delete check no identity or ownership. `findByIdAndUpdate` also runs
  no validators, so an update can store a record the schema forbids
  (`HospitalModel.UpdateCanBreakSchema`) or move a hospital to another doctor
  (`HospitalModel.UpdateCanReassignDoctor`).
- A missing `specialities` is accepted. Mongoose gives array paths the default `[]`, and
  its `required` check accepts an empty array.

## Model

| member | source | states |
|---|---|---|
| `Passwords.Hash` | models/userModel.ts:30-31 | what the hook stores is always a digest, never plaintext |
| `Passwords.HashChangesContent` | models/userModel.ts:31 | hashing always changes the password field, even when it already holds a digest |
| `Passwords.CompareAcceptsHash` | app/api/users/login/route.ts:23-30 | the password that was hashed passes `bcrypt.compare` against the digest, whatever the salt |
| `Passwords.CompareRejectsOtherPassword` | app/api/users/login/route.ts:23-30 | any other password fails the compare (for the symbolic digest), so login answers "Invalid password" |
| `Passwords.DoubleHashBreaksCompare` | models/userModel.ts:28 | a digest hashed a second time no longer matches the password, which is why the hook must skip unmodified passwords |
| `Passwords.MatchingDigestIsNotPlaintext` | models/userModel.ts:27-32 | a stored value that matches a password is not that password |
| `Passwords.SaltsSeparateDigests` | models/userModel.ts:30 | with different salts, two users with the same password store different digests |
| `Tokens.SignedTokenVerifiesForSevenDays` | app/api/users/login/route.ts:34-41 | a token login signs yields exactly its id and role payload, and only before issue time + 604800 s (`expiresIn: "7d"`) |
| `Tokens.VerifiedOnlyIfServerSigned` | app/api/users/me/route.ts:25-28 | whatever `jwt.verify` accepts is a server-signed, unexpired token, and the decoded payload is its claims |
| `Tokens.NonTokenTextNeverVerifies` | app/api/hospitals/registerHospital/route.ts:20-23 | free text, or a bare user id like signup's `userId` cookie, never passes verification |
| `UserModel.ParseRole` | models/userModel.ts:16-20 | the role enum admits exactly "doctor" and "patient" |
| `UserModel.ParseRoleName` | models/userModel.ts:18 | the enum's names round-trip: parsing a role's name gives the role back |
| `UserModel.RoleOrDefault` | models/userModel.ts:19 | a document built without a role gets "patient"; a given role is kept as is |
| `UserModel.ProjectionHidesPassword` | app/api/users/login/route.ts:46-51 | the public projection (id, name, email, role) does not depend on the password |
| `UserModel.InsertKeepsUniqueEmails` | models/userModel.ts:8-11 | writing a record whose email no other user holds keeps emails unique |
| `UserModel.UserDocument.constructor` | app/api/users/signup/route.ts:64-69 | `new User({...})` holds the given fields, a plaintext password marked modified, and the role default |
| `UserModel.UserDocument.Validated` | models/userModel.ts:12-20 | the schema accepts a document exactly when its role is in the enum and its password is not empty; the record keeps the document's fields |
| `UserModel.UserDocument.HashPasswordHook` | models/userModel.ts:27-32 | a modified password becomes `Hash(salt, old password)`; an unmodified one is left exactly as it was; only the password path is written |
| `HospitalModel.CreateHospital` | models/hospitals.ts:3-76 | `create` succeeds exactly when the seven required paths are present (strings non-empty) and `hospitalType` is Government, Private or Clinic; the record is then schema-valid and owned by the given doctor |
| `HospitalModel.BodyDoctorIsIgnored` | app/api/hospitals/registerHospital/route.ts:36-39 | a `doctor` in the body is overridden by the caller's id |
| `HospitalModel.OmittedFieldsTakeDefaults` | models/hospitals.ts:54-67 | omitted `emergencyAvailable` and `ambulanceAvailable` become false, omitted `specialities` the empty list |
| `HospitalModel.OptionalFieldsAreOptional` | models/hospitals.ts:46-52 | leaving out `description` and `establishedYear` never changes whether a body is accepted |
| `HospitalModel.EmptyUpdateChangesNothing` | app/api/hospitals/all/route.ts:37-41 | an update body naming no path leaves the record as it was |
| `HospitalModel.AdmittedUpdateKeepsValidity` | app/api/hospitals/all/route.ts:37-41 | an update whose body the schema would admit keeps a valid record valid |
| `HospitalModel.UpdateCanBreakSchema` | app/api/hospitals/all/route.ts:37-41 | since no validator runs, an update can store a `hospitalType` outside the enum |
| `HospitalModel.UpdateCanReassignDoctor` | app/api/hospitals/all/route.ts:37-41 | since there is no ownership check, an update can move a hospital to another doctor |
| `Routes.RouteParamId` | app/api/hospitals/all/route.ts:22 | the static `all` route supplies no id; the `[id]` route supplies exactly its own path segment |
| `Routes.Server.FindByEmail` | app/api/users/signup/route.ts:36 | `findOne({ email })` finds nothing exactly when no stored user has that email, and otherwise a user who has it |
| `Routes.Server.NewUserDocument` | app/api/users/signup/route.ts:64-69 | a new document gets a fresh id that no stored user has |
| `Routes.Server.SaveUser` | models/userModel.ts:4-32 | save succeeds exactly when the schema accepts the document and no other user holds its email (unique index); validation runs before the hook, so a rejected document is not hashed; success stores the hooked record and clears the modified mark; failure stores nothing; emails stay unique and stored passwords stay digests |
| `Routes.Server.Signup` | app/api/users/signup/route.ts:6-94 | the first failing check decides: malformed body 500, a missing field 400, no `@` 400, mismatch 400, taken email 400 (whatever password and role), role outside the enum 500; the table and jar are unchanged on all of these; otherwise 201, exactly one user added with the given name, email and role and a hashed password, and cookie `userId` = new id, seven days, httpOnly, path `/` |
| `Routes.Server.Login` | app/api/users/login/route.ts:7-72 | unknown email 400 and failed compare 400, both setting no cookie; otherwise 200 with only id, name, email and role, and cookie `token` = a token signing exactly id and role, httpOnly, seven days, path `/`; the user table is never written and the server invariant holds afterwards |
| `Routes.Server.Me` | app/api/users/me/route.ts:10-65 | no or empty `token` cookie 401; a token that fails verification 500; no id 401; unknown id 404; otherwise 200 with the live record's projection, so the role comes from the table; it writes nothing |
| `Routes.Server.Logout` | app/api/users/logout/route.ts:5-28 | whatever the state, answers 200 with the message and `status: 200`, and overwrites only the `token` cookie with "" and max-age 0 |
| `Routes.Server.ForgotPassword` | app/api/users/forgotPassword/route.ts:5-31 | malformed body 400, unknown email 400, a known email no response; it writes nothing |
| `Routes.Server.RegisterHospital` | app/api/hospitals/registerHospital/route.ts:7-51 | no token 401; failed verification 500; a caller missing from the table or whose stored role is not doctor 403; only then the body is read, and a malformed or schema-invalid body gives 500; nothing is stored on any of these; otherwise 201 with exactly one hospital added, owned by the caller |
| `Routes.Server.AllHospitals` | app/api/hospitals/all/route.ts:6-20 | 200 with every stored hospital and nothing else; it writes nothing |
| `Routes.Server.UpdateHospital` | app/api/hospitals/all/route.ts:22-51 | malformed body 500, absent or unknown id 404, both with the table unchanged; otherwise 200 with the updated record, and only that record changes; cookies and caller identity play no part |
| `Routes.Server.DeleteHospital` | app/api/hospitals/all/route.ts:54-80 | absent or unknown id 404 with the table unchanged; otherwise 200 and exactly that record is removed; cookies and caller identity play no part |
| `Navbar.Split` | components/navbar.tsx:70 | `split(' ')` always yields at least one piece |
| `Navbar.JoinSplit` | components/navbar.tsx:70 | the pieces joined with single spaces give the name back |
| `Navbar.SplitWordsHaveNoSpace` | components/navbar.tsx:70 | no piece contains a space |
| `Navbar.FirstCharsAreWordStarts` | components/navbar.tsx:70-72 | the joined first characters of the pieces are exactly the non-space characters that open the name or follow a space; empty pieces contribute nothing |
| `Navbar.Upper` | components/navbar.tsx:73 | upper-casing keeps the length, leaves no lower-case letter, turns each lower-case letter into the same letter in upper case at the same place, and keeps every other character |
| `Navbar.UpperIdempotent` | components/navbar.tsx:73 | upper-casing an upper-cased string changes nothing |
| `Navbar.GetInitials` | components/navbar.tsx:68-75 | the initials have at most two characters |
| `Navbar.InitialsOfWordStarts` | components/navbar.tsx:68-75 | the initials are the first two word starts of the name, upper-cased, in order |
| `Navbar.InitialsOfADoe` | components/navbar.tsx:68-75 | "A Doe" gives "AD" |
| `Navbar.InitialsSkipEmptyWords` | components/navbar.tsx:70-72 | leading and repeated spaces add nothing: " a  b" gives "AB" |
| `Navbar.AuthPrefixes` | components/navbar.tsx:49-51 | every path beginning with "/login", "/signup" or "/forgotPassword" is an auth page, whatever follows |
| `Navbar.OtherPagesShowNavbar` | components/navbar.tsx:49-55 | a null path, "/", "/registerHospital" and "/hospitalList" are not auth pages |
| `Navbar.HomeHref` | components/navbar.tsx:83 | the home link is the user's profile page when someone is logged in, "/" otherwise |
| `Navbar.Render` | components/navbar.tsx:53-55 | the bar renders nothing exactly on an auth page |
| `Navbar.RenderedLinks` | components/navbar.tsx:113-149 | Popular/About/Contact and the profile button show exactly when a user is present, and Login/Sign Up exactly when not; "Register Hospital" shows exactly for a doctor, so never without the member links |
| `Scenarios.RegisterLinkMatchesGate` | components/navbar.tsx:142-149 | for the user GET /api/users/me returns, the navbar offers "Register Hospital" exactly when the registration handler's role gate would let that user through |
| `Scenarios.DoctorWalkthrough` | app/api/hospitals/registerHospital/route.ts:11-44 | signup 201, login 200, registration 201 with the hospital owned by the new user, me 200 with what login returned, logout, then me 401 |
| `Scenarios.SignupLoginMe` | app/api/users/login/route.ts:23-51 | for every new user with a non-empty name and password, an email with `@` not yet taken and a role in the enum: signup 201, login with the same password 200 returning that user's id, name, email and role, and me right after answers 200 with exactly that user |
| `Scenarios.DuplicateSignupRejected` | app/api/users/signup/route.ts:36-43 | a second signup with a registered email gets 400 whatever password and role it gives, and changes nothing |
| `Scenarios.PasswordHashedOnce` | models/userModel.ts:28 | a document saved twice keeps the first save's digest, which still matches the password; a missing role became "patient" |
| `Scenarios.BlankPasswordNotSaved` | models/userModel.ts:12-15 | a user with an empty password is not saved |
| `Scenarios.LogoutTwice` | app/api/users/logout/route.ts:14-18 | logging out twice answers the same as once and leaves the same jar; a `userId` cookie survives |
| `Scenarios.StaleDoctorTokenRefused` | app/api/hospitals/registerHospital/route.ts:25-32 | a valid token that says "doctor" for a user stored as patient gets 403, and nothing is stored |
| `Scenarios.DeleteThenList` | app/api/hospitals/all/route.ts:67-72 | after a delete, the listing lacks that record and still has every other |
| `Scenarios.UpdateThroughAllRoute` | app/api/hospitals/all/route.ts:28-35 | as written, a PUT to the `all` route gets 404 even for an existing hospital, and nothing changes |
| `Scenarios.DeleteThroughAllRoute` | app/api/hospitals/all/route.ts:58-65 | as written, a DELETE to the `all` route gets 404 even for an existing hospital, and nothing changes |
| `Scenarios.UpdateThroughIdRoute` | app/api/hospitals/all/route.ts:37-43 | when the id reaches the handler, as through the `[id]` route, the record is updated and returned, and the others are kept |
| `Scenarios.DeleteThroughIdRoute` | app/api/hospitals/all/route.ts:67-72 | when the id reaches the handler, as through the `[id]` route, exactly that record is removed |

## Left out

- lib/dbconfig.ts and every `await connect()`: the tables are in-memory maps that are always available. Database and network failures are not modelled, so these 500 branches never arise: GET all (app/api/hospitals/all/route.ts:14-19), PUT and DELETE beyond a malformed body, and login and me beyond verification.
- JSON values of the wrong type and the cast errors they cause: request bodies are typed. An explicit `null` in an update body is not modelled; only present and absent paths are.
- A login or forgotPassword body without an `email` or `password` key is not modelled: the body there is either unparseable or holds both strings.
- The text of caught error messages (`error.message`): every such 500 carries the same `InternalError` body.
- The secret, the signature and the cryptography of bcrypt and jsonwebtoken. A digest is symbolic, and a token only records whether the server signed it. Salts and the clock are parameters; object ids come from a counter.
- Passwords.CompareRejectsOtherPassword: holds for the symbolic digest only. bcryptjs hashes just the first 72 UTF-8 bytes of a password, so two passwords that share those bytes compare alike and either one logs in.
- Client-supplied `_id`, `createdAt` and `updatedAt`: `hospital.create({ ...body, doctor })` keeps an `_id` the body sends, and one already in the table makes `create` throw (500). The model always draws the id from its counter and answers 201. An update body naming `_id` (which MongoDB refuses) is not modelled either.
- The browser's own expiry of cookies by `maxAge`: the jar keeps every cookie set, and a request carries the jar's value. After logout that value is "", which the handlers treat as no token.
- `timestamps: true` on hospitals, and the insertion order in which `find()` lists documents: the listing is the table keyed by id.
- The four reset and verification fields of a user are carried but never written: no handler sets them.
- Concurrency: requests are handled one at a time, so two signups racing on the unique index are not modelled. `SaveUser` still enforces that index.
- Navbar: `useState`/`useEffect`, the `fetch` calls to /api/users/me and /api/users/logout, `router.push` and the JSX. The model takes the user that /api/users/me returned as a parameter. `toUpperCase` covers ASCII letters only.
- Navbar.GetInitials: a Dafny `char` is a whole code point, whereas `word[0]` and `.slice(0, 2)` count UTF-16 code units. For a name that starts with a character outside the Basic Multilingual Plane, JavaScript yields a lone surrogate (and may keep only half of such an initial), while the model yields the whole character.
- UI pages (app/page.tsx, app/hospitalList, components/hospitalCard.tsx, the auth forms) and commented-out code are not part of this model.

## Findings

| source | as written | input that shows it | evidently intended | confidence | as-written member | corrected member |
|---|---|---|---|---|---|---|
| app/api/hospitals/all/route.ts:22-51 | PUT looks the record up by `params.id`, but the route path has no `[id]` segment, so the id is undefined and `findById(undefined)` matches nothing | PUT /api/hospitals/all while some hospital exists: 404, nothing updated | look the record up by the id in the path, as app/api/hospitals/[id]/route.ts does | not executed; medium (a framework version that passes no `params` object would throw instead and answer 500, still reaching no record) | `Scenarios.UpdateThroughAllRoute` | `Scenarios.UpdateThroughIdRoute` |
| app/api/hospitals/all/route.ts:54-80 | DELETE has the same undefined `params.id` | DELETE /api/hospitals/all while some hospital exists: 404, nothing deleted | delete the record the path names, as app/api/hospitals/[id]/route.ts does | not executed; medium (as above) | `Scenarios.DeleteThroughAllRoute` | `Scenarios.DeleteThroughIdRoute` |
