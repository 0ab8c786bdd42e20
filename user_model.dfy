/**
 * The Mongoose `User` model: the schema's constraints as predicates over a stored
 * record, the in-memory document that `new User({...})` builds, and the `pre("save")`
 * hook that hashes a modified password in place.
 */
module UserModel {
  import opened Wrappers
  import opened Passwords

  /** A document's `_id`. */
  type UserId = nat

  /** The values the `role` enum admits. */
  datatype Role = Doctor | Patient

  function RoleName(role: Role): string
  {
    match role
    case Doctor => "doctor"
    case Patient => "patient"
  }

  /** The enum validator on `role`: only "doctor" and "patient" are admitted. */
  function ParseRole(s: string): (r: Option<Role>)
    ensures r.Some? <==> s == "doctor" || s == "patient"
    ensures r.Some? ==> RoleName(r.value) == s
  {
    if s == "doctor" then Some(Doctor)
    else if s == "patient" then Some(Patient)
    else None
  }

  lemma {:induction false} ParseRoleName(role: Role)
    ensures ParseRole(RoleName(role)) == Some(role)
  {
    match role
    case Doctor =>
    case Patient =>
  }

  /** The schema default: a document built without a role gets "patient". */
  function RoleOrDefault(role: Option<string>): (r: string)
    ensures role.None? ==> ParseRole(r) == Some(Patient)
    ensures role.Some? ==> r == role.value
  {
    if role.Some? then role.value else "patient"
  }

  /** A stored user record. The four reset and verification fields are optional. */
  datatype User = User(
    name: string,
    email: string,
    password: Secret,
    role: Role,
    forgotPasswordToken: Option<string>,
    forgotPasswordExpiry: Option<int>,
    verifyToken: Option<string>,
    verifyTokenExpiry: Option<int>)

  /** What the login and "me" handlers return about a user: id, name, email and role. */
  datatype PublicUser = PublicUser(id: UserId, name: string, email: string, role: Role)

  function Project(id: UserId, user: User): PublicUser
  {
    PublicUser(id, user.name, user.email, user.role)
  }

  /** The projection is blind to the password: two records that differ only there project alike. */
  lemma ProjectionHidesPassword(id: UserId, user: User, other: Secret)
    ensures Project(id, user) == Project(id, user.(password := other))
  {
  }

  /** The unique index on `email`. */
  ghost predicate UniqueEmails(users: map<UserId, User>)
  {
    forall a, b :: a in users && b in users && users[a].email == users[b].email ==> a == b
  }

  /** No user other than `id` holds `email`: inserting or updating `id` with it keeps the index. */
  ghost predicate EmailFreeFor(users: map<UserId, User>, email: string, id: UserId)
  {
    forall other :: other in users && other != id ==> users[other].email != email
  }

  lemma {:induction false} InsertKeepsUniqueEmails(users: map<UserId, User>, id: UserId, user: User)
    requires UniqueEmails(users) && EmailFreeFor(users, user.email, id)
    ensures UniqueEmails(users[id := user])
  {
    var updated := users[id := user];
    forall a, b | a in updated && b in updated && updated[a].email == updated[b].email
      ensures a == b
    {
      if a != id && b != id {
        assert users[a].email == users[b].email;
      }
    }
  }

  /** Mongoose's `required` check on a string path: undefined and "" both fail. */
  predicate BlankPassword(password: Secret)
  {
    password == Plain("")
  }

  /**
   * A `User` document in memory: what `new User({...})` builds, with Mongoose's record
   * of whether `password` was modified since the last save and whether the document
   * has been inserted yet.
   */
  class UserDocument {
    const id: UserId
    var name: string
    var email: string
    var password: Secret
    var role: string
    var forgotPasswordToken: Option<string>
    var forgotPasswordExpiry: Option<int>
    var verifyToken: Option<string>
    var verifyTokenExpiry: Option<int>
    var passwordModified: bool
    var isNew: bool

    /** A password that was not changed since the last save is the digest that save stored. */
    ghost predicate Valid()
      reads this
    {
      !passwordModified ==> password.Digest?
    }

    /** `new User({ name, email, password, role })`: every given path counts as modified. */
    constructor (id: UserId, name: string, email: string, password: string, role: Option<string>)
      ensures Valid()
      ensures this.id == id && this.name == name && this.email == email
      ensures this.password == Plain(password) && this.role == RoleOrDefault(role)
      ensures forgotPasswordToken.None? && forgotPasswordExpiry.None?
      ensures verifyToken.None? && verifyTokenExpiry.None?
      ensures passwordModified && isNew
    {
      this.id := id;
      this.name := name;
      this.email := email;
      this.password := Plain(password);
      this.role := RoleOrDefault(role);
      forgotPasswordToken, forgotPasswordExpiry := None, None;
      verifyToken, verifyTokenExpiry := None, None;
      passwordModified, isNew := true, true;
    }

    /** The schema validators: the role enum and the required password. On success, the
        record the document would store as it stands now. */
    function Validated(): (r: Option<User>)
      reads this
      ensures r.Some? <==> ParseRole(role).Some? && !BlankPassword(password)
      ensures r.Some? ==> r.value.name == name && r.value.email == email && r.value.password == password
      ensures r.Some? ==> RoleName(r.value.role) == role
    {
      var parsed := ParseRole(role);
      if parsed.None? || BlankPassword(password) then None
      else Some(User(name, email, password, parsed.value,
                     forgotPasswordToken, forgotPasswordExpiry, verifyToken, verifyTokenExpiry))
    }

    /** The `pre("save")` hook: a modified password is replaced by its digest under a fresh
        salt; an unmodified one is left as it is, so it is never hashed twice. Only the
        password path is written. */
    method HashPasswordHook(salt: Salt)
      requires Valid()
      modifies this`password
      ensures Valid()
      ensures old(passwordModified) ==> password == Hash(salt, old(password))
      ensures !old(passwordModified) ==> password == old(password)
      ensures password.Digest?
    {
      if !passwordModified {
        return;
      }
      password := Hash(salt, password);
    }
  }
}
