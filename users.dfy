/** The profile handlers: reading a user and updating one's profile. */
module Users {
  import opened Base
  import opened Errors
  import opened Schema
  import Text
  import opened Store
  import opened UserModel
  import opened Validate
  import opened Roles
  import Projects

  /** `getUser`: the user with that id, 404 when there is none. */
  function GetUserOutcome(users: Collection<User>, id: Key): (r: Result<Doc<User>, AppError>)
    ensures id.Malformed? ==> r == Err(CastFailure)
    ensures r.Ok? <==> id.Oid? && Contains(users, id.id)
    ensures r.Ok? ==> Denotes(r.value.id, id) && r.value in users
    ensures id.Oid? && r.Err? ==> r.error == Projects.UserMissing
  {
    match FindById(users, id)
    case CastError => Err(CastFailure)
    case Miss => Err(Projects.UserMissing)
    case Hit(doc) => Ok(doc)
  }

  /** The keys `updateUser` deletes before updating: `email`, `passwordHash`, `_id` and
      `createdAt`. The schema's password path is `password`, which is not among them. */
  function Unprotected(b: UserInput): (r: UserInput)
    ensures r.email.None? && r.passwordHash.None? && r.id.None? && r.createdAt.None?
    ensures r.(email := b.email, passwordHash := b.passwordHash, id := b.id, createdAt := b.createdAt) == b
  {
    b.(email := None, passwordHash := None, id := None, createdAt := None)
  }

  /** The update validators of the User schema on the supplied paths, in schema order. `name`
      is trimmed first; `skills`, a string here, is cast to a one-element array whose element
      is required. Unknown keys such as `passwordHash` have no path and are ignored. */
  function ProfileErrors(b: UserInput): seq<ValidatorError> {
    OptString("name", if b.name.Some? then Some(Text.Trim(b.name.value)) else None, Some(100))
    + OptString("email", b.email, None)
    + OptString("password", b.password, None)
    + OptEnum("role", b.role, UserModel.Roles)
    + OptString("skills", b.skills, None)
    + OptMaxLength("bio", b.bio, 1000)
    + OptRange("experience", b.experience, 0.0, 50.0)
    + OptMaxLength("location", b.location, 100)
    + OptMaxLength("portfolio", b.portfolio, 500)
  }

  /** `$set` of the supplied paths: every supplied field replaces the stored one. */
  function Patched(u: User, b: UserInput): User {
    User(
      if b.name.Some? then Text.Trim(b.name.value) else u.name,
      if b.email.Some? then b.email.value else u.email,
      if b.password.Some? then b.password.value else u.password,
      if b.role.Some? then b.role.value else u.role,
      if b.avatar.Some? then b.avatar else u.avatar,
      if b.skills.Some? then b.skills.value else u.skills,
      if b.bio.Some? then b.bio else u.bio,
      if b.experience.Some? then b.experience.value else u.experience,
      if b.location.Some? then b.location else u.location,
      if b.portfolio.Some? then b.portfolio else u.portfolio)
  }

  /** `findByIdAndUpdate(id, body, { runValidators: true })`: the id must cast, the supplied
      paths must pass their validators, and the user must exist. */
  function ApplyProfile(users: Collection<User>, id: Key, b: UserInput): (r: Result<Doc<User>, AppError>)
    ensures id.Malformed? ==> r == Err(CastFailure)
    ensures id.Oid? && ProfileErrors(b) != [] ==> r.Err? && r.error.kind == MongooseValidation(ProfileErrors(b))
    ensures r.Ok? <==> id.Oid? && ProfileErrors(b) == [] && Contains(users, id.id)
    ensures id.Oid? && ProfileErrors(b) == [] && !Contains(users, id.id) ==> r == Err(Projects.UserMissing)
    ensures r.Ok? ==> var stored := Lookup(users, id.id).value;
      r.value == Doc(stored.id, stored.createdAt, Patched(stored.fields, b))
  {
    if id.Malformed? then Err(CastFailure)
    else
      var errors := ProfileErrors(b);
      if errors != [] then Err(AppError(MongooseValidation(errors), "Validation failed", None, None, NoDetails))
      else
        match Lookup(users, id.id)
        case None => Err(Projects.UserMissing)
        case Some(doc) => Ok(Doc(doc.id, doc.createdAt, Patched(doc.fields, b)))
  }

  /** `updateUser`: the protected keys are deleted from the body, then the rest is applied. */
  function UpdateUserOutcome(users: Collection<User>, id: Key, b: UserInput): (r: Result<Doc<User>, AppError>) {
    ApplyProfile(users, id, Unprotected(b))
  }

  /** An update never changes the id, the creation stamp or the email; every other supplied
      field overwrites the stored one, and an unknown id fails with 404. */
  lemma UpdateKeepsIdentity(users: Collection<User>, id: Key, b: UserInput)
    ensures var r := UpdateUserOutcome(users, id, b);
      && (id.Oid? && ProfileErrors(Unprotected(b)) == [] && !Contains(users, id.id) ==> r == Err(Projects.UserMissing))
      && (r.Ok? ==>
            var stored := Lookup(users, id.id).value;
            && r.value.id == stored.id && Denotes(r.value.id, id) && r.value.createdAt == stored.createdAt
            && r.value.fields.email == stored.fields.email
            && (b.role.Some? ==> r.value.fields.role == b.role.value)
            && (b.role.None? ==> r.value.fields.role == stored.fields.role)
            && (b.name.Some? ==> r.value.fields.name == Text.Trim(b.name.value))
            && (b.experience.Some? ==> r.value.fields.experience == b.experience.value)
            && (b.bio.Some? ==> r.value.fields.bio == b.bio)
            && (b.password.None? ==> r.value.fields.password == stored.fields.password))
  {
  }

  /** The handler's deletions miss the schema's password path: a body that reaches the
      handler with a `password` sets it. Parsing with the update schema drops that key first,
      so through the route the password never changes. */
  lemma PasswordOnlyGuardedBySchema(users: Collection<User>, id: Key, b: UserInput)
    requires b.password.Some?
    ensures UpdateUserOutcome(users, id, b).Ok? ==> UpdateUserOutcome(users, id, b).value.fields.password == b.password.value
    ensures UpdateUserOutcome(users, id, StripUser(b)).Ok? ==>
      UpdateUserOutcome(users, id, StripUser(b)).value.fields.password == Lookup(users, id.id).value.fields.password
  {
  }

  /** `role` is neither stripped nor guarded: any user may promote their own account to
      admin. The self-or-admin guard lets the request through, the update schema accepts the
      body, and the stored role becomes `admin`. */
  lemma SelfPromotionToAdmin(users: Collection<User>, me: Doc<User>)
    requires me in users
    ensures var b := UserInput(None, None, None, None, None, Some(Admin), None, None, None, None, None, None, None);
      && RequireSelfOrAdmin(Some(me), Oid(me.id, true)) == Allow
      && UserUpdateOk(b)
      && UpdateUserOutcome(users, Oid(me.id, true), StripUser(b)).Ok?
      && UpdateUserOutcome(users, Oid(me.id, true), StripUser(b)).value.fields.role == Admin
  {
    assert Contains(users, me.id);
  }

  method UpdateUser(db: Db, id: Key, b: UserInput) returns (r: Result<Doc<User>, AppError>)
    requires db.Valid()
    modifies db
    ensures db.Valid()
    ensures r == UpdateUserOutcome(old(db.users), id, b)
    ensures db.users == (if r.Ok? then Update(old(db.users), r.value.id, r.value.fields) else old(db.users))
    ensures db.projects == old(db.projects) && db.applications == old(db.applications) && db.clock == old(db.clock)
  {
    var updateData := b;
    updateData := updateData.(email := None);
    updateData := updateData.(passwordHash := None);
    updateData := updateData.(id := None);
    updateData := updateData.(createdAt := None);
    r := ApplyProfile(db.users, id, updateData);
    if r.Ok? {
      db.SaveUser(r.value.id, r.value.fields);
    }
  }
}
