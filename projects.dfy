/** The project handlers: reading one project, creating, updating and deleting projects, and
    the team-membership operations that move a member in or out and keep the seat counter. */
module Projects {
  import opened Base
  import opened Errors
  import opened Schema
  import Text
  import opened Store
  import opened UserModel
  import opened ProjectModel
  import opened Validate
  import ApplicationModel

  type Caller = Option<Doc<User>>

  const ProjectMissing := Fail(404, ProjectNotFound, "Проект не найден")
  const UserMissing := Fail(404, UserNotFound, "Пользователь не найден")
  const AlreadyMember := Fail(409, UserAlreadyMember, "Пользователь уже является участником проекта")
  const TeamFull := Fail(400, TeamSizeExceeded, "Команда уже достигла максимального размера")
  const NotMember := Fail(404, UserNotMember, "Пользователь не является участником команды")
  const OwnerStays := Fail(400, CannotRemoveOwner, "Нельзя удалить владельца проекта")
  const Unauthenticated := Fail(401, AuthenticationRequired, "Требуется аутентификация")

  /** The seat counter agrees with the member list and the owner holds a seat. */
  predicate TeamConsistent(p: Project) {
    p.currentTeam == |p.teamMembers| && p.ownerId in p.teamMembers
  }

  /** Occupied seats not accounted for by the member list. */
  function Unlisted(p: Project): int {
    p.currentTeam - |p.teamMembers|
  }

  /** Casting applies the schema's `trim` to the name. */
  function TrimName(b: ProjectInput): ProjectInput {
    b.(name := if b.name.Some? then Some(Text.Trim(b.name.value)) else None)
  }

  /** The editable fields present in `b` overwrite those of `p`; the seat counter, the member
      list and the owner are never taken from a body. */
  function Merge(p: Project, b: ProjectInput): Project {
    p.(name := b.name.GetOr(p.name),
       description := b.description.GetOr(p.description),
       status := b.status.GetOr(p.status),
       lookingFor := b.lookingFor.GetOr(p.lookingFor),
       category := b.category.GetOr(p.category),
       tech := b.tech.GetOr(p.tech),
       neededRoles := b.neededRoles.GetOr(p.neededRoles),
       teamSize := b.teamSize.GetOr(p.teamSize),
       budget := b.budget.GetOr(p.budget),
       timeline := b.timeline.GetOr(p.timeline),
       complexity := b.complexity.GetOr(p.complexity),
       image := b.image.GetOr(p.image),
       features := b.features.GetOr(p.features),
       requirements := b.requirements.GetOr(p.requirements))
  }

  /** A new document before the body is applied: schema defaults (status, arrays), the
      creator as owner and sole member, one occupied seat. Missing strings are empty, which
      the `required` validators refuse. */
  function Blank(owner: Id): Project {
    Project("", "", DefaultStatus, "", "", [], [], 0.0, 1, "", "", "", "", [], [], owner, [owner])
  }

  /** `{...body, ownerId: caller, currentTeam: 1, teamMembers: [caller]}` as cast by the model. */
  function Assemble(b: ProjectInput, owner: Id): Project {
    Merge(Blank(owner), TrimName(b))
  }

  /** `createProject`: a caller is required; the new project belongs to the caller, who holds
      its one occupied seat, whatever the body says about owner, seats or members; it is
      stored exactly when `save()` accepts it. */
  function CreateProjectOutcome(caller: Caller, b: ProjectInput, clock: nat): (r: Result<Doc<Project>, AppError>)
    ensures caller.None? ==> r == Err(Unauthenticated)
    ensures caller.Some? ==> (r.Ok? <==> CreateCheck(Assemble(b, caller.value.id), b.teamSize).None?)
    ensures r.Ok? ==>
      && r.value.id == clock && r.value.createdAt == clock
      && r.value.fields.ownerId == caller.value.id
      && r.value.fields.teamMembers == [caller.value.id]
      && r.value.fields.currentTeam == 1
      && TeamConsistent(r.value.fields)
      && WithinSchema(r.value.fields)
      && Some(r.value.fields.teamSize) == b.teamSize
  {
    if caller.None? then Err(Unauthenticated)
    else
      var data := Assemble(b, caller.value.id);
      var failure := CreateCheck(data, b.teamSize);
      if failure.Some? then Err(failure.value)
      else Ok(Doc(clock, clock, data.(teamSize := b.teamSize.value)))
  }

  /** A project assembled from a body lies within the schema only if the body sent every
      required string; its fields are then the body's, with the schema defaults for a
      missing status and missing arrays. */
  predicate FromBody(f: Project, b: ProjectInput) {
    && b.name.Some? && f.name == Text.Trim(b.name.value)
    && b.description.Some? && f.description == b.description.value
    && f.status == b.status.GetOr(DefaultStatus)
    && b.lookingFor.Some? && f.lookingFor == b.lookingFor.value
    && b.category.Some? && f.category == b.category.value
    && f.tech == b.tech.GetOr([]) && f.neededRoles == b.neededRoles.GetOr([])
    && b.budget.Some? && f.budget == b.budget.value
    && b.timeline.Some? && f.timeline == b.timeline.value
    && b.complexity.Some? && f.complexity == b.complexity.value
    && b.image.Some? && f.image == b.image.value
    && f.features == b.features.GetOr([]) && f.requirements == b.requirements.GetOr([])
  }

  lemma AssembledFromBody(b: ProjectInput, owner: Id, teamSize: Number)
    requires WithinSchema(Assemble(b, owner).(teamSize := teamSize))
    ensures FromBody(Assemble(b, owner), b)
  {
    assert "" !in Complexities;
  }

  /** Every stored field other than the owner, the seats and the members is the body's: the
      required strings must have been sent (the name trimmed), a missing status is the schema
      default, and missing arrays are empty. */
  lemma CreatedFieldsComeFromBody(caller: Caller, b: ProjectInput, clock: nat)
    requires CreateProjectOutcome(caller, b, clock).Ok?
    ensures FromBody(CreateProjectOutcome(caller, b, clock).value.fields, b)
  {
    AssembledFromBody(b, caller.value.id, b.teamSize.value);
  }

  /** A project created without a status is looking for a team. */
  lemma CreatedProjectSeeksTeam(caller: Caller, b: ProjectInput, clock: nat)
    requires b.status.None? && CreateProjectOutcome(caller, b, clock).Ok?
    ensures CreateProjectOutcome(caller, b, clock).value.fields.status == "в поиске команды"
  {
    CreatedFieldsComeFromBody(caller, b, clock);
  }

  /** The fields a client may not set have no effect on creation. */
  lemma CreateIgnoresProtectedFields(caller: Caller, b: ProjectInput, clock: nat)
    ensures CreateProjectOutcome(caller, b, clock) == CreateProjectOutcome(caller, StripProject(b), clock)
  {
  }

  /** A body the creation schema accepts becomes a project as long as it also meets what the
      model demands beyond the request schema: a name that is not blank once trimmed and
      array entries that are not empty. */
  lemma AcceptedBodyIsCreated(caller: Caller, b: ProjectInput, clock: nat, isUrl: string -> bool)
    requires caller.Some?
    requires ProjectCreateOk(b, isUrl) && !isUrl("")
    requires Text.Trim(b.name.value) != ""
    requires ElementsPresent(b.tech.value, None) && ElementsPresent(b.neededRoles.value, None)
    requires ElementsPresent(b.features.value, Some(200)) && ElementsPresent(b.requirements.value, Some(200))
    ensures CreateProjectOutcome(caller, b, clock).Ok?
  {
    var data := Assemble(b, caller.value.id).(teamSize := b.teamSize.value);
    Text.TrimUtf16Length(b.name.value);
    assert WithinSchema(data);
  }

  method CreateProject(db: Db, caller: Caller, b: ProjectInput) returns (r: Result<Doc<Project>, AppError>)
    requires db.Valid()
    modifies db
    ensures db.Valid()
    ensures r == CreateProjectOutcome(caller, b, old(db.clock))
    ensures db.projects == (if r.Ok? then old(db.projects) + [r.value] else old(db.projects))
    ensures db.clock == (if r.Ok? then old(db.clock) + 1 else old(db.clock))
    ensures db.users == old(db.users) && db.applications == old(db.applications)
  {
    if caller.None? {
      return Err(Unauthenticated);
    }
    var data := Assemble(b, caller.value.id);
    var failure := CreateCheck(data, b.teamSize);
    if failure.Some? {
      return Err(failure.value);
    }
    var doc := db.InsertProject(data.(teamSize := b.teamSize.value));
    r := Ok(doc);
  }

  /** `getProject`: the project with that id, 404 when there is none. */
  function GetProjectOutcome(projects: Collection<Project>, id: Key): (r: Result<Doc<Project>, AppError>)
    ensures id.Malformed? ==> r == Err(CastFailure)
    ensures r.Ok? <==> FindById(projects, id).Hit?
    ensures r.Ok? ==> Denotes(r.value.id, id) && r.value in projects
    ensures id.Oid? && r.Err? ==> r.error == ProjectMissing
  {
    match FindById(projects, id)
    case CastError => Err(CastFailure)
    case Miss => Err(ProjectMissing)
    case Hit(doc) => Ok(doc)
  }

  /** The update validators: each supplied path is checked by its own validators, in schema
      order; paths that are not supplied are not checked. */
  function PatchErrors(b: ProjectInput): seq<ValidatorError> {
    OptString("name", b.name, Some(200))
    + OptString("description", b.description, Some(2000))
    + OptEnum("status", b.status, Statuses)
    + OptString("lookingFor", b.lookingFor, Some(500))
    + OptString("category", b.category, None)
    + OptElements("tech", b.tech, None)
    + OptElements("neededRoles", b.neededRoles, None)
    + OptRange("teamSize", b.teamSize, MinTeamSize, MaxTeamSize)
    + OptString("budget", b.budget, Some(100))
    + OptString("timeline", b.timeline, Some(100))
    + OptEnum("complexity", b.complexity, Complexities)
    + OptString("image", b.image, Some(500))
    + OptElements("features", b.features, Some(200))
    + OptElements("requirements", b.requirements, Some(200))
  }

  /** The update validators pass exactly when each supplied path passes its own. */
  lemma PatchErrorsByPath(b: ProjectInput)
    ensures PatchErrors(b) == [] <==>
        && OptString("name", b.name, Some(200)) == []
        && OptString("description", b.description, Some(2000)) == []
        && OptEnum("status", b.status, Statuses) == []
        && OptString("lookingFor", b.lookingFor, Some(500)) == []
        && OptString("category", b.category, None) == []
        && OptElements("tech", b.tech, None) == []
        && OptElements("neededRoles", b.neededRoles, None) == []
        && OptRange("teamSize", b.teamSize, MinTeamSize, MaxTeamSize) == []
        && OptString("budget", b.budget, Some(100)) == []
        && OptString("timeline", b.timeline, Some(100)) == []
        && OptEnum("complexity", b.complexity, Complexities) == []
        && OptString("image", b.image, Some(500)) == []
        && OptElements("features", b.features, Some(200)) == []
        && OptElements("requirements", b.requirements, Some(200)) == []
  {
  }

  /** On a project within the schema, the update validators pass exactly when the updated
      project is still within the schema. */
  lemma PatchValidatorsDecide(p: Project, b: ProjectInput)
    requires WithinSchema(p)
    ensures PatchErrors(b) == [] <==> WithinSchema(Merge(p, b))
  {
    assert "" !in Statuses && "" !in Complexities;
    PatchErrorsByPath(b);
  }

  /** `updateProject`: the keys a client may not set are deleted from the body, the id is
      cast, the supplied paths are validated (the pre-save hook does not run), and then the
      project is looked up. The result keeps the project's id, stamp, owner, seat counter
      and members; every other supplied field overwrites the stored one. */
  function UpdateProjectOutcome(projects: Collection<Project>, id: Key, b: ProjectInput): (r: Result<Doc<Project>, AppError>)
    requires Ordered(projects)
    ensures id.Malformed? ==> r == Err(CastFailure)
    ensures id.Oid? && PatchErrors(TrimName(b)) != [] ==> r == Err(Invalid(PatchErrors(TrimName(b))))
    ensures id.Oid? && PatchErrors(TrimName(b)) == [] && !Contains(projects, id.id) ==> r == Err(ProjectMissing)
    ensures r.Ok? <==> id.Oid? && PatchErrors(TrimName(b)) == [] && Contains(projects, id.id)
    ensures r.Ok? ==>
      var stored := FindById(projects, id).doc;
      && r.value.id == stored.id && r.value.createdAt == stored.createdAt
      && r.value.fields.ownerId == stored.fields.ownerId
      && r.value.fields.currentTeam == stored.fields.currentTeam
      && r.value.fields.teamMembers == stored.fields.teamMembers
      && r.value.fields == Merge(stored.fields, TrimName(b))
  {
    var patch := TrimName(StripProject(b));
    assert patch == TrimName(b).(id := None, ownerId := None, createdAt := None, currentTeam := None, teamMembers := None);
    match id
    case Malformed(_) => Err(CastFailure)
    case Oid(k, _) =>
      var errors := PatchErrors(patch);
      if errors != [] then Err(Invalid(errors))
      else
        match Lookup(projects, k)
        case None => Err(ProjectMissing)
        case Some(doc) => Ok(Doc(doc.id, doc.createdAt, Merge(doc.fields, patch)))
  }

  /** The keys a client may not set have no effect on an update. */
  lemma UpdateIgnoresProtectedFields(projects: Collection<Project>, id: Key, b: ProjectInput)
    requires Ordered(projects)
    ensures UpdateProjectOutcome(projects, id, b) == UpdateProjectOutcome(projects, id, StripProject(b))
  {
  }

  /** Updates keep stored projects within the schema. */
  lemma UpdateKeepsSchema(projects: Collection<Project>, id: Key, b: ProjectInput)
    requires Ordered(projects)
    requires forall i :: 0 <= i < |projects| ==> WithinSchema(projects[i].fields)
    ensures UpdateProjectOutcome(projects, id, b).Ok? ==>
      WithinSchema(UpdateProjectOutcome(projects, id, b).value.fields)
  {
    var r := UpdateProjectOutcome(projects, id, b);
    if r.Ok? {
      PatchValidatorsDecide(FindById(projects, id).doc.fields, TrimName(b));
    }
  }

  method UpdateProject(db: Db, id: Key, b: ProjectInput) returns (r: Result<Doc<Project>, AppError>)
    requires db.Valid()
    modifies db
    ensures db.Valid()
    ensures r == UpdateProjectOutcome(old(db.projects), id, b)
    ensures db.projects == (if r.Ok? then Update(old(db.projects), r.value.id, r.value.fields) else old(db.projects))
    ensures db.users == old(db.users) && db.applications == old(db.applications) && db.clock == old(db.clock)
  {
    var patch := b;
    patch := patch.(id := None);
    patch := patch.(ownerId := None);
    patch := patch.(createdAt := None);
    patch := patch.(currentTeam := None);
    patch := patch.(teamMembers := None);
    UpdateIgnoresProtectedFields(db.projects, id, b);
    r := UpdateProjectOutcome(db.projects, id, patch);
    if r.Ok? {
      UpdateKeepsSchema(db.projects, id, patch);
      db.SaveProject(r.value.id, r.value.fields);
    }
  }

  /** `deleteProject`: 204 (here `None`) when the project existed, 404 otherwise. */
  function DeleteProjectOutcome(projects: Collection<Project>, id: Key): (r: Option<AppError>)
    ensures r.None? <==> id.Oid? && Contains(projects, id.id)
    ensures id.Malformed? ==> r == Some(CastFailure)
    ensures id.Oid? && r.Some? ==> r == Some(ProjectMissing)
  {
    match FindById(projects, id)
    case CastError => Some(CastFailure)
    case Miss => Some(ProjectMissing)
    case Hit(_) => None
  }

  method DeleteProject(db: Db, id: Key) returns (r: Option<AppError>)
    requires db.Valid()
    modifies db
    ensures db.Valid()
    ensures r == DeleteProjectOutcome(old(db.projects), id)
    ensures db.projects == (if r.None? then Delete(old(db.projects), id.id) else old(db.projects))
    ensures db.users == old(db.users) && db.applications == old(db.applications) && db.clock == old(db.clock)
  {
    r := DeleteProjectOutcome(db.projects, id);
    if r.None? {
      db.RemoveProject(id.id);
    }
  }

  /** `members.includes(raw)`: an entry equals the request string only when the string is
      the id's own text, so another spelling of a member's id is not found. */
  predicate Includes(members: seq<Id>, k: Key) {
    k.Oid? && k.canonical && k.id in members
  }

  /** The project after `teamMembers.push(uid)` and `currentTeam += 1`. */
  function Joined(p: Project, uid: Id): Project {
    p.(teamMembers := p.teamMembers + [uid], currentTeam := p.currentTeam + 1)
  }

  /** The part of `addTeamMember` after the user and the project are loaded: membership is
      checked before the free seat, and the saved project is the loaded one with the user
      appended and one more seat taken. */
  function Admit(doc: Doc<Project>, uid: Key): (r: Result<Doc<Project>, AppError>)
    requires uid.Oid?
    ensures Includes(doc.fields.teamMembers, uid) ==> r == Err(AlreadyMember)
    ensures !Includes(doc.fields.teamMembers, uid) && doc.fields.currentTeam as real >= doc.fields.teamSize ==>
      r == Err(TeamFull)
    ensures r.Ok? <==>
      !Includes(doc.fields.teamMembers, uid) && doc.fields.currentTeam as real < doc.fields.teamSize
      && SaveCheck(Joined(doc.fields, uid.id)).None?
    ensures r.Ok? ==> r.value == Doc(doc.id, doc.createdAt, Joined(doc.fields, uid.id))
  {
    var p := doc.fields;
    if Includes(p.teamMembers, uid) then Err(AlreadyMember)
    else if p.currentTeam as real >= p.teamSize then Err(TeamFull)
    else
      var next := Joined(p, uid.id);
      match SaveCheck(next)
      case Some(e) => Err(e)
      case None => Ok(Doc(doc.id, doc.createdAt, next))
  }

  /** `addTeamMember`: the user must exist, then the project, then the user must not be a
      member yet, then a seat must be free; the user is appended, one more seat is taken and
      the project is saved. Any refusal leaves the project as it was. */
  function AddTeamMemberOutcome(users: Collection<User>, projects: Collection<Project>, id: Key, b: TeamMemberInput)
    : (r: Result<Doc<Project>, AppError>)
    ensures b.userId.None? ==> r == Err(UserMissing)
    ensures b.userId.Some? && b.userId.value.Malformed? ==> r == Err(CastFailure)
    ensures b.userId.Some? && FindById(users, b.userId.value).Miss? ==> r == Err(UserMissing)
    ensures b.userId.Some? && FindById(users, b.userId.value).Hit? && id.Malformed? ==> r == Err(CastFailure)
    ensures b.userId.Some? && FindById(users, b.userId.value).Hit? && FindById(projects, id).Miss? ==>
      r == Err(ProjectMissing)
    ensures r.Ok? ==> b.userId.Some? && FindById(users, b.userId.value).Hit? && FindById(projects, id).Hit?
    ensures b.userId.Some? && FindById(users, b.userId.value).Hit? && FindById(projects, id).Hit? ==>
      r == Admit(FindById(projects, id).doc, b.userId.value)
  {
    if b.userId.None? then Err(UserMissing)
    else
      match FindById(users, b.userId.value)
      case CastError => Err(CastFailure)
      case Miss => Err(UserMissing)
      case Hit(user) =>
        match FindById(projects, id)
        case CastError => Err(CastFailure)
        case Miss => Err(ProjectMissing)
        case Hit(doc) => Admit(doc, b.userId.value)
  }

  /** A successful admission appends exactly the new member, takes exactly one more seat, and
      changes nothing else: the unlisted seats, the capacity bound and the agreement between
      seats and members are all preserved. */
  lemma AdmitKeepsTeamBalance(doc: Doc<Project>, uid: Key)
    requires uid.Oid? && Admit(doc, uid).Ok?
    ensures var before := doc.fields;
      var after := Admit(doc, uid).value.fields;
      && after.teamMembers == before.teamMembers + [uid.id]
      && (uid.canonical ==> uid.id !in before.teamMembers)
      && after.currentTeam == before.currentTeam + 1
      && after.currentTeam as real <= after.teamSize
      && Unlisted(after) == Unlisted(before)
      && (TeamConsistent(before) ==> TeamConsistent(after))
      && after == before.(teamMembers := after.teamMembers, currentTeam := after.currentTeam)
  {
    var after := Admit(doc, uid).value.fields;
    assert after == Joined(doc.fields, uid.id);
  }

  /** A project within the schema always admits a new member while a whole seat is free. */
  lemma AdmitSucceedsWhenSeatFree(doc: Doc<Project>, uid: Key)
    requires WithinSchema(doc.fields)
    requires uid.Oid? && !Includes(doc.fields.teamMembers, uid)
    requires doc.fields.currentTeam as real + 1.0 <= doc.fields.teamSize
    ensures Admit(doc, uid).Ok?
  {
    var next := Joined(doc.fields, uid.id);
    assert WithinSchema(next);
  }

  /** A fractional capacity passes the schema (`min(1)` and `max(50)` admit 1.5), but the
      last part-seat is not a seat: the seat check lets the user through, the pre-save hook
      then refuses the project, and the client receives 500 INTERNAL_SERVER_ERROR. */
  lemma FractionalSeatEndsInHook(doc: Doc<Project>, uid: Key)
    requires WithinSchema(doc.fields)
    requires uid.Oid? && !Includes(doc.fields.teamMembers, uid)
    requires doc.fields.currentTeam as real < doc.fields.teamSize < doc.fields.currentTeam as real + 1.0
    ensures Admit(doc, uid) == Err(AppError(Plain, CapacityMessage, None, None, NoDetails))
    ensures ErrorHandler(Admit(doc, uid).error) == Reply(500, CapacityMessage, InternalServerError, NoDetails)
  {
    var next := Joined(doc.fields, uid.id);
    assert WithinSchema(next);
    SaveRefusalReply(next);
  }

  /** `includes` compares text while `push` casts: a member's id spelled otherwise (upper-case
      hexadecimal digits) is not found among the members, so it is appended a second time and
      takes a second seat. */
  lemma RespelledMemberIsAddedAgain(doc: Doc<Project>, id: Id)
    requires WithinSchema(doc.fields) && id in doc.fields.teamMembers
    requires doc.fields.currentTeam as real + 1.0 <= doc.fields.teamSize
    ensures Admit(doc, Oid(id, false)).Ok?
    ensures var after := Admit(doc, Oid(id, false)).value.fields.teamMembers;
      multiset(after)[id] == multiset(doc.fields.teamMembers)[id] + 1 >= 2
  {
    AdmitSucceedsWhenSeatFree(doc, Oid(id, false));
    AdmitKeepsTeamBalance(doc, Oid(id, false));
    AppendedCount(doc.fields.teamMembers, id);
  }

  lemma AppendedCount(xs: seq<Id>, x: Id)
    requires x in xs
    ensures multiset(xs + [x])[x] == multiset(xs)[x] + 1 >= 2
  {
    assert multiset(xs + [x]) == multiset(xs) + multiset{x};
  }

  /** The loaded project takes the user: membership is checked before the free seat, then
      the user is appended, one more seat is taken and the project is saved. */
  method AdmitMember(db: Db, doc: Doc<Project>, uid: Key) returns (r: Result<Doc<Project>, AppError>)
    requires db.Valid() && uid.Oid?
    modifies db
    ensures db.Valid()
    ensures r == Admit(doc, uid)
    ensures db.projects == (if r.Ok? then Update(old(db.projects), doc.id, r.value.fields) else old(db.projects))
    ensures db.users == old(db.users) && db.applications == old(db.applications) && db.clock == old(db.clock)
  {
    var project := doc.fields;
    if Includes(project.teamMembers, uid) {
      return Err(AlreadyMember);
    }
    if project.currentTeam as real >= project.teamSize {
      return Err(TeamFull);
    }
    project := project.(teamMembers := project.teamMembers + [uid.id]);
    project := project.(currentTeam := project.currentTeam + 1);
    var failure := SaveCheck(project);
    if failure.Some? {
      return Err(failure.value);
    }
    db.SaveProject(doc.id, project);
    r := Ok(Doc(doc.id, doc.createdAt, project));
  }

  method AddTeamMember(db: Db, id: Key, b: TeamMemberInput) returns (r: Result<Doc<Project>, AppError>)
    requires db.Valid()
    modifies db
    ensures db.Valid()
    ensures r == AddTeamMemberOutcome(old(db.users), old(db.projects), id, b)
    ensures db.projects == (if r.Ok? then Update(old(db.projects), r.value.id, r.value.fields) else old(db.projects))
    ensures db.users == old(db.users) && db.applications == old(db.applications) && db.clock == old(db.clock)
  {
    if b.userId.None? {
      return Err(UserMissing);
    }
    var user := FindById(db.users, b.userId.value);
    if user.CastError? {
      return Err(CastFailure);
    } else if user.Miss? {
      return Err(UserMissing);
    }
    var found := FindById(db.projects, id);
    if found.CastError? {
      return Err(CastFailure);
    } else if found.Miss? {
      return Err(ProjectMissing);
    }
    r := AdmitMember(db, found.doc, b.userId.value);
  }

  /** `findIndex(m => m.toString() === raw)`: the first member whose id is the requested
      one, or -1. A malformed request id matches no member. */
  function MemberIndex(members: seq<Id>, k: Key): (r: int)
    ensures -1 <= r < |members|
    ensures r >= 0 <==> Includes(members, k)
    ensures r >= 0 ==> k.Oid? && members[r] == k.id && k.id !in members[..r]
  {
    if |members| == 0 then -1
    else if SameId(members[0], k) then 0
    else
      var rest := MemberIndex(members[1..], k);
      if rest == -1 then -1 else rest + 1
  }

  /** `splice(i, 1)`: the entries before `i` stay where they are, those after move down one. */
  function RemoveAt(xs: seq<Id>, i: nat): (r: seq<Id>)
    requires i < |xs|
    ensures |r| == |xs| - 1
    ensures forall j :: 0 <= j < i ==> r[j] == xs[j]
    ensures forall j :: i <= j < |r| ==> r[j] == xs[j + 1]
  {
    xs[..i] + xs[i + 1..]
  }

  /** The project after `teamMembers.splice(i, 1)` and `currentTeam -= 1`. */
  function Left(p: Project, i: nat): Project
    requires i < |p.teamMembers|
  {
    p.(teamMembers := RemoveAt(p.teamMembers, i), currentTeam := p.currentTeam - 1)
  }

  /** The part of `removeTeamMember` after the project is loaded: membership is checked
      before ownership, and the saved project is the loaded one without the first entry for
      that user and with one seat freed. */
  function Dismiss(doc: Doc<Project>, userId: Key): (r: Result<Doc<Project>, AppError>)
    ensures MemberIndex(doc.fields.teamMembers, userId) == -1 ==> r == Err(NotMember)
    ensures MemberIndex(doc.fields.teamMembers, userId) != -1 && SameId(doc.fields.ownerId, userId) ==>
      r == Err(OwnerStays)
    ensures r.Ok? <==>
      var i := MemberIndex(doc.fields.teamMembers, userId);
      i != -1 && !SameId(doc.fields.ownerId, userId) && SaveCheck(Left(doc.fields, i)).None?
    ensures r.Ok? ==> r.value == Doc(doc.id, doc.createdAt, Left(doc.fields, MemberIndex(doc.fields.teamMembers, userId)))
  {
    var p := doc.fields;
    var i := MemberIndex(p.teamMembers, userId);
    if i == -1 then Err(NotMember)
    else if SameId(p.ownerId, userId) then Err(OwnerStays)
    else
      var next := Left(p, i);
      match SaveCheck(next)
      case Some(e) => Err(e)
      case None => Ok(Doc(doc.id, doc.createdAt, next))
  }

  /** `removeTeamMember`: the project must exist, the user must be a member (checked before
      ownership), and the owner cannot be removed; the first matching entry is removed, one
      seat is freed, and the project is saved. */
  function RemoveTeamMemberOutcome(projects: Collection<Project>, id: Key, userId: Key)
    : (r: Result<Doc<Project>, AppError>)
    ensures id.Malformed? ==> r == Err(CastFailure)
    ensures FindById(projects, id).Miss? ==> r == Err(ProjectMissing)
    ensures FindById(projects, id).Hit? ==> r == Dismiss(FindById(projects, id).doc, userId)
  {
    match FindById(projects, id)
    case CastError => Err(CastFailure)
    case Miss => Err(ProjectMissing)
    case Hit(doc) => Dismiss(doc, userId)
  }

  /** Taking entry `i` off the member list and freeing one seat removes exactly that entry,
      keeps the others in order, and preserves the unlisted seats; when `i` is not the
      owner's entry, the owner keeps its seat. */
  lemma LeftKeepsBalance(p: Project, i: nat)
    requires i < |p.teamMembers| && p.teamMembers[i] != p.ownerId
    ensures var after := Left(p, i);
      && after.teamMembers == p.teamMembers[..i] + p.teamMembers[i + 1..]
      && multiset(after.teamMembers) + multiset{p.teamMembers[i]} == multiset(p.teamMembers)
      && after.currentTeam == p.currentTeam - 1
      && Unlisted(after) == Unlisted(p)
      && (TeamConsistent(p) ==> TeamConsistent(after))
  {
    var ms := p.teamMembers;
    var after := Left(p, i);
    assert ms == ms[..i] + [ms[i]] + ms[i + 1..];
    if TeamConsistent(p) {
      var k :| 0 <= k < |ms| && ms[k] == p.ownerId;
      if k < i {
        assert after.teamMembers[k] == p.ownerId;
      } else {
        assert after.teamMembers[k - 1] == p.ownerId;
      }
    }
  }

  /** A successful dismissal deletes only the first entry for that user, keeps the other
      members in order, frees exactly one seat, and preserves the unlisted seats and the
      agreement between seats and members; the owner keeps its seat. */
  lemma DismissKeepsTeamBalance(doc: Doc<Project>, userId: Key)
    requires Dismiss(doc, userId).Ok?
    ensures var before := doc.fields;
      var after := Dismiss(doc, userId).value.fields;
      && userId.Oid?
      && (exists i :: 0 <= i < |before.teamMembers| && before.teamMembers[i] == userId.id &&
            userId.id !in before.teamMembers[..i] &&
            after.teamMembers == before.teamMembers[..i] + before.teamMembers[i + 1..])
      && multiset(after.teamMembers) + multiset{userId.id} == multiset(before.teamMembers)
      && after.currentTeam == before.currentTeam - 1
      && after.currentTeam as real <= after.teamSize
      && Unlisted(after) == Unlisted(before)
      && before.ownerId != userId.id
      && (TeamConsistent(before) ==> TeamConsistent(after))
  {
    var before := doc.fields;
    var i := MemberIndex(before.teamMembers, userId);
    assert Dismiss(doc, userId).value.fields == Left(before, i);
    LeftKeepsBalance(before, i);
  }

  /** The membership check comes first: asking to remove an owner who is not on the member
      list reports USER_NOT_MEMBER, not CANNOT_REMOVE_OWNER. */
  lemma AbsentOwnerIsNotAMember(doc: Doc<Project>)
    requires doc.fields.ownerId !in doc.fields.teamMembers
    ensures Dismiss(doc, Oid(doc.fields.ownerId, true)) == Err(NotMember)
  {
  }

  /** `removeTeamMember` compares text too: a member's id spelled otherwise is not a member. */
  lemma RespelledMemberIsNotFound(doc: Doc<Project>, id: Id)
    ensures Dismiss(doc, Oid(id, false)) == Err(NotMember)
  {
  }

  /** The loaded project lets the user go: membership is checked before ownership, then the
      first matching entry is spliced out, one seat is freed and the project is saved. */
  method DismissMember(db: Db, doc: Doc<Project>, userId: Key) returns (r: Result<Doc<Project>, AppError>)
    requires db.Valid()
    modifies db
    ensures db.Valid()
    ensures r == Dismiss(doc, userId)
    ensures db.projects == (if r.Ok? then Update(old(db.projects), doc.id, r.value.fields) else old(db.projects))
    ensures db.users == old(db.users) && db.applications == old(db.applications) && db.clock == old(db.clock)
  {
    var project := doc.fields;
    var memberIndex := MemberIndex(project.teamMembers, userId);
    if memberIndex == -1 {
      return Err(NotMember);
    }
    if SameId(project.ownerId, userId) {
      return Err(OwnerStays);
    }
    project := project.(teamMembers := RemoveAt(project.teamMembers, memberIndex));
    project := project.(currentTeam := project.currentTeam - 1);
    var failure := SaveCheck(project);
    if failure.Some? {
      return Err(failure.value);
    }
    db.SaveProject(doc.id, project);
    r := Ok(Doc(doc.id, doc.createdAt, project));
  }

  method RemoveTeamMember(db: Db, id: Key, userId: Key) returns (r: Result<Doc<Project>, AppError>)
    requires db.Valid()
    modifies db
    ensures db.Valid()
    ensures r == RemoveTeamMemberOutcome(old(db.projects), id, userId)
    ensures db.projects == (if r.Ok? then Update(old(db.projects), r.value.id, r.value.fields) else old(db.projects))
    ensures db.users == old(db.users) && db.applications == old(db.applications) && db.clock == old(db.clock)
  {
    var found := FindById(db.projects, id);
    if found.CastError? {
      return Err(CastFailure);
    } else if found.Miss? {
      return Err(ProjectMissing);
    }
    r := DismissMember(db, found.doc, userId);
  }

  /** The capacity alone, as a body: every other field left out. */
  function CapacityOnly(teamSize: Number): ProjectInput {
    ProjectInput(None, None, None, None, None, None, None, None, Some(teamSize), None, None, None, None, None, None,
                 None, None, None, None)
  }

  /** The update validators check only the range of `teamSize` and the pre-save hook does
      not run on updates, so an update may set the capacity below the seats already taken. */
  lemma CapacityCanDropBelowSeats(projects: Collection<Project>, k: Id, teamSize: Number)
    requires Ordered(projects) && Contains(projects, k)
    requires MinTeamSize <= teamSize <= MaxTeamSize
    ensures var r := UpdateProjectOutcome(projects, Oid(k, true), CapacityOnly(teamSize));
      && r.Ok? && r.value.fields.teamSize == teamSize
      && r.value.fields.currentTeam == Lookup(projects, k).value.fields.currentTeam
  {
    assert PatchErrors(TrimName(CapacityOnly(teamSize))) == [];
  }

  /** A project within the schema whose capacity was lowered below its occupied seats
      admits nobody (400 TEAM_SIZE_EXCEEDED), and dismissing any member other than the owner
      is refused by the pre-save hook with a 500 for as long as the seats left would still
      exceed the capacity. */
  lemma ShrunkTeamIsStuck(doc: Doc<Project>, uid: Key, member: Key)
    requires WithinSchema(doc.fields) && uid.Oid?
    requires doc.fields.teamSize + 1.0 < doc.fields.currentTeam as real
    ensures !Includes(doc.fields.teamMembers, uid) ==> Admit(doc, uid) == Err(TeamFull)
    ensures !Includes(doc.fields.teamMembers, uid) ==> ErrorHandler(Admit(doc, uid).error).status == 400
    ensures MemberIndex(doc.fields.teamMembers, member) != -1 && !SameId(doc.fields.ownerId, member) ==>
      Dismiss(doc, member).Err?
      && ErrorHandler(Dismiss(doc, member).error) == Reply(500, CapacityMessage, InternalServerError, NoDetails)
  {
    var i := MemberIndex(doc.fields.teamMembers, member);
    if i != -1 && !SameId(doc.fields.ownerId, member) {
      var next := Left(doc.fields, i);
      assert WithinSchema(next);
      SaveRefusalReply(next);
    }
  }
}
