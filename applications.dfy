/** The application handlers: applying to a project, listing a project's or one's own
    applications, and the project owner's review of an application's status. */
module Applications {
  import opened Base
  import opened Errors
  import Text
  import opened Store
  import opened Query
  import opened UserModel
  import ProjectModel
  import opened ApplicationModel
  import opened Validate
  import opened Roles
  import Projects

  const ApplicationMissing := Fail(404, ApplicationNotFound, "Заявка не найдена")
  const StatusDenied := Fail(403, ApplicationAccessDenied, "Нет прав для изменения статуса заявки")

  /** The application `create` receives: the applicant is the caller when there is one (their
      id and their account name), otherwise nobody and the name from the body. Casting trims
      the name; the status is left to its default. */
  function Drafted(projectId: Id, caller: Caller, b: ApplicationInput): Application {
    Application(
      projectId,
      if caller.Some? then Some(caller.value.id) else None,
      Text.Trim(if caller.Some? then caller.value.fields.name else b.name.GetOr("")),
      b.role.GetOr(""),
      b.message.GetOr(""),
      DefaultAppStatus)
  }

  /** `createApplication`: the project must exist; the application is stored exactly when
      `create` accepts it. */
  function CreateApplicationOutcome(projects: Collection<ProjectModel.Project>, caller: Caller, b: ApplicationInput, clock: nat)
    : (r: Result<Doc<Application>, AppError>)
    ensures b.projectId.None? ==> r == Err(Projects.ProjectMissing)
    ensures b.projectId.Some? && b.projectId.value.Malformed? ==> r == Err(CastFailure)
    ensures b.projectId.Some? && FindById(projects, b.projectId.value).Miss? ==> r == Err(Projects.ProjectMissing)
    ensures r.Ok? ==>
      && r.value.id == clock && r.value.createdAt == clock
      && b.projectId.Some? && Denotes(r.value.fields.projectId, b.projectId.value)
      && Contains(projects, r.value.fields.projectId)
      && WithinSchema(r.value.fields)
      && r.value.fields.status == New
      && r.value.fields.userId == (if caller.Some? then Some(caller.value.id) else None)
      && r.value.fields.name == Text.Trim(if caller.Some? then caller.value.fields.name else b.name.GetOr(""))
      && r.value.fields.role == b.role.GetOr("") && r.value.fields.message == b.message.GetOr("")
    ensures b.projectId.Some? && FindById(projects, b.projectId.value).Hit? ==>
      (r.Ok? <==> WithinSchema(Drafted(b.projectId.value.id, caller, b)))
  {
    if b.projectId.None? then Err(Projects.ProjectMissing)
    else
      match FindById(projects, b.projectId.value)
      case CastError => Err(CastFailure)
      case Miss => Err(Projects.ProjectMissing)
      case Hit(project) =>
        var draft := Drafted(project.id, caller, b);
        match SaveCheck(draft)
        case Some(e) => Err(e)
        case None => Ok(Doc(clock, clock, draft))
  }

  /** For a caller, the stored name is the account's name: whatever name the body carries
      makes no difference. */
  lemma CallerNameOverridesBody(projects: Collection<ProjectModel.Project>, caller: Caller, b: ApplicationInput, name: Option<string>,
                                clock: nat)
    requires caller.Some?
    ensures CreateApplicationOutcome(projects, caller, b, clock) == CreateApplicationOutcome(projects, caller, b.(name := name), clock)
    ensures CreateApplicationOutcome(projects, caller, b, clock).Ok? ==>
      CreateApplicationOutcome(projects, caller, b, clock).value.fields.name == Text.Trim(caller.value.fields.name)
  {
  }

  /** Without a caller, a body the creation schema accepts for an existing project is stored
      with no applicant account, the body's name, role and message, and the status `new` —
      provided the name is not blank once trimmed. */
  lemma AnonymousApplicationIsStored(projects: Collection<ProjectModel.Project>, b: ApplicationInput, clock: nat)
    requires ApplicationCreateOk(b) && FindById(projects, b.projectId.value).Hit?
    requires Text.Trim(b.name.value) != ""
    ensures var r := CreateApplicationOutcome(projects, None, b, clock);
      && r.Ok?
      && r.value.fields == Application(b.projectId.value.id, None, Text.Trim(b.name.value), b.role.value, b.message.value, New)
  {
    Text.TrimUtf16Length(b.name.value);
  }

  method CreateApplication(db: Db, caller: Caller, b: ApplicationInput) returns (r: Result<Doc<Application>, AppError>)
    requires db.Valid()
    modifies db
    ensures db.Valid()
    ensures r == CreateApplicationOutcome(old(db.projects), caller, b, old(db.clock))
    ensures db.applications == (if r.Ok? then old(db.applications) + [r.value] else old(db.applications))
    ensures db.clock == (if r.Ok? then old(db.clock) + 1 else old(db.clock))
    ensures db.users == old(db.users) && db.projects == old(db.projects)
  {
    if b.projectId.None? {
      return Err(Projects.ProjectMissing);
    }
    var project := FindById(db.projects, b.projectId.value);
    if project.CastError? {
      return Err(CastFailure);
    } else if project.Miss? {
      return Err(Projects.ProjectMissing);
    }
    var userId: Option<Id> := None;
    var applicantName := b.name.GetOr("");
    if caller.Some? {
      userId := Some(caller.value.id);
      applicantName := caller.value.fields.name;
    }
    var draft := Application(project.doc.id, userId, Text.Trim(applicantName), b.role.GetOr(""), b.message.GetOr(""),
                             DefaultAppStatus);
    var failure := SaveCheck(draft);
    if failure.Some? {
      return Err(failure.value);
    }
    var doc := db.InsertApplication(draft);
    r := Ok(doc);
  }

  function ApplicantName(a: Application): string {
    a.name
  }

  /** The applications filed for one project. */
  function ForProject(projectId: Id, a: Application): bool {
    a.projectId == projectId
  }

  /** The applications filed from one account. */
  function ByUser(userId: Id, a: Application): bool {
    a.userId == Some(userId)
  }

  /** `getProjectApplications`: the project must exist; then its applications, newest first. */
  function ProjectApplications(applications: Collection<Application>, projects: Collection<ProjectModel.Project>, id: Key)
    : (r: Result<seq<Doc<Application>>, AppError>)
    ensures id.Malformed? ==> r == Err(CastFailure)
    ensures id.Oid? ==> (r.Ok? <==> Contains(projects, id.id))
    ensures id.Oid? && r.Err? ==> r.error == Projects.ProjectMissing
  {
    match FindById(projects, id)
    case CastError => Err(CastFailure)
    case Miss => Err(Projects.ProjectMissing)
    case Hit(project) => Ok(SortDocs(Where(applications, a => ForProject(project.id, a)), NewestFirst, ApplicantName))
  }

  /** The list holds every application of the project and nothing else, the most recent first. */
  lemma ProjectApplicationsAreNewestFirst(applications: Collection<Application>, projects: Collection<ProjectModel.Project>, id: Key)
    requires Ordered(applications)
    requires ProjectApplications(applications, projects, id).Ok?
    ensures var r := ProjectApplications(applications, projects, id).value;
      && (forall i :: 0 <= i < |r| ==> r[i] in applications && Denotes(r[i].fields.projectId, id))
      && (forall j :: 0 <= j < |applications| && Denotes(applications[j].fields.projectId, id) ==> applications[j] in r)
      && (forall a, b :: 0 <= a < b < |r| ==> r[a].createdAt > r[b].createdAt)
  {
    NewestMatchesFirst(applications, a => ForProject(id.id, a), ApplicantName);
  }

  /** `getUserApplications`: a caller is required; then the caller's applications, newest first. */
  function UserApplications(applications: Collection<Application>, caller: Caller)
    : (r: Result<seq<Doc<Application>>, AppError>)
    ensures r.Err? <==> caller.None?
    ensures r.Err? ==> r.error == Projects.Unauthenticated
  {
    if caller.None? then Err(Projects.Unauthenticated)
    else Ok(SortDocs(Where(applications, a => ByUser(caller.value.id, a)), NewestFirst, ApplicantName))
  }

  /** The list holds every application filed from the caller's account and nothing else, the
      most recent first; anonymous applications are never listed. */
  lemma UserApplicationsAreNewestFirst(applications: Collection<Application>, caller: Caller)
    requires Ordered(applications) && caller.Some?
    ensures var r := UserApplications(applications, caller).value;
      && (forall i :: 0 <= i < |r| ==> r[i] in applications && r[i].fields.userId == Some(caller.value.id))
      && (forall j :: 0 <= j < |applications| && applications[j].fields.userId == Some(caller.value.id) ==>
            applications[j] in r)
      && (forall a, b :: 0 <= a < b < |r| ==> r[a].createdAt > r[b].createdAt)
  {
    NewestMatchesFirst(applications, a => ByUser(caller.value.id, a), ApplicantName);
  }

  /** The review step once the application and its project are loaded: only an admin or the
      project's owner may set the status, and then the application is saved with the new
      status and nothing else changed. */
  function Review(app: Doc<Application>, project: Doc<ProjectModel.Project>, caller: Caller, status: string)
    : (r: Result<Doc<Application>, AppError>)
    ensures r.Ok? ==> caller.Some? && (caller.value.fields.role == Admin || caller.value.id == project.fields.ownerId)
    ensures StatusChangeDenied(caller, project.fields.ownerId) ==> r == Err(StatusDenied)
    ensures !StatusChangeDenied(caller, project.fields.ownerId) ==>
      (r.Ok? <==> WithinSchema(app.fields.(status := status)))
    ensures r.Ok? ==> r.value == Doc(app.id, app.createdAt, app.fields.(status := status))
  {
    if StatusChangeDenied(caller, project.fields.ownerId) then Err(StatusDenied)
    else
      var next := app.fields.(status := status);
      match SaveCheck(next)
      case Some(e) => Err(e)
      case None => Ok(Doc(app.id, app.createdAt, next))
  }

  /** `updateApplicationStatus`: the application must exist, then its project; then the
      review step. */
  function UpdateStatusOutcome(applications: Collection<Application>, projects: Collection<ProjectModel.Project>, caller: Caller,
                               id: Key, status: string)
    : (r: Result<Doc<Application>, AppError>)
    ensures id.Malformed? ==> r == Err(CastFailure)
    ensures FindById(applications, id).Miss? ==> r == Err(ApplicationMissing)
    ensures FindById(applications, id).Hit? && !Contains(projects, FindById(applications, id).doc.fields.projectId) ==>
      r == Err(Projects.ProjectMissing)
    ensures r.Ok? ==> FindById(applications, id).Hit?
    ensures FindById(applications, id).Hit? && Contains(projects, FindById(applications, id).doc.fields.projectId) ==>
      r == Review(FindById(applications, id).doc, Lookup(projects, FindById(applications, id).doc.fields.projectId).value,
                  caller, status)
  {
    match FindById(applications, id)
    case CastError => Err(CastFailure)
    case Miss => Err(ApplicationMissing)
    case Hit(app) =>
      match Lookup(projects, app.fields.projectId)
      case None => Err(Projects.ProjectMissing)
      case Some(project) => Review(app, project, caller, status)
  }

  /** An admin or the owner may move a stored application from any status to any status. */
  lemma AnyStatusToAnyStatus(app: Doc<Application>, project: Doc<ProjectModel.Project>, caller: Caller, status: string)
    requires WithinSchema(app.fields) && status in AppStatuses
    requires caller.Some? && (caller.value.fields.role == Admin || caller.value.id == project.fields.ownerId)
    ensures Review(app, project, caller, status).Ok?
    ensures Review(app, project, caller, status).value.fields.status == status
  {
  }

  /** A stored application refuses exactly the statuses outside the four, with a
      ValidationError that the central handler answers with 400. */
  lemma UnknownStatusIsRefused(app: Doc<Application>, project: Doc<ProjectModel.Project>, caller: Caller, status: string)
    requires WithinSchema(app.fields) && !StatusChangeDenied(caller, project.fields.ownerId)
    ensures Review(app, project, caller, status).Ok? <==> status in AppStatuses
    ensures Review(app, project, caller, status).Err? ==>
      ErrorHandler(Review(app, project, caller, status).error).status == 400
  {
    if status !in AppStatuses {
      SaveRefusalReply(app.fields.(status := status));
    }
  }

  /** The review step on loaded documents, saving the application in place. */
  method ReviewApplication(db: Db, app: Doc<Application>, project: Doc<ProjectModel.Project>, caller: Caller, status: string)
    returns (r: Result<Doc<Application>, AppError>)
    requires db.Valid()
    modifies db
    ensures db.Valid()
    ensures r == Review(app, project, caller, status)
    ensures db.applications == (if r.Ok? then Update(old(db.applications), app.id, r.value.fields) else old(db.applications))
    ensures db.users == old(db.users) && db.projects == old(db.projects) && db.clock == old(db.clock)
  {
    if RoleOf(caller) != Some(Admin) && Some(project.fields.ownerId) != IdOf(caller) {
      return Err(StatusDenied);
    }
    var application := app.fields;
    application := application.(status := status);
    var failure := SaveCheck(application);
    if failure.Some? {
      return Err(failure.value);
    }
    db.SaveApplication(app.id, application);
    r := Ok(Doc(app.id, app.createdAt, application));
  }

  method UpdateApplicationStatus(db: Db, caller: Caller, id: Key, status: string)
    returns (r: Result<Doc<Application>, AppError>)
    requires db.Valid()
    modifies db
    ensures db.Valid()
    ensures r == UpdateStatusOutcome(old(db.applications), old(db.projects), caller, id, status)
    ensures db.applications == (if r.Ok? then Update(old(db.applications), r.value.id, r.value.fields) else old(db.applications))
    ensures db.users == old(db.users) && db.projects == old(db.projects) && db.clock == old(db.clock)
  {
    var found := FindById(db.applications, id);
    if found.CastError? {
      return Err(CastFailure);
    } else if found.Miss? {
      return Err(ApplicationMissing);
    }
    var project := Lookup(db.projects, found.doc.fields.projectId);
    if project.None? {
      return Err(Projects.ProjectMissing);
    }
    r := ReviewApplication(db, found.doc, project.value, caller, status);
  }
}
