/** The routers: for every endpoint, the middlewares that run before its handler and the
    order they run in. Authentication comes first, then the validators of the path, the body
    or the query, then the authorization guard, then the handler; the first of them that
    answers decides the reply. A refusal by a validator or a handler reaches the client
    through the central error handler; the authentication middleware and the guards answer
    the client themselves. */
module Routes {
  import opened Base
  import opened Errors
  import Text
  import opened Store
  import opened UserModel
  import ProjectModel
  import ApplicationModel
  import opened Validate
  import opened Roles
  import Search
  import Projects
  import Applications
  import Users

  /** What the handlers read: the three collections and the clock that stamps new documents. */
  datatype State = State(
    users: Collection<User>,
    projects: Collection<ProjectModel.Project>,
    applications: Collection<ApplicationModel.Application>,
    clock: nat)

  /** What the client receives: the handler's value, or an error reply. */
  datatype Response<T> = Served(value: T) | Refused(reply: Reply)

  /** A handler's outcome as the client sees it: a thrown error goes through `errorHandler`. */
  function Answer<T>(r: Result<T, AppError>): Response<T> {
    match r
    case Ok(v) => Served(v)
    case Err(e) => Refused(ErrorHandler(e))
  }

  /** A validator's refusal: the parse failed with these issues. */
  function Rejected<T>(t: Target, issues: seq<ZodIssue>): Response<T> {
    Refused(ErrorHandler(ValidationFailure(t, issues)))
  }

  // ---------------------------------------------------------------------------------------
  // Authentication

  /** What `jwt.verify` makes of a token with the server's secret: the user id of a genuine,
      current payload, or a failure. An expired token raises the library's TokenExpiredError,
      which is a JsonWebTokenError like a forged one. */
  datatype Verdict = Signed(userId: Key) | Forged | Expired

  /** The `Authorization` header of the request and the token verifier. */
  datatype Credentials = Credentials(authorization: Option<string>, verify: string -> Verdict)

  /** `authHeader && authHeader.split(' ')[1]`, when truthy: the second space-separated piece
      of the header. */
  function BearerToken(authorization: Option<string>): (token: Option<string>)
    ensures token.Some? ==> token.value != "" && ' ' !in token.value
  {
    if authorization.None? then None
    else
      var parts := Text.Split(authorization.value, ' ');
      if |parts| > 1 && parts[1] != "" then Some(parts[1]) else None
  }

  /** The header `<scheme> <token>` carries exactly that token. */
  lemma BearerRoundTrip(scheme: string, token: string)
    requires ' ' !in scheme && ' ' !in token && token != ""
    ensures BearerToken(Some(scheme + " " + token)) == Some(token)
  {
    assert Text.Join([token], " ") == token;
    assert Text.Join([scheme, token], " ") == scheme + " " + token;
    Text.SplitJoin([scheme, token], ' ');
  }

  /** The verifier's verdict on the request's token, when there is one. */
  function TokenVerdict(cred: Credentials): Option<Verdict> {
    match BearerToken(cred.authorization)
    case None => None
    case Some(token) => Some(cred.verify(token))
  }

  const MissingTokenReply := Reply(401, "Токен доступа не предоставлен", MissingToken, NoDetails)
  const UnknownUserReply := Reply(401, "Пользователь не найден", UserNotFound, NoDetails)
  const InvalidTokenReply := Reply(401, "Недействительный токен", InvalidToken, NoDetails)
  const AuthFailureReply := Reply(500, "Ошибка аутентификации", AuthError, NoDetails)

  /** `authenticateToken`: a request gets through with the account its token names. A
      missing token, a token the library refuses (expired ones included) and a token naming
      no account are 401s; a payload id that is not an ObjectId makes the lookup throw a
      CastError, which the middleware answers with 500. */
  function Authenticate(cred: Credentials, users: Collection<User>): (r: Result<Doc<User>, Reply>)
    ensures TokenVerdict(cred).None? ==> r == Err(MissingTokenReply)
    ensures TokenVerdict(cred).Some? && !TokenVerdict(cred).value.Signed? ==> r == Err(InvalidTokenReply)
    ensures TokenVerdict(cred) == Some(Expired) ==> r.Err? && r.error.code != "TOKEN_EXPIRED"
    ensures r.Ok? <==>
      TokenVerdict(cred).Some? && TokenVerdict(cred).value.Signed?
      && TokenVerdict(cred).value.userId.Oid? && Contains(users, TokenVerdict(cred).value.userId.id)
    ensures r.Ok? ==> r.value in users && Denotes(r.value.id, TokenVerdict(cred).value.userId)
    ensures r.Err? ==> r.error.status == 401 || r.error == AuthFailureReply
    ensures r == Err(AuthFailureReply) <==>
      TokenVerdict(cred).Some? && TokenVerdict(cred).value.Signed? && TokenVerdict(cred).value.userId.Malformed?
  {
    match TokenVerdict(cred)
    case None => Err(MissingTokenReply)
    case Some(verdict) =>
      match verdict
      case Forged => Err(InvalidTokenReply)
      case Expired => Err(InvalidTokenReply)
      case Signed(k) =>
        match FindById(users, k)
        case CastError => Err(AuthFailureReply)
        case Miss => Err(UnknownUserReply)
        case Hit(user) => Ok(user)
  }

  /** `optionalAuth`: the account the token names when there is one; every failure, thrown
      or not, leaves the request anonymous. */
  function OptionalAuth(cred: Credentials, users: Collection<User>): (caller: Caller)
    ensures caller.Some? ==> caller.value in users
  {
    match TokenVerdict(cred)
    case None => None
    case Some(verdict) =>
      match verdict
      case Forged => None
      case Expired => None
      case Signed(k) =>
        match FindById(users, k)
        case Hit(user) => Some(user)
        case _ => None
  }

  /** The two middlewares agree on who the caller is: the optional one finds the caller
      exactly when the strict one lets the request through, and finds the same account. */
  lemma OptionalAuthIsLenient(cred: Credentials, users: Collection<User>)
    ensures OptionalAuth(cred, users).Some? <==> Authenticate(cred, users).Ok?
    ensures OptionalAuth(cred, users).Some? ==> OptionalAuth(cred, users).value == Authenticate(cred, users).value
  {
  }

  // ---------------------------------------------------------------------------------------
  // /api/projects

  /** `GET /projects`: optional authentication, then the query validator, then the listing.
      Who asks makes no difference to the listing. */
  function ListProjectsRoute(st: State, cred: Credentials, query: ProjectQuery,
                             textHit: (string, ProjectModel.Project) -> bool, issues: seq<ZodIssue>)
    : (r: Response<Search.Listing>)
    ensures !FiltersOk(query) ==> r == Rejected(Query, issues)
    ensures FiltersOk(query) ==>
      (r.Refused? <==> query.ownerId.Some? && query.ownerId.value.Malformed? && query.ownerId.value.raw != "")
    ensures FiltersOk(query) && r.Refused? ==> r.reply.status == 400 && r.reply.code == InvalidId
    ensures r.Served? ==> FiltersOk(query) && r.value == Search.ListProjects(st.projects, query, textHit).value
  {
    if !FiltersOk(query) then Rejected(Query, issues)
    else
      Search.ListingFailsOnlyOnCast(st.projects, query, textHit);
      Answer(Search.ListProjects(st.projects, query, textHit))
  }

  /** `GET /projects/:id`: optional authentication, the path validator, then the lookup. */
  function GetProjectRoute(st: State, cred: Credentials, id: Key, issues: seq<ZodIssue>)
    : (r: Response<Doc<ProjectModel.Project>>)
    ensures !NonEmptyKey(id) ==> r == Rejected(Params, issues)
    ensures NonEmptyKey(id) && id.Malformed? ==> r.Refused? && r.reply.status == 400 && r.reply.code == InvalidId
    ensures NonEmptyKey(id) && FindById(st.projects, id).Miss? ==>
      r.Refused? && r.reply.status == 404 && r.reply.code == ProjectNotFound
    ensures r.Served? <==> FindById(st.projects, id).Hit?
    ensures r.Served? ==> r.value == FindById(st.projects, id).doc
  {
    if !NonEmptyKey(id) then Rejected(Params, issues)
    else Answer(Projects.GetProjectOutcome(st.projects, id))
  }

  /** `POST /projects`: authentication, the body validator, the creator-role guard, then
      creation from the parsed body. What is created belongs to the signed-in caller, who
      must be a team lead, a customer or an admin. */
  function CreateProjectRoute(st: State, cred: Credentials, b: ProjectInput, isUrl: string -> bool,
                              issues: seq<ZodIssue>)
    : (r: Response<Doc<ProjectModel.Project>>)
    ensures Authenticate(cred, st.users).Err? ==> r == Refused(Authenticate(cred, st.users).error)
    ensures Authenticate(cred, st.users).Ok? && !ProjectCreateOk(b, isUrl) ==> r == Rejected(Body, issues)
    ensures Authenticate(cred, st.users).Ok? && ProjectCreateOk(b, isUrl)
            && RequireProjectCreationRole(Some(Authenticate(cred, st.users).value)).Deny? ==>
      r == Refused(RequireProjectCreationRole(Some(Authenticate(cred, st.users).value)).reply)
    ensures r.Served? ==> Authenticate(cred, st.users).Ok? && ProjectCreateOk(b, isUrl)
    ensures r.Served? ==>
      var caller := Authenticate(cred, st.users).value;
      && caller.fields.role in CreatorRoles
      && r.value.fields.ownerId == caller.id && r.value.fields.teamMembers == [caller.id]
      && r.value.fields.currentTeam == 1 && r.value.id == st.clock
  {
    match Authenticate(cred, st.users)
    case Err(reply) => Refused(reply)
    case Ok(user) =>
      if !ProjectCreateOk(b, isUrl) then Rejected(Body, issues)
      else
        match RequireProjectCreationRole(Some(user))
        case Deny(reply) => Refused(reply)
        case Allow =>
          var created := Projects.CreateProjectOutcome(Some(user), StripProject(b), st.clock);
          assert created.Ok? ==> created.value.fields.ownerId == user.id && created.value.id == st.clock;
          Answer(created)
  }

  /** `PATCH /projects/:id`: authentication, the path and body validators, the ownership
      guard, then the update of the parsed body. Only an admin or the owner changes a
      project, and the owner, the seats and the members stay as they were. */
  function UpdateProjectRoute(st: State, cred: Credentials, id: Key, b: ProjectInput, isUrl: string -> bool,
                              issues: seq<ZodIssue>)
    : (r: Response<Doc<ProjectModel.Project>>)
    requires Ordered(st.projects)
    ensures Authenticate(cred, st.users).Err? ==> r == Refused(Authenticate(cred, st.users).error)
    ensures Authenticate(cred, st.users).Ok? && !NonEmptyKey(id) ==> r == Rejected(Params, issues)
    ensures Authenticate(cred, st.users).Ok? && NonEmptyKey(id) && !ProjectUpdateOk(b, isUrl) ==>
      r == Rejected(Body, issues)
    ensures Authenticate(cred, st.users).Ok? && NonEmptyKey(id) && ProjectUpdateOk(b, isUrl)
            && RequireProjectOwnership(Some(Authenticate(cred, st.users).value), st.projects, id).Denied? ==>
      r == Refused(RequireProjectOwnership(Some(Authenticate(cred, st.users).value), st.projects, id).reply)
    ensures r.Served? ==> Authenticate(cred, st.users).Ok? && ProjectUpdateOk(b, isUrl) && FindById(st.projects, id).Hit?
    ensures r.Served? ==>
      var caller := Authenticate(cred, st.users).value;
      var stored := FindById(st.projects, id).doc;
      && (caller.fields.role == Admin || stored.fields.ownerId == caller.id)
      && r.value.id == stored.id
      && r.value.fields.ownerId == stored.fields.ownerId
      && r.value.fields.currentTeam == stored.fields.currentTeam
      && r.value.fields.teamMembers == stored.fields.teamMembers
  {
    match Authenticate(cred, st.users)
    case Err(reply) => Refused(reply)
    case Ok(user) =>
      if !NonEmptyKey(id) then Rejected(Params, issues)
      else if !ProjectUpdateOk(b, isUrl) then Rejected(Body, issues)
      else
        match RequireProjectOwnership(Some(user), st.projects, id)
        case Denied(reply) => Refused(reply)
        case Granted(_) => Answer(Projects.UpdateProjectOutcome(st.projects, id, StripProject(b)))
  }

  /** `DELETE /projects/:id`: authentication, the path validator, the ownership guard, then
      the deletion. Only an admin or the owner deletes a project. */
  function DeleteProjectRoute(st: State, cred: Credentials, id: Key, issues: seq<ZodIssue>): (r: Response<()>)
    ensures Authenticate(cred, st.users).Err? ==> r == Refused(Authenticate(cred, st.users).error)
    ensures Authenticate(cred, st.users).Ok? && !NonEmptyKey(id) ==> r == Rejected(Params, issues)
    ensures Authenticate(cred, st.users).Ok? && NonEmptyKey(id)
            && RequireProjectOwnership(Some(Authenticate(cred, st.users).value), st.projects, id).Denied? ==>
      r == Refused(RequireProjectOwnership(Some(Authenticate(cred, st.users).value), st.projects, id).reply)
    ensures r.Served? <==>
      Authenticate(cred, st.users).Ok? && FindById(st.projects, id).Hit?
      && (Authenticate(cred, st.users).value.fields.role == Admin
          || FindById(st.projects, id).doc.fields.ownerId == Authenticate(cred, st.users).value.id)
  {
    match Authenticate(cred, st.users)
    case Err(reply) => Refused(reply)
    case Ok(user) =>
      if !NonEmptyKey(id) then Rejected(Params, issues)
      else
        match RequireProjectOwnership(Some(user), st.projects, id)
        case Denied(reply) => Refused(reply)
        case Granted(_) =>
          match Projects.DeleteProjectOutcome(st.projects, id)
          case Some(e) => Refused(ErrorHandler(e))
          case None => Served(())
  }

  /** `POST /projects/:id/team`: authentication, the path and body validators, the ownership
      guard, then the admission. Only an admin or the owner adds a member. */
  function AddTeamMemberRoute(st: State, cred: Credentials, id: Key, b: TeamMemberInput, issues: seq<ZodIssue>)
    : (r: Response<Doc<ProjectModel.Project>>)
    ensures Authenticate(cred, st.users).Err? ==> r == Refused(Authenticate(cred, st.users).error)
    ensures Authenticate(cred, st.users).Ok? && !NonEmptyKey(id) ==> r == Rejected(Params, issues)
    ensures Authenticate(cred, st.users).Ok? && NonEmptyKey(id) && !TeamMemberOk(b) ==> r == Rejected(Body, issues)
    ensures Authenticate(cred, st.users).Ok? && NonEmptyKey(id) && TeamMemberOk(b)
            && RequireProjectOwnership(Some(Authenticate(cred, st.users).value), st.projects, id).Denied? ==>
      r == Refused(RequireProjectOwnership(Some(Authenticate(cred, st.users).value), st.projects, id).reply)
    ensures r.Served? ==> Authenticate(cred, st.users).Ok? && TeamMemberOk(b) && FindById(st.projects, id).Hit?
    ensures r.Served? ==> b.userId.value.Oid? && Contains(st.users, b.userId.value.id)
    ensures r.Served? ==>
      var caller := Authenticate(cred, st.users).value;
      var stored := FindById(st.projects, id).doc;
      && (caller.fields.role == Admin || stored.fields.ownerId == caller.id)
      && r == Answer(Projects.Admit(stored, b.userId.value))
  {
    match Authenticate(cred, st.users)
    case Err(reply) => Refused(reply)
    case Ok(user) =>
      if !NonEmptyKey(id) then Rejected(Params, issues)
      else if !TeamMemberOk(b) then Rejected(Body, issues)
      else
        match RequireProjectOwnership(Some(user), st.projects, id)
        case Denied(reply) => Refused(reply)
        case Granted(_) => Answer(Projects.AddTeamMemberOutcome(st.users, st.projects, id, b))
  }

  /** `DELETE /projects/:id/team/:userId`: authentication, the path validator (both ids),
      the ownership guard, then the dismissal. Only an admin or the owner removes a member. */
  function RemoveTeamMemberRoute(st: State, cred: Credentials, id: Key, userId: Key, issues: seq<ZodIssue>)
    : (r: Response<Doc<ProjectModel.Project>>)
    ensures Authenticate(cred, st.users).Err? ==> r == Refused(Authenticate(cred, st.users).error)
    ensures Authenticate(cred, st.users).Ok? && !(NonEmptyKey(id) && NonEmptyKey(userId)) ==>
      r == Rejected(Params, issues)
    ensures Authenticate(cred, st.users).Ok? && NonEmptyKey(id) && NonEmptyKey(userId)
            && RequireProjectOwnership(Some(Authenticate(cred, st.users).value), st.projects, id).Denied? ==>
      r == Refused(RequireProjectOwnership(Some(Authenticate(cred, st.users).value), st.projects, id).reply)
    ensures r.Served? ==> Authenticate(cred, st.users).Ok? && FindById(st.projects, id).Hit?
    ensures r.Served? ==>
      var caller := Authenticate(cred, st.users).value;
      var stored := FindById(st.projects, id).doc;
      && (caller.fields.role == Admin || stored.fields.ownerId == caller.id)
      && r == Answer(Projects.Dismiss(stored, userId))
  {
    match Authenticate(cred, st.users)
    case Err(reply) => Refused(reply)
    case Ok(user) =>
      if !(NonEmptyKey(id) && NonEmptyKey(userId)) then Rejected(Params, issues)
      else
        match RequireProjectOwnership(Some(user), st.projects, id)
        case Denied(reply) => Refused(reply)
        case Granted(_) => Answer(Projects.RemoveTeamMemberOutcome(st.projects, id, userId))
  }

  // ---------------------------------------------------------------------------------------
  // /api/applications

  /** `POST /applications`: optional authentication, the body validator, then the
      application. A missing, refused or dangling token files the application anonymously. */
  function CreateApplicationRoute(st: State, cred: Credentials, b: ApplicationInput, issues: seq<ZodIssue>)
    : (r: Response<Doc<ApplicationModel.Application>>)
    ensures !ApplicationCreateOk(b) ==> r == Rejected(Body, issues)
    ensures ApplicationCreateOk(b) ==>
      r == Answer(Applications.CreateApplicationOutcome(st.projects, OptionalAuth(cred, st.users), b, st.clock))
    ensures r.Served? ==>
      r.value.fields.userId == (if Authenticate(cred, st.users).Ok? then Some(Authenticate(cred, st.users).value.id) else None)
  {
    OptionalAuthIsLenient(cred, st.users);
    var caller := OptionalAuth(cred, st.users);
    if !ApplicationCreateOk(b) then Rejected(Body, issues)
    else Answer(Applications.CreateApplicationOutcome(st.projects, caller, b, st.clock))
  }

  /** `GET /applications/projects/:id`: authentication, the path validator, the admin-only
      role guard, then the listing. */
  function ProjectApplicationsRoute(st: State, cred: Credentials, id: Key, issues: seq<ZodIssue>)
    : (r: Response<seq<Doc<ApplicationModel.Application>>>)
    ensures Authenticate(cred, st.users).Err? ==> r == Refused(Authenticate(cred, st.users).error)
    ensures Authenticate(cred, st.users).Ok? && !NonEmptyKey(id) ==> r == Rejected(Params, issues)
    ensures Authenticate(cred, st.users).Ok? && NonEmptyKey(id) && Authenticate(cred, st.users).value.fields.role != Admin ==>
      r == Refused(RequireRole([Admin], Some(Authenticate(cred, st.users).value)).reply)
    ensures r.Served? <==>
      Authenticate(cred, st.users).Ok? && Authenticate(cred, st.users).value.fields.role == Admin
      && FindById(st.projects, id).Hit?
    ensures r.Served? ==> r == Answer(Applications.ProjectApplications(st.applications, st.projects, id))
  {
    match Authenticate(cred, st.users)
    case Err(reply) => Refused(reply)
    case Ok(user) =>
      if !NonEmptyKey(id) then Rejected(Params, issues)
      else
        match RequireRole([Admin], Some(user))
        case Deny(reply) => Refused(reply)
        case Allow => Answer(Applications.ProjectApplications(st.applications, st.projects, id))
  }

  /** `PATCH /applications/:id`: authentication, the path and body validators, then the
      review; the handler checks the permission itself. A status that gets through is one of
      the four application statuses, set by an admin or by the project's owner. */
  function UpdateStatusRoute(st: State, cred: Credentials, id: Key, b: StatusInput, issues: seq<ZodIssue>)
    : (r: Response<Doc<ApplicationModel.Application>>)
    ensures Authenticate(cred, st.users).Err? ==> r == Refused(Authenticate(cred, st.users).error)
    ensures Authenticate(cred, st.users).Ok? && !NonEmptyKey(id) ==> r == Rejected(Params, issues)
    ensures Authenticate(cred, st.users).Ok? && NonEmptyKey(id) && !StatusUpdateOk(b) ==> r == Rejected(Body, issues)
    ensures r.Served? ==> Authenticate(cred, st.users).Ok? && StatusUpdateOk(b) && FindById(st.applications, id).Hit?
    ensures r.Served? ==> Contains(st.projects, FindById(st.applications, id).doc.fields.projectId)
    ensures r.Served? ==>
      var caller := Authenticate(cred, st.users).value;
      var app := FindById(st.applications, id).doc;
      && (caller.fields.role == Admin || caller.id == Lookup(st.projects, app.fields.projectId).value.fields.ownerId)
      && r.value == Doc(app.id, app.createdAt, app.fields.(status := b.status.value))
      && r.value.fields.status in ApplicationModel.AppStatuses
  {
    match Authenticate(cred, st.users)
    case Err(reply) => Refused(reply)
    case Ok(user) =>
      if !NonEmptyKey(id) then Rejected(Params, issues)
      else if !StatusUpdateOk(b) then Rejected(Body, issues)
      else Answer(Applications.UpdateStatusOutcome(st.applications, st.projects, Some(user), id, b.status.value))
  }

  /** `GET /applications`: authentication, then the caller's own applications. */
  function UserApplicationsRoute(st: State, cred: Credentials): (r: Response<seq<Doc<ApplicationModel.Application>>>)
    ensures r.Served? <==> Authenticate(cred, st.users).Ok?
    ensures r.Refused? ==> r == Refused(Authenticate(cred, st.users).error)
    ensures r.Served? ==> r == Answer(Applications.UserApplications(st.applications, Some(Authenticate(cred, st.users).value)))
  {
    match Authenticate(cred, st.users)
    case Err(reply) => Refused(reply)
    case Ok(user) => Answer(Applications.UserApplications(st.applications, Some(user)))
  }

  // ---------------------------------------------------------------------------------------
  // /api/users

  /** `GET /users/:id`: authentication, the path validator, then the lookup. Any signed-in
      account may read any profile. */
  function GetUserRoute(st: State, cred: Credentials, id: Key, issues: seq<ZodIssue>): (r: Response<Doc<User>>)
    ensures Authenticate(cred, st.users).Err? ==> r == Refused(Authenticate(cred, st.users).error)
    ensures Authenticate(cred, st.users).Ok? && !NonEmptyKey(id) ==> r == Rejected(Params, issues)
    ensures r.Served? <==> Authenticate(cred, st.users).Ok? && FindById(st.users, id).Hit?
    ensures r.Served? ==> r.value == FindById(st.users, id).doc
  {
    match Authenticate(cred, st.users)
    case Err(reply) => Refused(reply)
    case Ok(_) =>
      if !NonEmptyKey(id) then Rejected(Params, issues)
      else Answer(Users.GetUserOutcome(st.users, id))
  }

  /** `PATCH /users/:id`: authentication, the path and body validators, the self-or-admin
      guard, then the update of the parsed body. Only the account itself or an admin changes
      a profile, and the email and password never change. */
  function UpdateUserRoute(st: State, cred: Credentials, id: Key, b: UserInput, issues: seq<ZodIssue>)
    : (r: Response<Doc<User>>)
    ensures Authenticate(cred, st.users).Err? ==> r == Refused(Authenticate(cred, st.users).error)
    ensures Authenticate(cred, st.users).Ok? && !NonEmptyKey(id) ==> r == Rejected(Params, issues)
    ensures Authenticate(cred, st.users).Ok? && NonEmptyKey(id) && !UserUpdateOk(b) ==> r == Rejected(Body, issues)
    ensures Authenticate(cred, st.users).Ok? && NonEmptyKey(id) && UserUpdateOk(b)
            && RequireSelfOrAdmin(Some(Authenticate(cred, st.users).value), id).Deny? ==>
      r == Refused(RequireSelfOrAdmin(Some(Authenticate(cred, st.users).value), id).reply)
    ensures r.Served? ==> Authenticate(cred, st.users).Ok? && UserUpdateOk(b) && id.Oid? && Contains(st.users, id.id)
    ensures r.Served? ==>
      var caller := Authenticate(cred, st.users).value;
      var stored := Lookup(st.users, id.id).value;
      && (caller.fields.role == Admin || caller.id == id.id)
      && r.value.id == stored.id && r.value.createdAt == stored.createdAt
      && r.value.fields.email == stored.fields.email && r.value.fields.password == stored.fields.password
  {
    match Authenticate(cred, st.users)
    case Err(reply) => Refused(reply)
    case Ok(user) =>
      if !NonEmptyKey(id) then Rejected(Params, issues)
      else if !UserUpdateOk(b) then Rejected(Body, issues)
      else
        match RequireSelfOrAdmin(Some(user), id)
        case Deny(reply) => Refused(reply)
        case Allow =>
          Users.UpdateKeepsIdentity(st.users, id, StripUser(b));
          Answer(Users.UpdateUserOutcome(st.users, id, StripUser(b)))
  }

  // ---------------------------------------------------------------------------------------
  // Properties across routes

  /** A request without a token is refused with 401 MISSING_TOKEN by every route that needs a
      signed-in caller, whatever its path and body say. */
  lemma NoTokenIsRefusedFirst(st: State, cred: Credentials, id: Key, other: Key, pb: ProjectInput,
                              isUrl: string -> bool, mb: TeamMemberInput, sb: StatusInput, ub: UserInput,
                              issues: seq<ZodIssue>)
    requires BearerToken(cred.authorization).None?
    requires Ordered(st.projects)
    ensures CreateProjectRoute(st, cred, pb, isUrl, issues) == Refused(MissingTokenReply)
    ensures UpdateProjectRoute(st, cred, id, pb, isUrl, issues) == Refused(MissingTokenReply)
    ensures DeleteProjectRoute(st, cred, id, issues) == Refused(MissingTokenReply)
    ensures AddTeamMemberRoute(st, cred, id, mb, issues) == Refused(MissingTokenReply)
    ensures RemoveTeamMemberRoute(st, cred, id, other, issues) == Refused(MissingTokenReply)
    ensures ProjectApplicationsRoute(st, cred, id, issues) == Refused(MissingTokenReply)
    ensures UpdateStatusRoute(st, cred, id, sb, issues) == Refused(MissingTokenReply)
    ensures UserApplicationsRoute(st, cred) == Refused(MissingTokenReply)
    ensures GetUserRoute(st, cred, id, issues) == Refused(MissingTokenReply)
    ensures UpdateUserRoute(st, cred, id, ub, issues) == Refused(MissingTokenReply)
  {
  }

  /** The role guard on the application list admits admins only: the owner of a project
      cannot list its applications unless they are an admin, although the handler itself
      would serve them. */
  lemma OwnerCannotListApplications(st: State, cred: Credentials, id: Key, issues: seq<ZodIssue>)
    requires Authenticate(cred, st.users).Ok?
    requires Authenticate(cred, st.users).value.fields.role != Admin
    requires FindById(st.projects, id).Hit?
    requires FindById(st.projects, id).doc.fields.ownerId == Authenticate(cred, st.users).value.id
    ensures Applications.ProjectApplications(st.applications, st.projects, id).Ok?
    ensures var r := ProjectApplicationsRoute(st, cred, id, issues);
      r.Refused? && r.reply.status == 403 && r.reply.code == InsufficientPermissions
  {
  }

  /** An admin lists every application of an existing project and nothing else, the most
      recent first. */
  lemma AdminListsApplications(st: State, cred: Credentials, id: Key, issues: seq<ZodIssue>)
    requires Ordered(st.applications)
    requires Authenticate(cred, st.users).Ok? && Authenticate(cred, st.users).value.fields.role == Admin
    requires FindById(st.projects, id).Hit?
    ensures var r := ProjectApplicationsRoute(st, cred, id, issues);
      && r.Served?
      && (forall i :: 0 <= i < |r.value| ==> r.value[i] in st.applications && Denotes(r.value[i].fields.projectId, id))
      && (forall j :: 0 <= j < |st.applications| && Denotes(st.applications[j].fields.projectId, id) ==>
            st.applications[j] in r.value)
      && (forall a, b :: 0 <= a < b < |r.value| ==> r.value[a].createdAt > r.value[b].createdAt)
  {
    Applications.ProjectApplicationsAreNewestFirst(st.applications, st.projects, id);
  }

  /** A token that is missing, refused or names no account files the application exactly
      as an anonymous request does. */
  lemma FailedTokenAppliesAnonymously(st: State, cred: Credentials, b: ApplicationInput, issues: seq<ZodIssue>)
    requires Authenticate(cred, st.users).Err?
    ensures CreateApplicationRoute(st, cred, b, issues) == CreateApplicationRoute(st, Credentials(None, cred.verify), b, issues)
  {
    OptionalAuthIsLenient(cred, st.users);
  }

  /** Any signed-in account may make itself an admin: its own profile passes the guard, the
      update schema accepts the role, and the stored role becomes `admin`. */
  lemma SelfPromotionThroughRoute(st: State, cred: Credentials, issues: seq<ZodIssue>)
    requires Authenticate(cred, st.users).Ok?
    ensures var me := Authenticate(cred, st.users).value;
      var b := UserInput(None, None, None, None, None, Some(Admin), None, None, None, None, None, None, None);
      var r := UpdateUserRoute(st, cred, Oid(me.id, true), b, issues);
      r.Served? && r.value.id == me.id && r.value.fields.role == Admin
  {
    var me := Authenticate(cred, st.users).value;
    Users.SelfPromotionToAdmin(st.users, me);
  }
}
