/** Request bodies and queries, the constraints the request schemas put on them, and the
    middlewares that turn a failed parse into a 400 reply. */
module Validate {
  import opened Base
  import opened Errors
  import Text
  import UserModel
  import ProjectModel
  import ApplicationModel

  /** A project body as it may arrive: every field optional, including the ones a client must
      not set (`_id`, `ownerId`, `createdAt`, `currentTeam`, `teamMembers`). */
  datatype ProjectInput = ProjectInput(
    id: Option<Key>,
    name: Option<string>,
    description: Option<string>,
    status: Option<string>,
    lookingFor: Option<string>,
    category: Option<string>,
    tech: Option<seq<string>>,
    neededRoles: Option<seq<string>>,
    teamSize: Option<Number>,
    currentTeam: Option<int>,
    budget: Option<string>,
    timeline: Option<string>,
    complexity: Option<string>,
    image: Option<string>,
    features: Option<seq<string>>,
    requirements: Option<seq<string>>,
    ownerId: Option<Key>,
    teamMembers: Option<seq<Key>>,
    createdAt: Option<nat>)

  /** A profile body: the editable fields plus the ones a client must not set. */
  datatype UserInput = UserInput(
    id: Option<Key>,
    name: Option<string>,
    email: Option<string>,
    password: Option<string>,
    passwordHash: Option<string>,
    role: Option<string>,
    avatar: Option<string>,
    skills: Option<string>,
    bio: Option<string>,
    experience: Option<Number>,
    location: Option<string>,
    portfolio: Option<string>,
    createdAt: Option<nat>)

  datatype ApplicationInput = ApplicationInput(
    projectId: Option<Key>,
    name: Option<string>,
    role: Option<string>,
    message: Option<string>)

  datatype StatusInput = StatusInput(status: Option<string>)

  datatype TeamMemberInput = TeamMemberInput(userId: Option<Key>)

  /** The query string of the project listing, before parsing. */
  datatype ProjectQuery = ProjectQuery(
    q: Option<string>,
    category: Option<string>,
    status: Option<string>,
    ownerId: Option<Key>,
    neededRoles: Option<string>,
    tech: Option<string>,
    page: Option<string>,
    limit: Option<string>,
    sort: Option<string>)

  /** The listing query after parsing: `page` and `limit` have become numbers. */
  datatype ParsedQuery = ParsedQuery(
    q: Option<string>,
    category: Option<string>,
    status: Option<string>,
    ownerId: Option<Key>,
    neededRoles: Option<string>,
    tech: Option<string>,
    page: Option<nat>,
    limit: Option<nat>,
    sort: Option<string>)

  predicate LengthIn(s: string, lo: nat, hi: nat) {
    lo <= Text.Utf16Length(s) <= hi
  }

  predicate AllAtMost(xs: seq<string>, hi: nat) {
    forall i :: 0 <= i < |xs| ==> Text.Utf16Length(xs[i]) <= hi
  }

  /** Every project field that is present obeys its own rule; `isUrl` is the URL check on the
      image link. */
  predicate ProjectFieldsOk(b: ProjectInput, isUrl: string -> bool) {
    && (b.name.Some? ==> LengthIn(b.name.value, 1, 200))
    && (b.description.Some? ==> LengthIn(b.description.value, 1, 2000))
    && (b.status.Some? ==> b.status.value in ProjectModel.Statuses)
    && (b.lookingFor.Some? ==> LengthIn(b.lookingFor.value, 1, 500))
    && (b.category.Some? ==> |b.category.value| >= 1)
    && (b.tech.Some? ==> |b.tech.value| >= 1)
    && (b.neededRoles.Some? ==> |b.neededRoles.value| >= 1)
    && (b.teamSize.Some? ==> ProjectModel.MinTeamSize <= b.teamSize.value <= ProjectModel.MaxTeamSize)
    && (b.budget.Some? ==> LengthIn(b.budget.value, 1, 100))
    && (b.timeline.Some? ==> LengthIn(b.timeline.value, 1, 100))
    && (b.complexity.Some? ==> b.complexity.value in ProjectModel.Complexities)
    && (b.image.Some? ==> isUrl(b.image.value) && Text.Utf16Length(b.image.value) <= 500)
    && (b.features.Some? ==> AllAtMost(b.features.value, 200))
    && (b.requirements.Some? ==> AllAtMost(b.requirements.value, 200))
  }

  /** The creation schema: every field but `status` must be present, and each obeys its rule. */
  predicate ProjectCreateOk(b: ProjectInput, isUrl: string -> bool) {
    && ProjectFieldsOk(b, isUrl)
    && b.name.Some? && b.description.Some? && b.lookingFor.Some? && b.category.Some?
    && b.tech.Some? && b.neededRoles.Some? && b.teamSize.Some? && b.budget.Some?
    && b.timeline.Some? && b.complexity.Some? && b.image.Some? && b.features.Some?
    && b.requirements.Some?
  }

  /** The update schema is the creation schema with every field made optional. */
  predicate ProjectUpdateOk(b: ProjectInput, isUrl: string -> bool) {
    ProjectFieldsOk(b, isUrl)
  }

  /** Parsing keeps only the keys the schema declares. */
  function StripProject(b: ProjectInput): (r: ProjectInput)
    ensures r.id.None? && r.ownerId.None? && r.createdAt.None? && r.currentTeam.None? && r.teamMembers.None?
    ensures r.(id := b.id, ownerId := b.ownerId, createdAt := b.createdAt,
               currentTeam := b.currentTeam, teamMembers := b.teamMembers) == b
  {
    b.(id := None, ownerId := None, createdAt := None, currentTeam := None, teamMembers := None)
  }

  /** A body keeping only the fields in `keep`, the others left out. */
  function OnlyFields(b: ProjectInput, keep: set<string>): ProjectInput {
    ProjectInput(
      if "_id" in keep then b.id else None,
      if "name" in keep then b.name else None,
      if "description" in keep then b.description else None,
      if "status" in keep then b.status else None,
      if "lookingFor" in keep then b.lookingFor else None,
      if "category" in keep then b.category else None,
      if "tech" in keep then b.tech else None,
      if "neededRoles" in keep then b.neededRoles else None,
      if "teamSize" in keep then b.teamSize else None,
      if "currentTeam" in keep then b.currentTeam else None,
      if "budget" in keep then b.budget else None,
      if "timeline" in keep then b.timeline else None,
      if "complexity" in keep then b.complexity else None,
      if "image" in keep then b.image else None,
      if "features" in keep then b.features else None,
      if "requirements" in keep then b.requirements else None,
      if "ownerId" in keep then b.ownerId else None,
      if "teamMembers" in keep then b.teamMembers else None,
      if "createdAt" in keep then b.createdAt else None)
  }

  /** Any part of a valid creation body is a valid update body. */
  lemma CreatePartsAreUpdates(b: ProjectInput, keep: set<string>, isUrl: string -> bool)
    requires ProjectCreateOk(b, isUrl)
    ensures ProjectUpdateOk(OnlyFields(b, keep), isUrl)
  {
  }

  /** Roles a profile update may set: every role of the account model except the default one. */
  const UpdatableRoles := [UserModel.Admin, UserModel.TeamLead, UserModel.Customer,
                           UserModel.Developer, UserModel.Designer, UserModel.Tester]

  predicate UserUpdateOk(b: UserInput) {
    && (b.name.Some? ==> LengthIn(b.name.value, 1, 100))
    && (b.skills.Some? ==> Text.Utf16Length(b.skills.value) <= 500)
    && (b.bio.Some? ==> Text.Utf16Length(b.bio.value) <= 1000)
    && (b.experience.Some? ==> 0.0 <= b.experience.value <= 50.0)
    && (b.location.Some? ==> Text.Utf16Length(b.location.value) <= 100)
    && (b.portfolio.Some? ==> Text.Utf16Length(b.portfolio.value) <= 500)
    && (b.role.Some? ==> b.role.value in UpdatableRoles)
  }

  /** Parsing a profile body with the update schema drops every key the schema does not list. */
  function StripUser(b: UserInput): (r: UserInput)
    ensures r.id.None? && r.email.None? && r.password.None? && r.passwordHash.None? && r.avatar.None?
    ensures r.createdAt.None?
    ensures r.(id := b.id, email := b.email, password := b.password, passwordHash := b.passwordHash,
               avatar := b.avatar, createdAt := b.createdAt) == b
  {
    b.(id := None, email := None, password := None, passwordHash := None, avatar := None, createdAt := None)
  }

  /** The update schema accepts a role exactly when it is an account role other than the
      default one, so a profile can never be set back to the role it started with. */
  lemma UpdatableRolesOmitDefault(role: string)
    ensures UserUpdateOk(UserInput(None, None, None, None, None, Some(role), None, None, None, None, None, None, None))
      <==> role in UserModel.Roles && role != UserModel.DefaultRole
  {
    assert UserModel.Roles == UpdatableRoles + [UserModel.Junior];
  }

  predicate ApplicationCreateOk(b: ApplicationInput) {
    && b.projectId.Some? && NonEmptyKey(b.projectId.value)
    && b.name.Some? && LengthIn(b.name.value, 1, 100)
    && b.role.Some? && LengthIn(b.role.value, 1, 50)
    && b.message.Some? && LengthIn(b.message.value, 1, 1000)
  }

  predicate StatusUpdateOk(b: StatusInput) {
    b.status.Some? && b.status.value in ApplicationModel.AppStatuses
  }

  predicate TeamMemberOk(b: TeamMemberInput) {
    b.userId.Some? && NonEmptyKey(b.userId.value)
  }

  /** `^\d+$` followed by the positivity check. */
  predicate PageOk(s: string) {
    Text.IsDigits(s) && Text.DigitsValue(s) > 0
  }

  /** `^\d+$` followed by the range check 1..100. */
  predicate LimitOk(s: string) {
    Text.IsDigits(s) && 1 <= Text.DigitsValue(s) <= 100
  }

  const SortKeys := ["createdAt", "-createdAt", "name", "-name"]

  predicate FiltersOk(query: ProjectQuery) {
    && (query.status.Some? ==> query.status.value in ProjectModel.Statuses)
    && (query.page.Some? ==> PageOk(query.page.value))
    && (query.limit.Some? ==> LimitOk(query.limit.value))
    && (query.sort.Some? ==> query.sort.value in SortKeys)
  }

  /** The parsed filters: page and limit turned into the numbers their digits spell. */
  function ParseFilters(query: ProjectQuery): (r: ParsedQuery)
    requires FiltersOk(query)
    ensures r.page.Some? ==> r.page.value >= 1
    ensures r.limit.Some? ==> 1 <= r.limit.value <= 100
    ensures r.page.Some? <==> query.page.Some?
    ensures r.limit.Some? <==> query.limit.Some?
    ensures r.sort == query.sort && r.status == query.status
  {
    ParsedQuery(query.q, query.category, query.status, query.ownerId, query.neededRoles, query.tech,
      if query.page.Some? then Some(Text.DigitsValue(query.page.value)) else None,
      if query.limit.Some? then Some(Text.DigitsValue(query.limit.value)) else None,
      query.sort)
  }

  /** A page number given as a decimal numeral is accepted exactly when it is not zero. */
  lemma PageNumeral(n: nat)
    ensures PageOk(Text.NatToString(n)) <==> n > 0
    ensures LimitOk(Text.NatToString(n)) <==> 1 <= n <= 100
  {
  }

  /** One problem found by a schema: where (a key path) and what. */
  datatype ZodIssue = ZodIssue(path: seq<string>, message: string, code: string)

  /** Which part of the request a validator parses. */
  datatype Target = Body | Query | Params

  function TargetMessage(t: Target): string {
    match t
    case Body => ValidationMessage
    case Query => "Ошибка валидации параметров запроса"
    case Params => "Ошибка валидации параметров URL"
  }

  function TargetCode(t: Target): string {
    match t
    case Body => ValidationErrorCode
    case Query => QueryValidationError
    case Params => ParamsValidationError
  }

  function IssueDetails(issues: seq<ZodIssue>): (items: seq<Detail>)
    ensures |items| == |issues|
    ensures forall i :: 0 <= i < |issues| ==>
      items[i] == Detail(Text.Join(issues[i].path, "."), issues[i].message, Some(issues[i].code))
  {
    seq(|issues|, i requires 0 <= i < |issues| =>
      Detail(Text.Join(issues[i].path, "."), issues[i].message, Some(issues[i].code)))
  }

  /** What `validateBody`, `validateQuery` and `validateParams` pass on when parsing fails. */
  function ValidationFailure(t: Target, issues: seq<ZodIssue>): AppError {
    CreateError(TargetMessage(t), Some(400), Some(TargetCode(t)), Entries(IssueDetails(issues)))
  }

  /** A non-empty key path none of whose keys holds a dot. */
  predicate DotFree(path: seq<string>) {
    |path| >= 1 && forall j :: 0 <= j < |path| ==> '.' !in path[j]
  }

  /** A failed parse reaches the client as a 400 with the validator's code and one detail per
      issue, whose field is the issue's path joined with dots and splits back into it. */
  lemma ValidationFailureReply(t: Target, issues: seq<ZodIssue>)
    ensures var r := ErrorHandler(ValidationFailure(t, issues));
      && r.status == 400
      && r.code == (if t == Body then "VALIDATION_ERROR"
                    else if t == Query then "QUERY_VALIDATION_ERROR" else "PARAMS_VALIDATION_ERROR")
      && r.details.Entries? && |r.details.items| == |issues|
      && forall i :: 0 <= i < |issues| && DotFree(issues[i].path) ==>
           Text.Split(r.details.items[i].field, '.') == issues[i].path
  {
    var r := ErrorHandler(ValidationFailure(t, issues));
    ThrownErrorReply(TargetMessage(t), Some(400), Some(TargetCode(t)), Entries(IssueDetails(issues)));
    forall i | 0 <= i < |issues| && DotFree(issues[i].path)
      ensures Text.Split(r.details.items[i].field, '.') == issues[i].path
    {
      Text.SplitJoin(issues[i].path, '.');
    }
  }
}
