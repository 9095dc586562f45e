/** The Project schema: its fields, enumerations and bounds, the validation Mongoose runs on
    save, and the pre-save hook that guards team capacity. */
module ProjectModel {
  import opened Base
  import opened Errors
  import opened Schema
  import Text

  const Active := "активный"
  const Completed := "завершен"
  const Paused := "приостановлен"
  const SeekingTeam := "в поиске команды"
  const Statuses := [Active, Completed, Paused, SeekingTeam]
  const DefaultStatus := SeekingTeam

  const Simple := "простой"
  const Medium := "средний"
  const Hard := "сложный"
  const Complexities := [Simple, Medium, Hard]

  const MinTeamSize: Number := 1.0
  const MaxTeamSize: Number := 50.0

  /** A project's fields (the id and the creation stamp live in the document envelope). */
  datatype Project = Project(
    name: string,
    description: string,
    status: string,
    lookingFor: string,
    category: string,
    tech: seq<string>,
    neededRoles: seq<string>,
    teamSize: Number,
    currentTeam: int,
    budget: string,
    timeline: string,
    complexity: string,
    image: string,
    features: seq<string>,
    requirements: seq<string>,
    ownerId: Id,
    teamMembers: seq<Id>)

  /** Every bound the schema states, written out field by field. */
  predicate WithinSchema(p: Project) {
    && p.name != "" && Text.Utf16Length(p.name) <= 200
    && p.description != "" && Text.Utf16Length(p.description) <= 2000
    && p.status in Statuses
    && p.lookingFor != "" && Text.Utf16Length(p.lookingFor) <= 500
    && p.category != ""
    && ElementsPresent(p.tech, None)
    && ElementsPresent(p.neededRoles, None)
    && MinTeamSize <= p.teamSize <= MaxTeamSize
    && 1 <= p.currentTeam <= 50
    && p.budget != "" && Text.Utf16Length(p.budget) <= 100
    && p.timeline != "" && Text.Utf16Length(p.timeline) <= 100
    && p.complexity in Complexities
    && p.image != "" && Text.Utf16Length(p.image) <= 500
    && ElementsPresent(p.features, Some(200))
    && ElementsPresent(p.requirements, Some(200))
  }

  /** The ValidatorErrors Mongoose collects for a new document, path by path in schema order,
      where `teamSize` stands in for the document's own (possibly missing) capacity. */
  function DraftErrors(p: Project, teamSize: Option<Number>): (r: seq<ValidatorError>)
    ensures r == [] <==> teamSize.Some? && WithinSchema(p.(teamSize := teamSize.value))
  {
    StringErrors("name", p.name, Some(200))
    + StringErrors("description", p.description, Some(2000))
    + EnumErrors("status", p.status, Statuses)
    + StringErrors("lookingFor", p.lookingFor, Some(500))
    + StringErrors("category", p.category, None)
    + ElementErrors("tech", p.tech, None, 0)
    + ElementErrors("neededRoles", p.neededRoles, None, 0)
    + NumberErrors("teamSize", teamSize, MinTeamSize, MaxTeamSize)
    + NumberErrors("currentTeam", Some(p.currentTeam as real), 1.0, 50.0)
    + StringErrors("budget", p.budget, Some(100))
    + StringErrors("timeline", p.timeline, Some(100))
    + EnumErrors("complexity", p.complexity, Complexities)
    + StringErrors("image", p.image, Some(500))
    + ElementErrors("features", p.features, Some(200), 0)
    + ElementErrors("requirements", p.requirements, Some(200), 0)
  }

  /** The ValidatorErrors for a stored project; there are none exactly when the project lies
      within every bound of the schema. */
  function SchemaErrors(p: Project): (r: seq<ValidatorError>)
    ensures r == [] <==> WithinSchema(p)
  {
    assert p.(teamSize := p.teamSize) == p;
    DraftErrors(p, Some(p.teamSize))
  }

  const CapacityMessage := "currentTeam не может быть больше teamSize"

  /** The pre-save hook: a project whose occupied seats exceed its capacity is refused with a
      plain Error (no status, no code). */
  function PreSave(p: Project): (r: Option<AppError>)
    ensures r.None? <==> p.currentTeam as real <= p.teamSize
    ensures r.Some? ==> r.value.kind.Plain? && r.value.statusCode.None? && r.value.code.None?
  {
    if p.currentTeam as real > p.teamSize then Some(AppError(Plain, CapacityMessage, None, None, NoDetails))
    else None
  }

  /** The ValidationError `save()` throws for a non-empty list of failing paths. */
  function Invalid(errors: seq<ValidatorError>): AppError {
    AppError(MongooseValidation(errors), "Project validation failed", None, None, NoDetails)
  }

  /** The central handler answers a refused save with 400 VALIDATION_ERROR listing every
      failing path, and a refusal by the pre-save hook with 500 INTERNAL_SERVER_ERROR. */
  lemma SaveRefusalReply(p: Project)
    requires SaveCheck(p).Some?
    ensures var reply := ErrorHandler(SaveCheck(p).value);
      && (!WithinSchema(p) ==>
            reply == Reply(400, ValidationMessage, ValidationErrorCode, Entries(EntryDetails(SchemaErrors(p)))))
      && (WithinSchema(p) ==>
            reply == Reply(500, CapacityMessage, InternalServerError, NoDetails) && p.currentTeam as real > p.teamSize)
  {
  }

  /** `save()`: schema validation first (a ValidationError listing every failing path), then
      the pre-save hook. A project is stored exactly when it lies within the schema and its
      occupied seats do not exceed its capacity. */
  function SaveCheck(p: Project): (r: Option<AppError>)
    ensures r.None? <==> WithinSchema(p) && p.currentTeam as real <= p.teamSize
    ensures !WithinSchema(p) ==> r == Some(Invalid(SchemaErrors(p)))
    ensures WithinSchema(p) ==> r == PreSave(p)
  {
    var errors := SchemaErrors(p);
    if errors != [] then Some(Invalid(errors)) else PreSave(p)
  }

  /** `Project.create(...)` of a document whose `teamSize` may be missing: a missing capacity
      is a ValidationError, otherwise the document is saved as usual. */
  function CreateCheck(p: Project, teamSize: Option<Number>): (r: Option<AppError>)
    ensures teamSize.None? ==> r == Some(Invalid(DraftErrors(p, None)))
    ensures teamSize.Some? ==> r == SaveCheck(p.(teamSize := teamSize.value))
  {
    if teamSize.None? then Some(Invalid(DraftErrors(p, None)))
    else SaveCheck(p.(teamSize := teamSize.value))
  }

  /** Whatever `save()` accepts has between one and `teamSize` occupied seats, and a capacity
      between 1 and 50. */
  lemma SavedProjectIsWithinCapacity(p: Project)
    requires SaveCheck(p).None?
    ensures 1 <= p.currentTeam && p.currentTeam as real <= p.teamSize <= MaxTeamSize
  {
  }
}
