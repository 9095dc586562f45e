/** The Application schema: an applicant's request to join a project, with its review status. */
module ApplicationModel {
  import opened Base
  import opened Errors
  import opened Schema
  import Text

  const New := "new"
  const UnderReview := "рассматривается"
  const Accepted := "принято"
  const Rejected := "отклонено"
  const AppStatuses := [New, UnderReview, Accepted, Rejected]
  const DefaultAppStatus := New

  /** An application's fields: the project it targets (required), the applicant's account
      when there is one (optional), what the applicant wrote, and the review status. Only a
      creation stamp is kept, in the document envelope; there is no update stamp. */
  datatype Application = Application(
    projectId: Id,
    userId: Option<Id>,
    name: string,
    role: string,
    message: string,
    status: string)

  predicate WithinSchema(a: Application) {
    && a.name != "" && Text.Utf16Length(a.name) <= 100
    && a.role != "" && Text.Utf16Length(a.role) <= 50
    && a.message != "" && Text.Utf16Length(a.message) <= 1000
    && a.status in AppStatuses
  }

  /** The ValidatorErrors for an application, in schema order; none exactly when it lies
      within the schema. `projectId` is an Id here, so its `required` always holds. */
  function SchemaErrors(a: Application): (r: seq<ValidatorError>)
    ensures r == [] <==> WithinSchema(a)
  {
    StringErrors("name", a.name, Some(100))
    + StringErrors("role", a.role, Some(50))
    + StringErrors("message", a.message, Some(1000))
    + EnumOnlyErrors("status", a.status, AppStatuses)
  }

  function Invalid(errors: seq<ValidatorError>): AppError {
    AppError(MongooseValidation(errors), "Application validation failed", None, None, NoDetails)
  }

  /** `save()`: there are no hooks, so an application is stored exactly when it lies within
      the schema, and a refused one is a ValidationError naming the failing paths. */
  function SaveCheck(a: Application): (r: Option<AppError>)
    ensures r.None? <==> WithinSchema(a)
    ensures r.Some? ==> r == Some(Invalid(SchemaErrors(a)))
  {
    var errors := SchemaErrors(a);
    if errors != [] then Some(Invalid(errors)) else None
  }

  /** The central handler answers a refused save with 400 VALIDATION_ERROR listing every
      failing path. */
  lemma SaveRefusalReply(a: Application)
    requires SaveCheck(a).Some?
    ensures ErrorHandler(SaveCheck(a).value) ==
      Reply(400, ValidationMessage, ValidationErrorCode, Entries(EntryDetails(SchemaErrors(a))))
  {
  }
}
