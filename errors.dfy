/** Errors and their translation to HTTP replies: `createError`, the central `errorHandler`
    and the fallback `notFoundHandler`. */
module Errors {
  import opened Base
  import Text

  // The stable error codes clients rely on.
  const AuthenticationRequired := "AUTHENTICATION_REQUIRED"
  const MissingToken := "MISSING_TOKEN"
  const InvalidToken := "INVALID_TOKEN"
  const AuthError := "AUTH_ERROR"
  const InsufficientPermissions := "INSUFFICIENT_PERMISSIONS"
  const ProjectNotFound := "PROJECT_NOT_FOUND"
  const ProjectAccessDenied := "PROJECT_ACCESS_DENIED"
  const OwnershipCheckError := "OWNERSHIP_CHECK_ERROR"
  const ProfileAccessDenied := "PROFILE_ACCESS_DENIED"
  const ProjectCreationDenied := "PROJECT_CREATION_DENIED"
  const UserNotFound := "USER_NOT_FOUND"
  const UserAlreadyMember := "USER_ALREADY_MEMBER"
  const TeamSizeExceeded := "TEAM_SIZE_EXCEEDED"
  const UserNotMember := "USER_NOT_MEMBER"
  const CannotRemoveOwner := "CANNOT_REMOVE_OWNER"
  const ApplicationNotFound := "APPLICATION_NOT_FOUND"
  const ApplicationAccessDenied := "APPLICATION_ACCESS_DENIED"
  const ValidationErrorCode := "VALIDATION_ERROR"
  const QueryValidationError := "QUERY_VALIDATION_ERROR"
  const ParamsValidationError := "PARAMS_VALIDATION_ERROR"
  const DuplicateError := "DUPLICATE_ERROR"
  const InvalidId := "INVALID_ID"
  const InternalServerError := "INTERNAL_SERVER_ERROR"
  const RouteNotFound := "ROUTE_NOT_FOUND"

  /** One entry of a Mongoose ValidationError: the failing path and its message. */
  datatype ValidatorError = ValidatorError(path: string, message: string)

  /** One element of a `details` array: `{field, message}`, or `{field, message, code}` when it
      comes from the request validators. */
  datatype Detail = Detail(field: string, message: string, code: Option<string>)

  /** The `details` of an error; `NoDetails` stands for `undefined`. */
  datatype Details =
    | NoDetails
    | Summary(text: string)
    | Entries(items: seq<Detail>)
    | DuplicateKey(field: Option<string>)

  /** `details` is truthy: anything but `undefined` and the empty string. */
  predicate DetailsPresent(d: Details) {
    !d.NoDetails? && d != Summary("")
  }

  /** What was thrown, told apart by `error.name`. */
  datatype ErrorKind =
    | Plain                                                // an `Error`, e.g. from createError
    | MongooseValidation(errors: seq<ValidatorError>)      // 'ValidationError'
    | MongoServer(serverCode: nat, keyPattern: seq<string>) // 'MongoServerError'
    | Cast                                                 // 'CastError'

  /** An `AppError`: an exception with optional `statusCode`, `code` and `details`. */
  datatype AppError = AppError(
    kind: ErrorKind,
    message: string,
    statusCode: Option<int>,
    code: Option<string>,
    details: Details)

  /** An HTTP error reply: the status and the body `{ error: { message, code, details? } }`. */
  datatype Reply = Reply(status: int, message: string, code: string, details: Details)

  /** `createError(message, statusCode = 500, code?, details?)`. */
  function CreateError(message: string, statusCode: Option<int>, code: Option<string>, details: Details): AppError {
    AppError(Plain, message, Some(statusCode.GetOr(500)), code, details)
  }

  /** The errors the controllers throw: `createError(message, status, code)`. */
  function Fail(status: int, code: string, message: string): AppError {
    CreateError(message, Some(status), Some(code), NoDetails)
  }

  /** The CastError Mongoose raises when a request id is not an ObjectId. */
  const CastFailure := AppError(Cast, "Cast to ObjectId failed", None, None, NoDetails)

  const ValidationMessage := "Ошибка валидации данных"
  const InvalidIdMessage := "Неверный формат ID"
  const InternalMessage := "Внутренняя ошибка сервера"

  function EntryDetails(errors: seq<ValidatorError>): (items: seq<Detail>)
    ensures |items| == |errors|
    ensures forall i :: 0 <= i < |errors| ==>
      items[i] == Detail(errors[i].path, errors[i].message, None)
  {
    seq(|errors|, i requires 0 <= i < |errors| => Detail(errors[i].path, errors[i].message, None))
  }

  function DuplicateMessage(field: Option<string>): string {
    "Поле " + (if field.Some? then field.value else "undefined") + " должно быть уникальным"
  }

  /** An error none of the handler's name checks claims: not a ValidationError, not a
      duplicate key, not a CastError. */
  predicate Unclassified(e: AppError) {
    e.kind.Plain? || (e.kind.MongoServer? && e.kind.serverCode != 11000)
  }

  /** `errorHandler`: classifies by name first (ValidationError, then duplicate key, then
      CastError); anything else keeps its own status and code, with 500 and
      INTERNAL_SERVER_ERROR standing in for falsy ones. */
  function ErrorHandler(e: AppError): (r: Reply)
    ensures r.status != 0 && r.code != ""
    ensures e.kind.MongooseValidation? ==>
      r == Reply(400, ValidationMessage, ValidationErrorCode, Entries(EntryDetails(e.kind.errors)))
    ensures e.kind.MongoServer? && e.kind.serverCode == 11000 ==> r.status == 409 && r.code == DuplicateError
    ensures e.kind.Cast? ==> r.status == 400 && r.code == InvalidId
    ensures e.kind.Plain? && e.statusCode.Some? && e.statusCode.value != 0 ==> r.status == e.statusCode.value
    ensures e.kind.Plain? && e.code.Some? && e.code.value != "" ==> r.code == e.code.value
    // Everything the three named cases do not catch keeps its own status, message and
    // details, and a falsy one is replaced by its default.
    ensures Unclassified(e) && (e.statusCode.None? || e.statusCode.value == 0) ==> r.status == 500
    ensures e.kind.Plain? && (e.code.None? || e.code.value == "") ==> r.code == InternalServerError
    ensures Unclassified(e) && e.message != "" ==> r.message == e.message
    ensures Unclassified(e) && e.message == "" ==> r.message == InternalMessage
    ensures Unclassified(e) && DetailsPresent(e.details) ==> r.details == e.details
    ensures Unclassified(e) && !DetailsPresent(e.details) ==> r.details == NoDetails
  {
    var statusCode := if e.statusCode.Some? && e.statusCode.value != 0 then e.statusCode.value else 500;
    var code :=
      if e.kind.MongoServer? then
        (if e.kind.serverCode != 0 then Text.NatToString(e.kind.serverCode) else InternalServerError)
      else if e.code.Some? && e.code.value != "" then e.code.value
      else InternalServerError;
    match e.kind
    case MongooseValidation(errors) =>
      Reply(400, ValidationMessage, ValidationErrorCode, Entries(EntryDetails(errors)))
    case MongoServer(serverCode, keyPattern) =>
      if serverCode == 11000 then
        var field := if |keyPattern| > 0 then Some(keyPattern[0]) else None;
        Reply(409, DuplicateMessage(field), DuplicateError, DuplicateKey(field))
      else
        Reply(statusCode, OrElse(Some(e.message), InternalMessage), code,
              if DetailsPresent(e.details) then e.details else NoDetails)
    case Cast =>
      Reply(400, InvalidIdMessage, InvalidId, NoDetails)
    case Plain =>
      Reply(statusCode, OrElse(Some(e.message), InternalMessage), code,
            if DetailsPresent(e.details) then e.details else NoDetails)
  }

  /** A duplicate-key error from the server is a 409 naming the first key of the violated index. */
  lemma DuplicateKeyReply(keyPattern: seq<string>, message: string, statusCode: Option<int>)
    requires |keyPattern| > 0
    ensures var r := ErrorHandler(AppError(MongoServer(11000, keyPattern), message, statusCode, None, NoDetails));
      r.status == 409 && r.code == DuplicateError && r.details == DuplicateKey(Some(keyPattern[0]))
  {
  }

  /** What a controller throws with `createError` reaches the client unchanged: its status
      (500 when omitted or zero), its code (INTERNAL_SERVER_ERROR when omitted or empty), its
      message (the generic one when empty) and its details (when truthy). */
  lemma ThrownErrorReply(message: string, status: Option<int>, code: Option<string>, details: Details)
    ensures ErrorHandler(CreateError(message, status, code, details))
      == Reply(if status.Some? && status.value != 0 then status.value else 500,
               if message == "" then InternalMessage else message,
               if code.Some? && code.value != "" then code.value else InternalServerError,
               if DetailsPresent(details) then details else NoDetails)
  {
  }

  /** `notFoundHandler`: an unmatched route becomes a 404 ROUTE_NOT_FOUND naming the method
      and the url. */
  function NotFoundHandler(verb: string, url: string): (e: AppError)
    ensures ErrorHandler(e).status == 404 && ErrorHandler(e).code == RouteNotFound
  {
    CreateError("Маршрут " + verb + " " + url + " не найден", Some(404), Some(RouteNotFound), NoDetails)
  }
}
