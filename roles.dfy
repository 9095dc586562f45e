/** The authorization guards that run before the handlers, and the inline permission check of
    the application-status update. Each guard either lets the request through or answers it
    with a fixed status and code. */
module Roles {
  import opened Base
  import opened Errors
  import opened Store
  import Text
  import opened UserModel
  import opened ProjectModel

  /** The authenticated account attached to the request, if any. */
  type Caller = Option<Doc<User>>

  datatype Decision = Allow | Deny(reply: Reply)

  const AuthRequired := Reply(401, "Требуется аутентификация", AuthenticationRequired, NoDetails)

  /** `requireRole(allowed)`: a caller whose role is listed passes; anyone else is told which
      roles are required. */
  function RequireRole(allowed: seq<string>, caller: Caller): (r: Decision)
    ensures caller.None? ==> r == Deny(AuthRequired)
    ensures caller.Some? ==> (r == Allow <==> caller.value.fields.role in allowed)
    ensures caller.Some? && r.Deny? ==>
      r.reply == Reply(403, "Недостаточно прав доступа", InsufficientPermissions,
                       Summary("Требуемые роли: " + Text.Join(allowed, ", ")))
  {
    if caller.None? then Deny(AuthRequired)
    else if caller.value.fields.role !in allowed then
      Deny(Reply(403, "Недостаточно прав доступа", InsufficientPermissions,
                 Summary("Требуемые роли: " + Text.Join(allowed, ", "))))
    else Allow
  }

  /** The outcome of the ownership guard: the loaded project is attached to the request. */
  datatype Ownership = Granted(project: Doc<Project>) | Denied(reply: Reply)

  const OwnershipFailure := Reply(500, "Ошибка проверки прав доступа", OwnershipCheckError, NoDetails)

  /** `requireProjectOwnership`: the project named by the path must exist (checked before the
      caller's role), and the caller must be an admin or its owner; a failed lookup is a 500. */
  function RequireProjectOwnership(caller: Caller, projects: Collection<Project>, id: Key): (r: Ownership)
    ensures caller.None? ==> r == Denied(AuthRequired)
    ensures caller.Some? && id.Malformed? ==> r == Denied(OwnershipFailure)
    ensures caller.Some? && FindById(projects, id).Miss? ==>
      r.Denied? && r.reply.status == 404 && r.reply.code == ProjectNotFound
    ensures r.Granted? <==>
      caller.Some? && FindById(projects, id).Hit? &&
      (caller.value.fields.role == Admin || FindById(projects, id).doc.fields.ownerId == caller.value.id)
    ensures r.Granted? ==> r.project == FindById(projects, id).doc
    ensures caller.Some? && FindById(projects, id).Hit? && r.Denied? ==>
      r.reply.status == 403 && r.reply.code == ProjectAccessDenied
  {
    if caller.None? then Denied(AuthRequired)
    else
      match FindById(projects, id)
      case CastError => Denied(OwnershipFailure)
      case Miss => Denied(Reply(404, "Проект не найден", ProjectNotFound, NoDetails))
      case Hit(project) =>
        if caller.value.fields.role == Admin then Granted(project)
        else if project.fields.ownerId != caller.value.id then
          Denied(Reply(403, "Нет прав доступа к этому проекту", ProjectAccessDenied, NoDetails))
        else Granted(project)
  }

  /** `requireSelfOrAdmin`: an admin may act on any profile, anyone else only on their own. */
  function RequireSelfOrAdmin(caller: Caller, id: Key): (r: Decision)
    ensures caller.None? ==> r == Deny(AuthRequired)
    ensures caller.Some? ==> (r == Allow <==> caller.value.fields.role == Admin || SameId(caller.value.id, id))
    ensures caller.Some? && r.Deny? ==> r.reply.status == 403 && r.reply.code == ProfileAccessDenied
  {
    if caller.None? then Deny(AuthRequired)
    else if caller.value.fields.role == Admin then Allow
    else if !SameId(caller.value.id, id) then
      Deny(Reply(403, "Нет прав доступа к этому профилю", ProfileAccessDenied, NoDetails))
    else Allow
  }

  /** The comparison is on text: a user who is not an admin and spells their own id otherwise
      (upper-case hexadecimal digits) is refused their own profile, although the id casts. */
  lemma RespelledOwnProfileIsDenied(me: Doc<User>)
    requires me.fields.role != Admin
    ensures RequireSelfOrAdmin(Some(me), Oid(me.id, false)) == Deny(Reply(403, "Нет прав доступа к этому профилю", ProfileAccessDenied, NoDetails))
  {
  }

  const CreatorRoles := [TeamLead, Customer, Admin]

  /** `requireProjectCreationRole`: only team leads, customers and admins create projects. */
  function RequireProjectCreationRole(caller: Caller): (r: Decision)
    ensures caller.None? ==> r == Deny(AuthRequired)
    ensures caller.Some? ==>
      (r == Allow <==> caller.value.fields.role == TeamLead || caller.value.fields.role == Customer
                        || caller.value.fields.role == Admin)
    ensures caller.Some? && r.Deny? ==> r.reply.status == 403 && r.reply.code == ProjectCreationDenied
  {
    if caller.None? then Deny(AuthRequired)
    else if caller.value.fields.role !in CreatorRoles then
      Deny(Reply(403, "Только тимлиды и заказчики могут создавать проекты", ProjectCreationDenied, NoDetails))
    else Allow
  }

  function RoleOf(caller: Caller): Option<string> {
    if caller.Some? then Some(caller.value.fields.role) else None
  }

  function IdOf(caller: Caller): Option<Id> {
    if caller.Some? then Some(caller.value.id) else None
  }

  /** The inline check of the status update, read with optional chaining: the caller's role
      is not admin and the owner's id differs from the caller's id, both possibly undefined.
      It refuses exactly the callers that are neither an admin nor the owner, and it refuses a
      missing caller with 403 rather than 401. */
  function StatusChangeDenied(caller: Caller, ownerId: Id): (denied: bool)
    ensures !denied <==> caller.Some? && (caller.value.fields.role == Admin || caller.value.id == ownerId)
  {
    RoleOf(caller) != Some(Admin) && Some(ownerId) != IdOf(caller)
  }
}
