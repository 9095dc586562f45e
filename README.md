# junkick_api — a verified model of the project-team backend

junkick_api is an Express/Mongoose REST backend where people put up projects, gather a
team and apply to join other projects. This Dafny project models its core:

- the three Mongoose collections (users, projects, applications) as one database object
  (`Store.Db`), with documents kept in insertion order under unique ids and increasing
  creation stamps;
- the Mongoose schema validators and the pre-save capacity hook of the Project model, and
  the validators of the Application and User models (`Schema`, `ProjectModel`,
  `ApplicationModel`, `UserModel`);
- the request schemas and the three validator middlewares (`Validate`);
- authentication (`authenticateToken`, `optionalAuth`) and the role and ownership guards
  (`Roles`);
- the controllers for projects (listing with filters, sorting and pagination; get, create,
  update and delete; adding and removing team members), applications (create, list by
  project, list by user, status review) and user profiles (`Search`, `Query`, `Projects`,
  `Applications`, `Users`);
- the central error handler that turns every thrown error into a JSON reply (`Errors`);
- every route as the chain of middlewares it runs, ending with the handler (`Routes`);
- the legacy data migration script, which empties the collections and imports users,
  projects and applications from a JSON dump (`Migrate`);
- the JavaScript primitives those steps rely on: `String.prototype.trim` and `split`
  (`Text`), and `parseInt` (`Numbers`).

Pure decisions (validators, guards, error mapping, listing) are functions with lemmas. The
handlers that change the database are methods on `Store.Db`. Each is proved against an
outcome function; the lemmas beside that function state what the handler promises. The
migration loops are `while` loops proved against recursive functions over the legacy
lists.

Behaviour of the code worth noting:

- A token that has expired is refused with 401 INVALID_TOKEN, not TOKEN_EXPIRED. The
  library's expiry error is a subclass of its generic token error, and that one is checked
  first (`src/middleware/auth.ts:49-65`).
- Only admins can list a project's applications. The route's role guard is admin-only,
  although the handler itself would serve the owner (`src/routes/applications.routes.ts:36-42`).
- A project update may lower `teamSize` below the seats already taken. Update validators
  check only the range, and the pre-save hook does not run on updates.
- `createApplication` stores the name it is given; an anonymous default name is filled in
  only by the migration script.
- A migrated project counts its owner in `currentTeam` (members + 1) but does not list the
  owner among its members, unless the legacy list already named them.
- The migration's empty-string defaults for an application's role and message are refused by
  the schema, so such an application ends the whole run.
- The migration reports the number of legacy projects, skipped ones included.

## Model

| member | source | states |
|---|---|---|
| Base.SameIdDenotes | src/controllers/projects.controller.ts:228 | an id whose text equals the request string also matches it in a query; the two differ exactly for another spelling of the same id |
| Errors.EntryDetails | src/middleware/error.ts:35-38 | one `{field, message}` detail per failing path of a Mongoose ValidationError, in order |
| Errors.ErrorHandler | src/middleware/error.ts:17-76 | a ValidationError becomes 400 VALIDATION_ERROR carrying every failing path; a duplicate key (11000) becomes 409 DUPLICATE_ERROR; a CastError becomes 400 INVALID_ID; any other error keeps its own non-zero status, non-empty code, non-empty message and truthy details, and a falsy one is replaced by 500, INTERNAL_SERVER_ERROR, the generic message or no details; the reply never has status 0 or an empty code |
| Errors.DuplicateKeyReply | src/middleware/error.ts:49-58 | a duplicate-key error is a 409 naming the first key of the violated index |
| Errors.ThrownErrorReply | src/middleware/error.ts:31-75 | an error built by `createError` reaches the client with its status (500 when omitted or zero), its code (INTERNAL_SERVER_ERROR when omitted or empty), its message (the generic one when empty) and its details (when truthy) |
| Errors.NotFoundHandler | src/middleware/error.ts:78-85 | an unmatched route is answered with 404 ROUTE_NOT_FOUND |
| Schema.StringErrors | src/models/Project.model.ts:26-31 | a required string path with a `maxlength` fails exactly when it is empty or too long, with at most one error |
| Schema.EnumErrors | src/models/Project.model.ts:37-42 | a required enum path fails exactly when it is empty or not one of the listed values |
| Schema.EnumOnlyErrors | src/models/Application.model.ts:41-45 | an enum path with a default fails exactly when the value is not listed |
| Schema.NumberErrors | src/models/Project.model.ts:61-66 | a required number with `min`/`max` fails exactly when it is missing or out of range |
| Schema.ElementErrors | src/models/Project.model.ts:94-98 | an array of required strings fails exactly when some element is empty or too long, with at most one error per element |
| Schema.OptString | src/models/User.model.ts:25-30 | under update validators, a string path is checked only when supplied: it must be non-empty and within its length |
| Schema.OptEnum | src/models/User.model.ts:43-48 | under update validators, a supplied enum value must be non-empty and listed |
| Schema.OptElements | src/models/Project.model.ts:53-56 | under update validators, a supplied array must have non-empty elements within length |
| Schema.OptRange | src/models/User.model.ts:61-66 | under update validators, a supplied number must lie in its range |
| Schema.MaxLengthErrors | src/models/User.model.ts:57-60 | an optional string path fails exactly when it is longer than its `maxlength` |
| Schema.OptMaxLength | src/models/User.model.ts:67-74 | under update validators, a supplied optional string must be within its `maxlength` |
| ProjectModel.DraftErrors | src/models/Project.model.ts:25-116 | a new project passes validation exactly when its capacity is given and every field lies within the schema |
| ProjectModel.SchemaErrors | src/models/Project.model.ts:25-116 | a stored project has no validator errors exactly when it lies within the schema |
| ProjectModel.PreSave | src/models/Project.model.ts:128-134 | the pre-save hook passes exactly when the occupied seats do not exceed the capacity; otherwise it throws a plain error with no status or code |
| ProjectModel.SaveCheck | src/models/Project.model.ts:128-134 | `save()` validates the schema first, then runs the hook; a project is stored exactly when it is within the schema and not over capacity |
| ProjectModel.SaveRefusalReply | src/models/Project.model.ts:128-134 | a refused save is answered with 400 VALIDATION_ERROR listing every failing path, or 500 INTERNAL_SERVER_ERROR when only the hook refused |
| ProjectModel.CreateCheck | src/controllers/projects.controller.ts:126 | `Project.create` refuses a body with no capacity with a ValidationError, and otherwise behaves as `save()` |
| ProjectModel.SavedProjectIsWithinCapacity | src/models/Project.model.ts:61-73 | every saved project has 1 <= currentTeam <= teamSize <= 50 |
| ApplicationModel.SchemaErrors | src/models/Application.model.ts:25-45 | an application has no validator errors exactly when it lies within the schema |
| ApplicationModel.SaveCheck | src/models/Application.model.ts:14-47 | an application is stored exactly when it lies within the schema; otherwise a ValidationError listing the failing paths |
| ApplicationModel.SaveRefusalReply | src/middleware/error.ts:34-47 | a refused application is answered with 400 VALIDATION_ERROR listing every failing path |
| Validate.StripProject | src/utils/validate.ts:28-43 | parsing a project body drops `_id`, `ownerId`, `createdAt`, `currentTeam` and `teamMembers` and keeps every declared field unchanged |
| Validate.CreatePartsAreUpdates | src/utils/validate.ts:45 | any subset of the fields of a valid creation body is a valid update body |
| Validate.StripUser | src/utils/validate.ts:12-20 | parsing a profile body drops `_id`, `email`, `password`, `passwordHash`, `avatar` and `createdAt` and keeps the rest unchanged |
| Validate.UpdatableRolesOmitDefault | src/utils/validate.ts:19 | the profile schema accepts a role exactly when it is an account role other than the default junior role |
| Validate.ParseFilters | src/utils/validate.ts:60-70 | an accepted listing query has page >= 1 and 1 <= limit <= 100 when given, and keeps sort and status as they were |
| Validate.PageNumeral | src/utils/validate.ts:67-68 | a decimal page is accepted exactly when it is not zero; a decimal limit exactly when it is between 1 and 100 |
| Validate.IssueDetails | src/utils/validate.ts:85-89 | one detail per zod issue, in order, with the path joined by dots |
| Validate.ValidationFailureReply | src/utils/validate.ts:91-96 | a failed parse reaches the client as 400 with the code of the part that failed (body, query or params) and one detail per issue, whose field splits back on '.' into the issue's path |
| Store.FindById | src/controllers/projects.controller.ts:100 | `findById` throws a CastError exactly when the id is not an ObjectId, and finds a document exactly when one has that id |
| Store.Update | src/controllers/projects.controller.ts:149-153 | an update by id replaces the fields of that document only, keeps ids, stamps and order |
| Store.Delete | src/controllers/projects.controller.ts:170 | deleting by id removes exactly the documents with that id, keeps the rest in order, and shortens the collection by one when the id was present |
| Store.InsertFresh | src/controllers/projects.controller.ts:126 | a document stamped with the clock gets an unused id and keeps the collection ordered |
| Store.Db.constructor | scripts/migrate.ts:41-46 | an empty database is consistent |
| Store.Db.InsertProject | src/controllers/projects.controller.ts:126 | `Project.create` appends the project under the next fresh id and stamp, and nothing else changes |
| Store.Db.SaveProject | src/controllers/projects.controller.ts:205-207 | `project.save()` replaces the stored fields of that project only, and the database stays consistent |
| Store.Db.RemoveProject | src/controllers/projects.controller.ts:170 | `findByIdAndDelete` removes that project only |
| Store.Db.InsertApplication | src/controllers/applications.controller.ts:26-32 | `Application.create` appends the application under the next fresh id and stamp |
| Store.Db.SaveApplication | src/controllers/applications.controller.ts:85-86 | `application.save()` replaces the fields of that application only |
| Store.Db.InsertUser | scripts/migrate.ts:105 | `newUser.save()` appends the account under the next fresh id and stamp |
| Store.Db.Clear | scripts/migrate.ts:41-46 | `deleteMany({})` empties the three collections and keeps the clock, so later ids stay fresh |
| Store.Db.SaveUser | src/controllers/users.controller.ts:30-34 | an update of a user replaces that account's fields only |
| Roles.RequireRole | src/middleware/roles.ts:14-37 | no caller gives 401; a caller passes exactly when their role is listed, otherwise 403 |
| Roles.RequireProjectOwnership | src/middleware/roles.ts:40-89 | no caller gives 401; a malformed id gives 500; a missing project gives 404; access is granted exactly when the project exists and the caller is an admin or its owner, and the loaded project is passed on |
| Roles.RequireSelfOrAdmin | src/middleware/roles.ts:92-120 | no caller gives 401; a caller passes exactly when they are an admin or the requested id is their own id's text, otherwise 403 |
| Roles.RespelledOwnProfileIsDenied | src/middleware/roles.ts:104-116 | a user who is not an admin and spells their own id otherwise is refused with 403 PROFILE_ACCESS_DENIED |
| Roles.RequireProjectCreationRole | src/middleware/roles.ts:123-145 | no caller gives 401; a caller passes exactly when they are a team lead, a customer or an admin, otherwise 403 |
| Roles.StatusChangeDenied | src/controllers/applications.controller.ts:80-82 | the status change is allowed exactly to a signed-in admin or the project's owner |
| Query.Where | src/controllers/applications.controller.ts:54 | `find(filter)` returns exactly the documents that match, and only those |
| Query.WhereOrdered | src/controllers/applications.controller.ts:54 | a filtered collection keeps insertion order |
| Query.SortDocsSorted | src/controllers/projects.controller.ts:78 | `sort` yields a permutation of its input ordered by the requested key and direction |
| Query.NewestFirstReverses | src/controllers/applications.controller.ts:56 | sorting by `createdAt: -1` reverses insertion order |
| Query.NewestMatchesFirst | src/controllers/applications.controller.ts:54-56 | a filtered, newest-first list holds every match and nothing else, newest first |
| Query.Window | src/controllers/projects.controller.ts:79-80 | `skip(n).limit(m)` keeps at most m documents, the ones that follow the first n, in order |
| Query.PageCountIsCeiling | src/controllers/projects.controller.ts:91 | `Math.ceil(total / limit)`: the pages cover all matches and the last page is not empty |
| Query.PageOf | src/controllers/projects.controller.ts:56 | the k-th match lies on page k / limit + 1, which is within the page count |
| Search.FilterOf | src/controllers/projects.controller.ts:21-51 | only truthy query fields become filter conditions; an owner filter is set exactly when a non-empty owner id is given |
| Search.FilterMeaning | src/controllers/projects.controller.ts:21-51 | a project matches the built filter exactly when it meets every condition the query asks for |
| Search.ParseSort | src/controllers/projects.controller.ts:59-67 | a leading '-' means descending, and the sort key is the rest of the string |
| Search.BuildFilter | src/controllers/projects.controller.ts:21-51 | the filter built step by step is the filter the query means |
| Search.GetProjects | src/controllers/projects.controller.ts:7-94 | `getProjects` answers with the listing the query means, on the current projects |
| Search.MatchingCount | src/controllers/projects.controller.ts:83 | `countDocuments(filter)` is the number of projects the query selects |
| Search.RunQueryIsOnePage | src/controllers/projects.controller.ts:75-92 | the reply holds at most `limit` projects, each stored and matching; `total` is the match count and `pages` its ceiling |
| Search.ListingFailsOnlyOnCast | src/controllers/projects.controller.ts:39-41 | the listing fails only when the owner id is not an ObjectId, and then with a CastError |
| Search.ListingIsOnePage | src/controllers/projects.controller.ts:15-91 | with the defaults page 1 and limit 20, the reply is one page of selected projects with the right total and page count |
| Search.MatchIsOnItsPage | src/controllers/projects.controller.ts:54-56 | every matching project appears on some page |
| Search.AskForPage | src/controllers/projects.controller.ts:54-56 | asking for page n with the same filters returns that page |
| Search.EveryMatchIsOnAPage | src/controllers/projects.controller.ts:54-91 | every selected project can be reached by asking for some page number |
| Search.DefaultListingIsNewestFirst | src/controllers/projects.controller.ts:15-17 | without sort or paging, the listing holds the twenty newest matches, newest first |
| Search.CommaListsMatchAnyEntry | src/controllers/projects.controller.ts:44-51 | a comma-separated `neededRoles` or `tech` selects projects sharing at least one entry with each list |
| Projects.CreateProjectOutcome | src/controllers/projects.controller.ts:114-135 | a caller is required; the new project belongs to the caller, who holds its only seat, whatever the body says; it is stored exactly when `save()` accepts it |
| Projects.AssembledFromBody | src/controllers/projects.controller.ts:119-124 | a project assembled from a body that lies within the schema carries the body's fields, the name trimmed, with the schema defaults for a missing status and missing arrays |
| Projects.CreatedFieldsComeFromBody | src/controllers/projects.controller.ts:119-126 | every stored field other than owner, seats and members is the body's, and every required string was sent |
| Projects.CreatedProjectSeeksTeam | src/models/Project.model.ts:37-42 | a project created without a status is stored as looking for a team |
| Projects.CreateIgnoresProtectedFields | src/controllers/projects.controller.ts:119-124 | the owner, seat and member fields of the body have no effect |
| Projects.AcceptedBodyIsCreated | src/controllers/projects.controller.ts:114-135 | a body the creation schema accepts is created, provided its name is not blank once trimmed and its array entries are non-empty |
| Projects.CreateProject | src/controllers/projects.controller.ts:114-135 | the handler answers as its outcome function and appends exactly the created project |
| Projects.GetProjectOutcome | src/controllers/projects.controller.ts:97-111 | the project with that id, 404 when none, 400 for a malformed id |
| Projects.PatchValidatorsDecide | src/controllers/projects.controller.ts:149-153 | on a project within the schema, the update validators pass exactly when the updated project is still within the schema |
| Projects.PatchErrorsByPath | src/controllers/projects.controller.ts:149-153 | the update validators pass exactly when every supplied path passes its own validators |
| Projects.UpdateProjectOutcome | src/controllers/projects.controller.ts:138-164 | the update keeps the id, stamp, owner, seats and members; every other supplied field overwrites the stored one; unknown ids give 404 |
| Projects.UpdateIgnoresProtectedFields | src/controllers/projects.controller.ts:143-147 | the deleted keys have no effect on an update |
| Projects.UpdateKeepsSchema | src/controllers/projects.controller.ts:149-153 | updates keep stored projects within the schema |
| Projects.UpdateProject | src/controllers/projects.controller.ts:138-164 | the handler answers as its outcome function and saves exactly the updated project |
| Projects.DeleteProjectOutcome | src/controllers/projects.controller.ts:167-176 | 204 when the project existed, 404 otherwise |
| Projects.DeleteProject | src/controllers/projects.controller.ts:167-176 | the handler answers as its outcome function and removes exactly that project |
| Projects.Admit | src/controllers/projects.controller.ts:195-207 | membership (by text, `includes`) is checked before the free seat (`currentTeam >= teamSize`); a successful admission appends the cast id and takes one seat |
| Projects.AddTeamMemberOutcome | src/controllers/projects.controller.ts:179-216 | user, then project, then membership, then capacity; any refusal leaves the project unchanged |
| Projects.AdmitKeepsTeamBalance | src/controllers/projects.controller.ts:205-207 | a successful admission adds exactly the new member and exactly one seat, and keeps seats and members in agreement |
| Projects.AdmitSucceedsWhenSeatFree | src/controllers/projects.controller.ts:195-207 | a project within the schema admits a user not found among its members whenever a whole seat is free (`currentTeam + 1 <= teamSize`) |
| Projects.FractionalSeatEndsInHook | src/controllers/projects.controller.ts:200-207 | with a fractional capacity less than one seat above the occupied seats, the seat check passes, the pre-save hook refuses the save, and the client gets 500 INTERNAL_SERVER_ERROR |
| Projects.RespelledMemberIsAddedAgain | src/controllers/projects.controller.ts:195-206 | a member's id spelled otherwise is not found by `includes`, so it is pushed again and the member holds two entries and two seats |
| Projects.AppendedCount | src/controllers/projects.controller.ts:205 | appending an id already listed raises its count by one, to at least two |
| Projects.AdmitMember | src/controllers/projects.controller.ts:195-207 | the method admits as `Admit` says and saves the result |
| Projects.AddTeamMember | src/controllers/projects.controller.ts:179-216 | the handler answers as its outcome function and saves exactly the admitted project |
| Projects.MemberIndex | src/controllers/projects.controller.ts:228 | `findIndex` on text: the first member whose id is spelled exactly as requested, or -1 when none; a malformed id or another spelling of a member's id matches nobody |
| Projects.RemoveAt | src/controllers/projects.controller.ts:239 | `splice(i, 1)` removes entry i: the entries before it stay in place and those after it move down by one |
| Projects.Dismiss | src/controllers/projects.controller.ts:228-241 | membership is checked before ownership, both by text; a dismissal removes the first entry for that user and frees one seat |
| Projects.RespelledMemberIsNotFound | src/controllers/projects.controller.ts:228-231 | a member's id spelled otherwise is answered with 404 USER_NOT_MEMBER |
| Projects.RemoveTeamMemberOutcome | src/controllers/projects.controller.ts:219-250 | project, then membership, then the owner check; a refusal leaves the project unchanged |
| Projects.LeftKeepsBalance | src/controllers/projects.controller.ts:239-240 | removing one entry and one seat keeps the unlisted seats and the owner's seat |
| Projects.DismissKeepsTeamBalance | src/controllers/projects.controller.ts:239-241 | a dismissal removes exactly the first entry for that user and one seat, and the owner keeps their seat |
| Projects.AbsentOwnerIsNotAMember | src/controllers/projects.controller.ts:228-236 | removing an owner who is not listed reports USER_NOT_MEMBER, not CANNOT_REMOVE_OWNER |
| Projects.DismissMember | src/controllers/projects.controller.ts:228-241 | the method dismisses as `Dismiss` says and saves the result |
| Projects.RemoveTeamMember | src/controllers/projects.controller.ts:219-250 | the handler answers as its outcome function and saves exactly the dismissed project |
| Projects.CapacityCanDropBelowSeats | src/controllers/projects.controller.ts:149-153 | an update can set the capacity below the seats already taken |
| Projects.ShrunkTeamIsStuck | src/controllers/projects.controller.ts:200-202 | such a project admits nobody, and dismissals are refused by the pre-save hook while the seats still exceed the capacity |
| Applications.CreateApplicationOutcome | src/controllers/applications.controller.ts:7-41 | the project must exist; the application names the caller when signed in; it is stored exactly when `create` accepts it |
| Applications.CallerNameOverridesBody | src/controllers/applications.controller.ts:17-23 | for a signed-in caller the stored name is the account's name, whatever the body says |
| Applications.AnonymousApplicationIsStored | src/controllers/applications.controller.ts:26-32 | an anonymous, schema-valid application for an existing project is stored with no account, the body's fields and status `new` |
| Applications.CreateApplication | src/controllers/applications.controller.ts:7-41 | the handler answers as its outcome function and appends exactly the stored application |
| Applications.ProjectApplications | src/controllers/applications.controller.ts:44-61 | 404 when the project is missing, else its applications |
| Applications.ProjectApplicationsAreNewestFirst | src/controllers/applications.controller.ts:54-56 | the list holds every application of the project and nothing else, newest first |
| Applications.UserApplications | src/controllers/applications.controller.ts:98-110 | 401 without a caller, else the caller's applications |
| Applications.UserApplicationsAreNewestFirst | src/controllers/applications.controller.ts:103-105 | every application filed from the caller's account and nothing else, newest first |
| Applications.Review | src/controllers/applications.controller.ts:80-86 | only an admin or the owner sets the status; nothing else about the application changes |
| Applications.UpdateStatusOutcome | src/controllers/applications.controller.ts:64-95 | the application, then its project, must exist; then the review |
| Applications.AnyStatusToAnyStatus | src/controllers/applications.controller.ts:85-86 | an admin or the owner may move an application from any status to any status |
| Applications.UnknownStatusIsRefused | src/models/Application.model.ts:41-45 | exactly the statuses outside the four are refused, with a 400 |
| Applications.ReviewApplication | src/controllers/applications.controller.ts:80-86 | the method reviews as `Review` says and saves the application in place |
| Applications.UpdateApplicationStatus | src/controllers/applications.controller.ts:64-95 | the handler answers as its outcome function and saves exactly the reviewed application |
| Users.GetUserOutcome | src/controllers/users.controller.ts:6-17 | the user with that id, 404 when none, 400 for a malformed id |
| Users.Unprotected | src/controllers/users.controller.ts:25-28 | `email`, `passwordHash`, `_id` and `createdAt` are removed and every other key is kept |
| Users.ApplyProfile | src/controllers/users.controller.ts:30-38 | the id must cast, the supplied paths must pass their validators, and the user must exist |
| Users.UpdateKeepsIdentity | src/controllers/users.controller.ts:20-43 | an update never changes id, stamp or email; every other supplied field overwrites, the name trimmed as the schema's setter does; unknown ids give 404 |
| Users.PasswordOnlyGuardedBySchema | src/controllers/users.controller.ts:25-28 | the handler does not strip `password`, but the update schema drops it before it reaches the handler |
| Users.SelfPromotionToAdmin | src/utils/validate.ts:19 | any user may make their own account an admin |
| Users.UpdateUser | src/controllers/users.controller.ts:20-43 | the handler answers as its outcome function and saves exactly the updated account |
| Routes.BearerToken | src/middleware/auth.ts:22-23 | the token is the second space-separated piece of the header, when non-empty |
| Routes.BearerRoundTrip | src/middleware/auth.ts:22-23 | the header `<scheme> <token>` yields exactly that token |
| Routes.Authenticate | src/middleware/auth.ts:20-74 | a request passes exactly with the account a valid token names; a missing token, a refused token or an unknown account gives 401; a malformed id in the token gives 500 |
| Routes.OptionalAuth | src/middleware/auth.ts:88-105 | the account a valid token names, or anonymous on any failure |
| Routes.OptionalAuthIsLenient | src/middleware/auth.ts:88-105 | the optional middleware finds a caller exactly when the strict one lets the request through, and the same account |
| Routes.ListProjectsRoute | src/routes/projects.routes.ts:34 | the query validator, then the listing, which does not depend on who asks; a malformed owner id is the only refusal, a 400 INVALID_ID |
| Routes.GetProjectRoute | src/routes/projects.routes.ts:37 | the path validator, then the lookup |
| Routes.CreateProjectRoute | src/routes/projects.routes.ts:40-46 | authentication, body validation, the creator-role guard, then creation; what is created belongs to the signed-in caller, who is a team lead, a customer or an admin |
| Routes.UpdateProjectRoute | src/routes/projects.routes.ts:49-56 | only an admin or the owner changes a project; owner, seats and members stay |
| Routes.DeleteProjectRoute | src/routes/projects.routes.ts:59-65 | only an admin or the owner deletes a project |
| Routes.AddTeamMemberRoute | src/routes/projects.routes.ts:68-75 | only an admin or the owner adds a member |
| Routes.RemoveTeamMemberRoute | src/routes/projects.routes.ts:78-84 | only an admin or the owner removes a member |
| Routes.CreateApplicationRoute | src/routes/applications.routes.ts:28-33 | a missing, refused or dangling token files the application anonymously |
| Routes.ProjectApplicationsRoute | src/routes/applications.routes.ts:36-42 | authentication, the path validator and the admin-only guard run before the listing |
| Routes.UpdateStatusRoute | src/routes/applications.routes.ts:45-51 | a status that gets through is one of the four, set by an admin or the project's owner |
| Routes.UserApplicationsRoute | src/routes/applications.routes.ts:54-58 | authentication, then the caller's own applications |
| Routes.GetUserRoute | src/routes/users.routes.ts:16 | any signed-in account may read any profile |
| Routes.UpdateUserRoute | src/routes/users.routes.ts:19-26 | only the account itself or an admin changes a profile; email and password never change |
| Routes.NoTokenIsRefusedFirst | src/middleware/auth.ts:25-32 | every route that needs a caller answers a request without a token with 401 MISSING_TOKEN, whatever its path and body |
| Routes.OwnerCannotListApplications | src/routes/applications.routes.ts:40 | a non-admin owner cannot list the applications of their own project |
| Routes.AdminListsApplications | src/routes/applications.routes.ts:36-42 | an admin lists every application of an existing project and nothing else, newest first |
| Routes.FailedTokenAppliesAnonymously | src/middleware/auth.ts:102-104 | a failed token files the application as an anonymous request does |
| Routes.SelfPromotionThroughRoute | src/routes/users.routes.ts:19-26 | any signed-in account can make itself an admin through the route |
| Text.Trim | src/models/Project.model.ts:29 | `trim` never lengthens a string |
| Text.TrimEnds | src/models/Project.model.ts:29 | a trimmed string neither starts nor ends with whitespace |
| Text.TrimSlice | src/models/Project.model.ts:29 | the trimmed string is the original with leading and trailing whitespace cut off |
| Text.TrimIdempotent | src/models/Project.model.ts:29 | trimming twice is trimming once |
| Text.Utf16Length | src/models/Project.model.ts:29-30 | a string's `length` counts UTF-16 code units: at least one and at most two per character |
| Text.Utf16LengthAppend | src/models/Project.model.ts:29-30 | the code-unit length of a concatenation is the sum of the lengths |
| Text.TrimUtf16Length | src/models/Project.model.ts:29-30 | trimming never lengthens a string in code units, so a trimmed name passes `maxlength` whenever the untrimmed one does |
| Text.BmpUtf16Length | src/models/Project.model.ts:29-30 | text within the Basic Multilingual Plane has one code unit per character |
| Text.AstralCharacterCountsTwice | src/models/Project.model.ts:29-30 | a character beyond the Basic Multilingual Plane, such as an emoji, counts twice against `maxlength` |
| Text.Split | src/controllers/projects.controller.ts:45 | `split(sep)` gives at least one piece, none containing the separator |
| Text.JoinSplit | src/controllers/projects.controller.ts:45 | joining the pieces with the separator gives back the string |
| Text.SplitJoin | src/controllers/projects.controller.ts:45 | splitting a join of separator-free pieces gives back the pieces |
| Numbers.LeadingDigits | scripts/migrate.ts:100 | the longest digit prefix of a string |
| Numbers.ParseIntReadsNumeral | scripts/migrate.ts:100 | `parseInt` reads back a decimal numeral followed by text that does not start with a digit; text starting with `0x`/`0X` and other radixes are not covered |
| Numbers.ParseIntReadsNegative | scripts/migrate.ts:100 | `parseInt` reads a '-' followed by a numeral as the negated number |
| Migrate.UserDocsMeaning | scripts/migrate.ts:88-107 | every legacy user is imported in order with the defaults (password, developer role, empty skills, parsed experience or 0); the schema's trim and lowercase setters are not applied |
| Migrate.UserMapKnowsAll | scripts/migrate.ts:106 | every legacy user id is in the map, and a later duplicate overwrites an earlier one |
| Migrate.UserMapSources | scripts/migrate.ts:106 | each mapped id is the saved id of a legacy user with that legacy id |
| Migrate.UserMapInjective | scripts/migrate.ts:106 | distinct legacy ids map to distinct new ids |
| Migrate.ImportUser | scripts/migrate.ts:89-106 | one turn of the loop hashes the password and appends exactly that account |
| Migrate.ImportUsers | scripts/migrate.ts:86-107 | the loop saves every legacy user in order and returns the map of new ids |
| Migrate.ResolvedAppend | scripts/migrate.ts:122-130 | resolving members keeps their order across concatenation |
| Migrate.ResolvedMeaning | scripts/migrate.ts:122-130 | exactly the known member ids are kept, mapped |
| Migrate.MapMembers | scripts/migrate.ts:122-130 | the member loop pushes exactly the mapped known members, in order |
| Migrate.MigratedSeats | scripts/migrate.ts:141-149 | a migrated project has one more seat than listed members; the owner is listed only if the legacy list named them |
| Migrate.StorableIsSaved | scripts/migrate.ts:152 | `save()` refuses exactly the projects that are outside the schema or over capacity |
| Migrate.ProjectFailureIsFinal | scripts/migrate.ts:152 | after a refused save the later projects change nothing |
| Migrate.ProjectCounts | scripts/migrate.ts:112-154 | saved projects take consecutive ids; a finished run saves one per project with a known owner; a stopped run was stopped by a refused project |
| Migrate.ProjectDocs | scripts/migrate.ts:132-153 | every saved project is within the schema, within capacity, and has one more seat than members |
| Migrate.ProjectMapCovers | scripts/migrate.ts:153 | the project map points only to saved projects and, after a finished run, covers every project with a known owner |
| Migrate.CapacityOverflowEndsRun | scripts/migrate.ts:140-152 | a project whose members plus owner exceed its capacity is refused with a 500 and ends the run |
| Migrate.ImportProject | scripts/migrate.ts:113-153 | one turn of the loop skips, saves or is refused, as the loop function says |
| Migrate.ImportProjects | scripts/migrate.ts:112-154 | the loop does what the project loop function says, stopping at the first refusal |
| Migrate.Applicant | scripts/migrate.ts:169-172 | the applicant is kept only when the legacy user id is set and known |
| Migrate.ApplicationFailureIsFinal | scripts/migrate.ts:183 | after a refused save the later applications change nothing |
| Migrate.ApplicationCounts | scripts/migrate.ts:159-186 | the counter counts exactly the saved applications; a finished run saves one per application whose project was imported |
| Migrate.ApplicationDocs | scripts/migrate.ts:174-184 | every saved application is within the schema, points to an imported project, and names an account only through the user map |
| Migrate.BareApplicationEndsRun | scripts/migrate.ts:177-180 | an application with nothing but a project gets empty role and message, is refused with a 400 and ends the run |
| Migrate.ImportApplication | scripts/migrate.ts:160-184 | one turn of the loop skips, saves and counts, or is refused, as the loop function says |
| Migrate.ImportApplications | scripts/migrate.ts:159-186 | the loop does what the application loop function says, stopping at the first refusal |
| Migrate.RefusalIsThrown | scripts/migrate.ts:197-198 | a run ends early only on a document `save()` really refuses |
| Migrate.ReportCounts | scripts/migrate.ts:188-195 | the report counts all legacy users and projects but only the imported applications; the projects exceed those imported by exactly those skipped |
| Migrate.ImportContent | scripts/migrate.ts:112-186 | the project loop, then the application loop unless a project was refused |
| Migrate.ResetWithUsers | scripts/migrate.ts:41-107 | the collections are emptied and the user loop runs |
| Migrate.MigrateData | scripts/migrate.ts:39-203 | the whole run ends with the report, or with the refused document and what was saved before it left in place |

## Left out

- Full-text search: `$text` is a parameter `textHit` of the listing, and the `textScore` relevance sort is not modelled.
- Sorting: keys other than `createdAt` and `name` compare equal, so they keep insertion order.
- `populate` and field projections: replies carry stored ids, not joined documents.
- The zod parsing machinery and its e-mail and URL checks: the schemas are predicates, the URL check is a parameter `isUrl`, and the issue list is an input to the validator middlewares.
- JWT verification is a parameter (a verdict on the token), and bcrypt hashing is the parameter `hash`. Neither is part of this model.
- Concurrency: each handler runs atomically, so the read-then-save race between two requests on one project is not modelled.
- The clock and ObjectIds: ids and creation stamps both come from a counter, and a malformed id is a separate key value.
- `parseInt` radix prefixes (`0x`) and other radixes; only base-10 parsing is modelled.
- JavaScript numbers: `teamSize` and `experience` are real numbers (`Base.Number`), so fractional values are modelled; NaN, the infinities and double rounding are not.
- Validate.ParseFilters: `page` and `limit` are natural numbers. The source converts the query text to a JavaScript number and then applies `parseInt` to that number's text, so a page of 10^21 or more (printed in exponent form) reads back as 1, and digits beyond 2^53 are rounded. Neither effect is modelled, and Search.ListingIsOnePage assumes the page as written.
- Validator messages: a ValidatorError carries the kind of the failing validator (`required`, `maxlength`, `enum`, `min`, `max`) instead of the message text Mongoose generates, so the `message` of each VALIDATION_ERROR detail is not the client's text.
- Id spellings: a request id that casts is either the id's own text or another spelling of it (`Base.Key`). Which strings cast, such as 24 hexadecimal digits in either case or 12-byte strings, is not modelled.
- User `skills` is kept as the string the migration assigns.
- Migration: the User schema validation and the unique e-mail index are not modelled; every imported account is saved. The legacy file reading, console logging, `process.exit` and closing the connection are left out. A refused save is modelled by the refused document standing in for the logged error.
- Migration: the dictionaries (roles, technologies, categories) are imported with `insertMany` (scripts/migrate.ts:60, 71 and 81), which validates every entry against its schema, so a refused entry ends the run before any user is imported. These imports and their counts in the report are not modelled.
- Migrate.MigratedUser: the script sets `passwordHash`, a path the User schema does not have, so strict mode drops it and the required `password` and `customId` stay unset. User validation is not modelled, so the model stores the hash as the account's `password` and saves every account.
- Migrate.MigratedUser: the User schema's setters (`trim` on `name`, `trim` and `lowercase` on `email`) are not applied to imported accounts; their names and e-mails are stored as given.
- Search.EveryMatchIsOnAPage: Query.SortDocs fixes one order for ties (a stable sort: projects with equal sort keys keep collection order, and keys other than `createdAt` and `name` compare equal). MongoDB promises no such order across separate paged requests, so with ties a project can be skipped between pages; the lemma holds only under the model's tie order.
- Errors.ErrorHandler: for a MongoServerError other than a duplicate key, the source sends the server's numeric `code` as a JSON number; the model carries it as its decimal text.
- The auth controller (login, logout, `me`), the Session model and the dictionary endpoints (roles, technologies, categories) are not part of this model.
- Text.Trim: its own contract states only that the result is no longer than the input; what trimming does is stated in Text.TrimEnds, Text.TrimSlice and Text.TrimIdempotent.
