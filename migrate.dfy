/** The one-off import of the legacy JSON database: users first, then projects, then
    applications. Legacy ids are replaced by the ids the new database hands out, references
    are remapped through the maps built along the way, dangling references are dropped and
    missing fields get defaults. The first save the database refuses ends the whole run. */
module Migrate {
  import opened Base
  import opened Errors
  import Text
  import opened Store
  import opened UserModel
  import ProjectModel
  import ApplicationModel
  import opened Numbers

  // ---------------------------------------------------------------------------------------
  // The legacy records: ids are strings, and any field but the ids may be missing.

  datatype LegacyUser = LegacyUser(
    id: string,
    name: string,
    email: string,
    password: Option<string>,
    role: Option<string>,
    avatar: Option<string>,
    skills: Option<string>,
    bio: Option<string>,
    experience: Option<string>,
    location: Option<string>,
    portfolio: Option<string>)

  /** A legacy project; `teamMembers` is `None` when it is missing or not an array. */
  datatype LegacyProject = LegacyProject(
    id: string,
    name: Option<string>,
    description: Option<string>,
    status: Option<string>,
    lookingFor: Option<string>,
    category: Option<string>,
    tech: Option<seq<string>>,
    neededRoles: Option<seq<string>>,
    teamSize: Option<string>,
    budget: Option<string>,
    timeline: Option<string>,
    complexity: Option<string>,
    image: Option<string>,
    features: Option<seq<string>>,
    requirements: Option<seq<string>>,
    ownerId: string,
    teamMembers: Option<seq<string>>)

  datatype LegacyApplication = LegacyApplication(
    projectId: string,
    userId: Option<string>,
    name: Option<string>,
    role: Option<string>,
    message: Option<string>,
    status: Option<string>)

  datatype LegacyData = LegacyData(
    users: seq<LegacyUser>,
    projects: seq<LegacyProject>,
    applications: seq<LegacyApplication>)

  const DefaultPassword := "defaultPassword123"
  const Anonymous := "Аноним"

  // ---------------------------------------------------------------------------------------
  // Users

  /** The imported account: the legacy password (or the default one) hashed, the role
      defaulting to developer, skills to the empty string and experience to its parsed
      value or 0. */
  function MigratedUser(u: LegacyUser, hash: string -> string): User {
    User(u.name, u.email, hash(OrElse(u.password, DefaultPassword)), OrElse(u.role, Developer), u.avatar,
         OrElse(u.skills, ""), u.bio, ParsedOr(u.experience, 0) as real, u.location, u.portfolio)
  }

  /** The documents the user loop saves, one per legacy user, with consecutive ids from
      `clock`. */
  function UserDocs(legacy: seq<LegacyUser>, hash: string -> string, clock: nat): (docs: seq<Doc<User>>)
    ensures |docs| == |legacy|
  {
    if |legacy| == 0 then []
    else
      var n := |legacy| - 1;
      UserDocs(legacy[..n], hash, clock) + [Doc(clock + n, clock + n, MigratedUser(legacy[n], hash))]
  }

  /** `userMap`: every legacy user id to the id its account was saved under. */
  function UserMap(legacy: seq<LegacyUser>, clock: nat): map<string, Id> {
    if |legacy| == 0 then map[]
    else
      var n := |legacy| - 1;
      UserMap(legacy[..n], clock)[legacy[n].id := clock + n]
  }

  /** Every user is imported in order, with the defaults filled in. */
  lemma {:induction false} UserDocsMeaning(legacy: seq<LegacyUser>, hash: string -> string, clock: nat)
    ensures forall i :: 0 <= i < |legacy| ==>
      UserDocs(legacy, hash, clock)[i] == Doc(clock + i, clock + i, MigratedUser(legacy[i], hash))
  {
    if |legacy| > 0 {
      var n := |legacy| - 1;
      UserDocsMeaning(legacy[..n], hash, clock);
    }
  }

  /** Every legacy id is in the map, sent at least as far as the id saved for its last
      occurrence, since a later occurrence overwrites an earlier one. */
  lemma {:induction false} UserMapKnowsAll(legacy: seq<LegacyUser>, clock: nat)
    ensures forall i :: 0 <= i < |legacy| ==>
      legacy[i].id in UserMap(legacy, clock) && UserMap(legacy, clock)[legacy[i].id] >= clock + i
  {
    if |legacy| > 0 {
      var n := |legacy| - 1;
      var m := UserMap(legacy, clock);
      UserMapKnowsAll(legacy[..n], clock);
      forall i | 0 <= i < |legacy|
        ensures legacy[i].id in m && m[legacy[i].id] >= clock + i
      {
        if i < n && legacy[i].id != legacy[n].id {
          assert legacy[..n][i] == legacy[i];
        }
      }
    }
  }

  /** The map knows nothing else: each key is sent to the id saved for a legacy user with
      that id. */
  lemma {:induction false} UserMapSources(legacy: seq<LegacyUser>, clock: nat)
    ensures forall k :: k in UserMap(legacy, clock) ==>
      clock <= UserMap(legacy, clock)[k] < clock + |legacy| && legacy[UserMap(legacy, clock)[k] - clock].id == k
  {
    if |legacy| > 0 {
      var n := |legacy| - 1;
      var prev := UserMap(legacy[..n], clock);
      var m := UserMap(legacy, clock);
      UserMapSources(legacy[..n], clock);
      forall k | k in m
        ensures clock <= m[k] < clock + |legacy| && legacy[m[k] - clock].id == k
      {
        if k != legacy[n].id {
          assert k in prev && m[k] == prev[k];
          assert legacy[..n][prev[k] - clock] == legacy[prev[k] - clock];
        }
      }
    }
  }

  /** Distinct legacy ids are mapped to distinct new ids. */
  lemma UserMapInjective(legacy: seq<LegacyUser>, clock: nat, a: string, b: string)
    requires a in UserMap(legacy, clock) && b in UserMap(legacy, clock) && a != b
    ensures UserMap(legacy, clock)[a] != UserMap(legacy, clock)[b]
  {
    UserMapSources(legacy, clock);
  }

  /** One turn of the user loop: hash the password, save the account. */
  method ImportUser(db: Db, user: LegacyUser, hash: string -> string) returns (id: Id)
    requires db.Valid()
    modifies db
    ensures db.Valid()
    ensures id == old(db.clock) && db.clock == old(db.clock) + 1
    ensures db.users == old(db.users) + [Doc(id, id, MigratedUser(user, hash))]
    ensures db.projects == old(db.projects) && db.applications == old(db.applications)
  {
    var passwordHash := hash(OrElse(user.password, DefaultPassword));
    var fields := User(user.name, user.email, passwordHash, OrElse(user.role, Developer), user.avatar,
                       OrElse(user.skills, ""), user.bio, ParsedOr(user.experience, 0) as real, user.location, user.portfolio);
    var saved := db.InsertUser(fields);
    id := saved.id;
  }

  lemma UsersPrefixStep(legacy: seq<LegacyUser>, hash: string -> string, clock: nat, i: nat)
    requires i < |legacy|
    ensures UserDocs(legacy[..i + 1], hash, clock) ==
      UserDocs(legacy[..i], hash, clock) + [Doc(clock + i, clock + i, MigratedUser(legacy[i], hash))]
    ensures UserMap(legacy[..i + 1], clock) == UserMap(legacy[..i], clock)[legacy[i].id := clock + i]
  {
    assert legacy[..i + 1][..i] == legacy[..i];
  }

  /** The user loop: save every legacy user and remember the new id of each. */
  method ImportUsers(db: Db, legacy: seq<LegacyUser>, hash: string -> string) returns (userMap: map<string, Id>)
    requires db.Valid()
    modifies db
    ensures db.Valid()
    ensures db.users == old(db.users) + UserDocs(legacy, hash, old(db.clock))
    ensures db.clock == old(db.clock) + |legacy|
    ensures userMap == UserMap(legacy, old(db.clock))
    ensures db.projects == old(db.projects) && db.applications == old(db.applications)
  {
    userMap := map[];
    var i := 0;
    while i < |legacy|
      invariant 0 <= i <= |legacy|
      invariant db.Valid()
      invariant db.clock == old(db.clock) + i
      invariant db.users == old(db.users) + UserDocs(legacy[..i], hash, old(db.clock))
      invariant userMap == UserMap(legacy[..i], old(db.clock))
      invariant db.projects == old(db.projects) && db.applications == old(db.applications)
    {
      UsersPrefixStep(legacy, hash, old(db.clock), i);
      var id := ImportUser(db, legacy[i], hash);
      userMap := userMap[legacy[i].id := id];
      i := i + 1;
    }
    assert legacy[..i] == legacy;
  }

  // ---------------------------------------------------------------------------------------
  // Projects

  /** The legacy member ids that `userMap` knows, mapped, in their order. */
  function Resolved(ids: seq<string>, userMap: map<string, Id>): (r: seq<Id>)
    ensures |r| <= |ids|
  {
    if |ids| == 0 then []
    else
      var n := |ids| - 1;
      Resolved(ids[..n], userMap) + (if ids[n] in userMap then [userMap[ids[n]]] else [])
  }

  /** Resolving keeps the order: the members of a concatenation are the members of each part,
      one after the other. */
  lemma {:induction false} ResolvedAppend(a: seq<string>, b: seq<string>, userMap: map<string, Id>)
    ensures Resolved(a + b, userMap) == Resolved(a, userMap) + Resolved(b, userMap)
  {
    if |b| == 0 {
      assert a + b == a;
    } else {
      var n := |b| - 1;
      assert (a + b)[..|a + b| - 1] == a + b[..n];
      ResolvedAppend(a, b[..n], userMap);
    }
  }

  /** Exactly the mapped ids of the known members are kept. */
  lemma {:induction false} ResolvedMeaning(ids: seq<string>, userMap: map<string, Id>)
    ensures forall i :: 0 <= i < |ids| && ids[i] in userMap ==> userMap[ids[i]] in Resolved(ids, userMap)
    ensures forall x :: x in Resolved(ids, userMap) ==> exists i :: 0 <= i < |ids| && ids[i] in userMap && userMap[ids[i]] == x
  {
    if |ids| > 0 {
      var n := |ids| - 1;
      ResolvedMeaning(ids[..n], userMap);
      var r := Resolved(ids, userMap);
      forall x | x in r
        ensures exists i :: 0 <= i < |ids| && ids[i] in userMap && userMap[ids[i]] == x
      {
        if x in Resolved(ids[..n], userMap) {
          var i :| 0 <= i < n && ids[..n][i] in userMap && userMap[ids[..n][i]] == x;
          assert ids[i] == ids[..n][i];
        } else {
          assert ids[n] in userMap && userMap[ids[n]] == x;
        }
      }
    }
  }

  /** The member loop: every legacy member id that `userMap` knows is pushed, mapped. */
  method MapMembers(teamMembers: Option<seq<string>>, userMap: map<string, Id>) returns (members: seq<Id>)
    ensures members == Resolved(teamMembers.GetOr([]), userMap)
  {
    members := [];
    if teamMembers.Some? {
      var ids := teamMembers.value;
      var i := 0;
      while i < |ids|
        invariant 0 <= i <= |ids|
        invariant members == Resolved(ids[..i], userMap)
      {
        assert ids[..i + 1][..i] == ids[..i];
        if ids[i] in userMap {
          members := members + [userMap[ids[i]]];
        }
        i := i + 1;
      }
      assert ids[..i] == ids;
    }
  }

  /** The imported project: the owner and the members remapped, the owner not added to the
      members but counted in the occupied seats, and the defaults filled in (capacity 1,
      looking for a team, medium complexity). */
  function MigratedProject(p: LegacyProject, owner: Id, members: seq<Id>): ProjectModel.Project {
    ProjectModel.Project(
      Text.Trim(p.name.GetOr("")), p.description.GetOr(""), OrElse(p.status, ProjectModel.SeekingTeam),
      OrElse(p.lookingFor, ""), p.category.GetOr(""), p.tech.GetOr([]), p.neededRoles.GetOr([]),
      ParsedOr(p.teamSize, 1) as real, |members| + 1, OrElse(p.budget, ""), OrElse(p.timeline, ""),
      OrElse(p.complexity, ProjectModel.Medium), OrElse(p.image, ""), p.features.GetOr([]),
      p.requirements.GetOr([]), owner, members)
  }

  /** A migrated project holds one occupied seat more than it lists members, so the seat
      counter never agrees with the member list; the owner is listed only when the legacy
      member list names the owner. */
  lemma MigratedSeats(legacy: seq<LegacyUser>, clock: nat, p: LegacyProject)
    requires p.ownerId in UserMap(legacy, clock)
    ensures var m := UserMap(legacy, clock);
      var q := MigratedProject(p, m[p.ownerId], Resolved(p.teamMembers.GetOr([]), m));
      && q.currentTeam == |q.teamMembers| + 1
      && (q.ownerId in q.teamMembers <==> p.teamMembers.Some? && p.ownerId in p.teamMembers.value)
  {
    var m := UserMap(legacy, clock);
    var ids := p.teamMembers.GetOr([]);
    var q := MigratedProject(p, m[p.ownerId], Resolved(ids, m));
    ResolvedMeaning(ids, m);
    if q.ownerId in q.teamMembers {
      var i :| 0 <= i < |ids| && ids[i] in m && m[ids[i]] == q.ownerId;
      if ids[i] != p.ownerId {
        UserMapInjective(legacy, clock, ids[i], p.ownerId);
      }
    }
  }

  /** The projects `save()` accepts: within the schema, and not over capacity. */
  predicate Storable(p: ProjectModel.Project) {
    ProjectModel.WithinSchema(p) && p.currentTeam as real <= p.teamSize
  }

  /** `save()` refuses exactly the projects that are not storable: the schema validators or
      the pre-save hook throw. */
  lemma StorableIsSaved(p: ProjectModel.Project)
    ensures Storable(p) <==> ProjectModel.SaveCheck(p).None?
    ensures !Storable(p) ==> ProjectModel.SaveCheck(p).Some?
  {
  }

  /** Where the project loop stands: the project map, the saved documents, the clock, and
      the project whose save was refused, which ends the run. */
  datatype ProjectImport = ProjectImport(
    projectMap: map<string, Id>,
    docs: seq<Doc<ProjectModel.Project>>,
    clock: nat,
    refused: Option<ProjectModel.Project>)

  /** One turn of the project loop: after a refusal nothing more happens; a project whose
      owner is unknown is skipped; any other is saved, or its refusal ends the run. */
  function ProjectStep(acc: ProjectImport, p: LegacyProject, userMap: map<string, Id>): ProjectImport {
    if acc.refused.Some? || p.ownerId !in userMap then acc
    else
      var fields := MigratedProject(p, userMap[p.ownerId], Resolved(p.teamMembers.GetOr([]), userMap));
      if Storable(fields) then
        ProjectImport(acc.projectMap[p.id := acc.clock], acc.docs + [Doc(acc.clock, acc.clock, fields)], acc.clock + 1, None)
      else acc.(refused := Some(fields))
  }

  /** The project loop over the legacy projects, saving from `clock` on. */
  function ImportedProjects(legacy: seq<LegacyProject>, userMap: map<string, Id>, clock: nat): ProjectImport {
    if |legacy| == 0 then ProjectImport(map[], [], clock, None)
    else
      var n := |legacy| - 1;
      ProjectStep(ImportedProjects(legacy[..n], userMap, clock), legacy[n], userMap)
  }

  /** The number of legacy projects whose owner was imported. */
  function OwnedCount(legacy: seq<LegacyProject>, userMap: map<string, Id>): (n: nat)
    ensures n <= |legacy|
  {
    if |legacy| == 0 then 0
    else
      var n := |legacy| - 1;
      OwnedCount(legacy[..n], userMap) + (if legacy[n].ownerId in userMap then 1 else 0)
  }

  lemma ProjectsPrefixStep(legacy: seq<LegacyProject>, userMap: map<string, Id>, clock: nat, i: nat)
    requires i < |legacy|
    ensures ImportedProjects(legacy[..i + 1], userMap, clock) ==
      ProjectStep(ImportedProjects(legacy[..i], userMap, clock), legacy[i], userMap)
  {
    assert legacy[..i + 1][..i] == legacy[..i];
  }

  /** Once a save is refused the run is over: the later projects change nothing. */
  lemma {:induction false} ProjectFailureIsFinal(legacy: seq<LegacyProject>, userMap: map<string, Id>, clock: nat, i: nat)
    requires i <= |legacy|
    requires ImportedProjects(legacy[..i], userMap, clock).refused.Some?
    ensures ImportedProjects(legacy, userMap, clock) == ImportedProjects(legacy[..i], userMap, clock)
  {
    if i < |legacy| {
      var n := |legacy| - 1;
      assert legacy[..n][..i] == legacy[..i];
      ProjectFailureIsFinal(legacy[..n], userMap, clock, i);
    } else {
      assert legacy[..i] == legacy;
    }
  }

  /** The saved projects take consecutive ids from `clock`; a run that finishes saves one
      project per legacy project with a known owner, and a run that stops was stopped by a
      project `save()` refuses. */
  lemma {:induction false} ProjectCounts(legacy: seq<LegacyProject>, userMap: map<string, Id>, clock: nat)
    ensures var s := ImportedProjects(legacy, userMap, clock);
      && s.clock == clock + |s.docs|
      && |s.docs| <= OwnedCount(legacy, userMap)
      && (s.refused.None? ==> |s.docs| == OwnedCount(legacy, userMap))
      && (s.refused.Some? ==> !Storable(s.refused.value))
  {
    if |legacy| > 0 {
      ProjectCounts(legacy[..|legacy| - 1], userMap, clock);
    }
  }

  /** Every saved project has the id and stamp the clock handed out, lies within the schema,
      and holds no more seats than its capacity and one more than it lists members. */
  lemma {:induction false} ProjectDocs(legacy: seq<LegacyProject>, userMap: map<string, Id>, clock: nat)
    ensures var s := ImportedProjects(legacy, userMap, clock);
      forall j :: 0 <= j < |s.docs| ==>
        && s.docs[j].id == clock + j && s.docs[j].createdAt == clock + j
        && ProjectModel.WithinSchema(s.docs[j].fields)
        && s.docs[j].fields.currentTeam as real <= s.docs[j].fields.teamSize
        && s.docs[j].fields.currentTeam == |s.docs[j].fields.teamMembers| + 1
  {
    if |legacy| > 0 {
      ProjectCounts(legacy[..|legacy| - 1], userMap, clock);
      ProjectDocs(legacy[..|legacy| - 1], userMap, clock);
    }
  }

  /** The project map sends ids to saved projects only; after a finished run it knows every
      legacy project with a known owner. */
  lemma {:induction false} ProjectMapCovers(legacy: seq<LegacyProject>, userMap: map<string, Id>, clock: nat)
    ensures var s := ImportedProjects(legacy, userMap, clock);
      && (forall k :: k in s.projectMap ==> clock <= s.projectMap[k] < s.clock)
      && (s.refused.None? ==>
            forall i :: 0 <= i < |legacy| && legacy[i].ownerId in userMap ==> legacy[i].id in s.projectMap)
  {
    if |legacy| > 0 {
      var n := |legacy| - 1;
      ProjectCounts(legacy[..n], userMap, clock);
      ProjectMapCovers(legacy[..n], userMap, clock);
      var s := ImportedProjects(legacy, userMap, clock);
      if s.refused.None? {
        forall i | 0 <= i < |legacy| && legacy[i].ownerId in userMap
          ensures legacy[i].id in s.projectMap
        {
          if i < n {
            assert legacy[..n][i] == legacy[i];
          }
        }
      }
    }
  }

  /** A legacy project whose occupied seats (its known members plus the owner) exceed a
      capacity it otherwise meets is refused by the pre-save hook, which the error handler
      reports as a 500, and the run ends there. */
  lemma CapacityOverflowEndsRun(acc: ProjectImport, p: LegacyProject, userMap: map<string, Id>)
    requires acc.refused.None? && p.ownerId in userMap
    requires ProjectModel.WithinSchema(MigratedProject(p, userMap[p.ownerId], Resolved(p.teamMembers.GetOr([]), userMap)))
    requires |Resolved(p.teamMembers.GetOr([]), userMap)| + 1 > ParsedOr(p.teamSize, 1)
    ensures var fields := MigratedProject(p, userMap[p.ownerId], Resolved(p.teamMembers.GetOr([]), userMap));
      && ProjectStep(acc, p, userMap) == acc.(refused := Some(fields))
      && ProjectModel.SaveCheck(fields) == Some(AppError(Plain, ProjectModel.CapacityMessage, None, None, NoDetails))
      && ErrorHandler(ProjectModel.SaveCheck(fields).value).status == 500
  {
  }

  /** One turn of the project loop, on a database that holds `base` followed by what the
      loop saved so far: the project is skipped, saved, or refused. */
  method ImportProject(db: Db, project: LegacyProject, userMap: map<string, Id>, projectMap: map<string, Id>,
                       ghost base: Collection<ProjectModel.Project>, ghost before: ProjectImport)
    returns (projectMap': map<string, Id>, refused: Option<ProjectModel.Project>)
    requires db.Valid()
    requires before.refused.None? && before.projectMap == projectMap
    requires db.projects == base + before.docs && db.clock == before.clock
    modifies db
    ensures db.Valid()
    ensures var after := ProjectStep(before, project, userMap);
      && projectMap' == after.projectMap && refused == after.refused
      && db.projects == base + after.docs && db.clock == after.clock
    ensures db.users == old(db.users) && db.applications == old(db.applications)
  {
    projectMap', refused := projectMap, None;
    if project.ownerId !in userMap {
      return;
    }
    var ownerId := userMap[project.ownerId];
    var teamMembers := MapMembers(project.teamMembers, userMap);
    var fields := MigratedProject(project, ownerId, teamMembers);
    if !Storable(fields) {
      refused := Some(fields);
      return;
    }
    var saved := db.InsertProject(fields);
    projectMap' := projectMap[project.id := saved.id];
    assert db.projects == base + (before.docs + [saved]);
  }

  /** The project loop: skip a project without a known owner, map its members, save it,
      remember its new id; the first refused save ends the loop with that refusal. */
  method ImportProjects(db: Db, legacy: seq<LegacyProject>, userMap: map<string, Id>)
    returns (projectMap: map<string, Id>, refused: Option<ProjectModel.Project>)
    requires db.Valid()
    modifies db
    ensures db.Valid()
    ensures var s := ImportedProjects(legacy, userMap, old(db.clock));
      && projectMap == s.projectMap && refused == s.refused
      && db.projects == old(db.projects) + s.docs && db.clock == s.clock
    ensures db.users == old(db.users) && db.applications == old(db.applications)
  {
    projectMap := map[];
    var i := 0;
    while i < |legacy|
      invariant 0 <= i <= |legacy|
      invariant db.Valid()
      invariant var s := ImportedProjects(legacy[..i], userMap, old(db.clock));
        && s.refused.None? && projectMap == s.projectMap
        && db.projects == old(db.projects) + s.docs && db.clock == s.clock
      invariant db.users == old(db.users) && db.applications == old(db.applications)
    {
      ProjectsPrefixStep(legacy, userMap, old(db.clock), i);
      projectMap, refused := ImportProject(db, legacy[i], userMap, projectMap, old(db.projects),
                                           ImportedProjects(legacy[..i], userMap, old(db.clock)));
      if refused.Some? {
        ProjectFailureIsFinal(legacy, userMap, old(db.clock), i + 1);
        return;
      }
      i := i + 1;
    }
    assert legacy[..i] == legacy;
    refused := None;
  }

  // ---------------------------------------------------------------------------------------
  // Applications

  /** The imported application: the project remapped, the applicant's account only when the
      legacy user id is set and known, and the defaults filled in (an anonymous name, empty
      role and message, status `new`). */
  function MigratedApplication(a: LegacyApplication, projectId: Id, userId: Option<Id>)
    : ApplicationModel.Application
  {
    ApplicationModel.Application(
      projectId, userId,
      Text.Trim(OrElse(a.name, Anonymous)), OrElse(a.role, ""), OrElse(a.message, ""),
      OrElse(a.status, ApplicationModel.New))
  }

  /** The applicant's new id: only a set legacy user id that the user map knows is kept. */
  function Applicant(a: LegacyApplication, userMap: map<string, Id>): (r: Option<Id>)
    ensures r.Some? <==> Truthy(a.userId) && a.userId.value in userMap
    ensures r.Some? ==> r.value == userMap[a.userId.value]
  {
    if Truthy(a.userId) && a.userId.value in userMap then Some(userMap[a.userId.value]) else None
  }

  /** Where the application loop stands: the saved documents, the clock, the counter of
      imported applications, and the application whose save was refused, which ends the
      run. */
  datatype ApplicationImport = ApplicationImport(
    docs: seq<Doc<ApplicationModel.Application>>,
    clock: nat,
    imported: nat,
    refused: Option<ApplicationModel.Application>)

  /** One turn of the application loop: after a refusal nothing more happens; an application
      whose project was not imported is skipped; any other is saved and counted, or its
      refusal ends the run. */
  function ApplicationStep(acc: ApplicationImport, a: LegacyApplication, userMap: map<string, Id>,
                           projectMap: map<string, Id>): ApplicationImport
  {
    if acc.refused.Some? || a.projectId !in projectMap then acc
    else
      var fields := MigratedApplication(a, projectMap[a.projectId], Applicant(a, userMap));
      if ApplicationModel.WithinSchema(fields) then
        ApplicationImport(acc.docs + [Doc(acc.clock, acc.clock, fields)], acc.clock + 1, acc.imported + 1, None)
      else acc.(refused := Some(fields))
  }

  /** The application loop over the legacy applications, saving from `clock` on. */
  function ImportedApplications(legacy: seq<LegacyApplication>, userMap: map<string, Id>, projectMap: map<string, Id>,
                                clock: nat): ApplicationImport
  {
    if |legacy| == 0 then ApplicationImport([], clock, 0, None)
    else
      var n := |legacy| - 1;
      ApplicationStep(ImportedApplications(legacy[..n], userMap, projectMap, clock), legacy[n], userMap, projectMap)
  }

  /** The number of legacy applications whose project was imported. */
  function MappedCount(legacy: seq<LegacyApplication>, projectMap: map<string, Id>): (n: nat)
    ensures n <= |legacy|
  {
    if |legacy| == 0 then 0
    else
      var n := |legacy| - 1;
      MappedCount(legacy[..n], projectMap) + (if legacy[n].projectId in projectMap then 1 else 0)
  }

  lemma ApplicationsPrefixStep(legacy: seq<LegacyApplication>, userMap: map<string, Id>, projectMap: map<string, Id>,
                               clock: nat, i: nat)
    requires i < |legacy|
    ensures ImportedApplications(legacy[..i + 1], userMap, projectMap, clock) ==
      ApplicationStep(ImportedApplications(legacy[..i], userMap, projectMap, clock), legacy[i], userMap, projectMap)
  {
    assert legacy[..i + 1][..i] == legacy[..i];
  }

  /** Once a save is refused the run is over: the later applications change nothing. */
  lemma {:induction false} ApplicationFailureIsFinal(legacy: seq<LegacyApplication>, userMap: map<string, Id>,
                                                     projectMap: map<string, Id>, clock: nat, i: nat)
    requires i <= |legacy|
    requires ImportedApplications(legacy[..i], userMap, projectMap, clock).refused.Some?
    ensures ImportedApplications(legacy, userMap, projectMap, clock) == ImportedApplications(legacy[..i], userMap, projectMap, clock)
  {
    if i < |legacy| {
      var n := |legacy| - 1;
      assert legacy[..n][..i] == legacy[..i];
      ApplicationFailureIsFinal(legacy[..n], userMap, projectMap, clock, i);
    } else {
      assert legacy[..i] == legacy;
    }
  }

  /** The counter counts exactly the saved applications, which take consecutive ids from
      `clock`; a run that finishes saves one per legacy application whose project was
      imported, and a run that stops was stopped by an application `save()` refuses. */
  lemma {:induction false} ApplicationCounts(legacy: seq<LegacyApplication>, userMap: map<string, Id>,
                                             projectMap: map<string, Id>, clock: nat)
    ensures var s := ImportedApplications(legacy, userMap, projectMap, clock);
      && s.imported == |s.docs| && s.clock == clock + |s.docs|
      && s.imported <= MappedCount(legacy, projectMap)
      && (s.refused.None? ==> s.imported == MappedCount(legacy, projectMap))
      && (s.refused.Some? ==> !ApplicationModel.WithinSchema(s.refused.value))
  {
    if |legacy| > 0 {
      ApplicationCounts(legacy[..|legacy| - 1], userMap, projectMap, clock);
    }
  }

  /** Every saved application has the id the clock handed out, lies within the schema,
      points to a project the map knows, and names an account only through the user map. */
  lemma {:induction false} ApplicationDocs(legacy: seq<LegacyApplication>, userMap: map<string, Id>,
                                           projectMap: map<string, Id>, clock: nat)
    ensures var s := ImportedApplications(legacy, userMap, projectMap, clock);
      forall j :: 0 <= j < |s.docs| ==>
        && s.docs[j].id == clock + j
        && ApplicationModel.WithinSchema(s.docs[j].fields)
        && s.docs[j].fields.projectId in projectMap.Values
        && (s.docs[j].fields.userId.Some? ==> s.docs[j].fields.userId.value in userMap.Values)
  {
    if |legacy| > 0 {
      var n := |legacy| - 1;
      ApplicationCounts(legacy[..n], userMap, projectMap, clock);
      ApplicationDocs(legacy[..n], userMap, projectMap, clock);
      var a := legacy[n];
      if a.projectId in projectMap {
        assert projectMap[a.projectId] in projectMap.Values;
        if Truthy(a.userId) && a.userId.value in userMap {
          assert userMap[a.userId.value] in userMap.Values;
        }
      }
    }
  }

  /** The defaults of an application that has nothing but a project: anonymous, no account,
      status `new`, and an empty role and message, which the schema refuses with a 400, so
      such an application ends the run. */
  lemma BareApplicationEndsRun(acc: ApplicationImport, projectId: string, userMap: map<string, Id>,
                               projectMap: map<string, Id>)
    requires acc.refused.None? && projectId in projectMap
    ensures var a := LegacyApplication(projectId, None, None, None, None, None);
      var fields := ApplicationModel.Application(projectMap[projectId], None, Anonymous, "", "", ApplicationModel.New);
      && MigratedApplication(a, projectMap[projectId], Applicant(a, userMap)) == fields
      && ApplicationStep(acc, a, userMap, projectMap) == acc.(refused := Some(fields))
      && ApplicationModel.SaveCheck(fields).Some?
      && ErrorHandler(ApplicationModel.SaveCheck(fields).value).status == 400
  {
    var fields := ApplicationModel.Application(projectMap[projectId], None, Anonymous, "", "", ApplicationModel.New);
    assert Text.Trim(Anonymous) == Anonymous by {
      assert !Text.IsJsSpace(Anonymous[0]) && !Text.IsJsSpace(Anonymous[|Anonymous| - 1]);
    }
    ApplicationModel.SaveRefusalReply(fields);
  }

  /** One turn of the application loop, on a database that holds `base` followed by what
      the loop saved so far: the application is skipped, saved and counted, or refused. */
  method ImportApplication(db: Db, application: LegacyApplication, userMap: map<string, Id>,
                           projectMap: map<string, Id>, imported: nat,
                           ghost base: Collection<ApplicationModel.Application>, ghost before: ApplicationImport)
    returns (imported': nat, refused: Option<ApplicationModel.Application>)
    requires db.Valid()
    requires before.refused.None? && before.imported == imported
    requires db.applications == base + before.docs && db.clock == before.clock
    modifies db
    ensures db.Valid()
    ensures var after := ApplicationStep(before, application, userMap, projectMap);
      && imported' == after.imported && refused == after.refused
      && db.applications == base + after.docs && db.clock == after.clock
    ensures db.users == old(db.users) && db.projects == old(db.projects)
  {
    imported', refused := imported, None;
    if application.projectId !in projectMap {
      return;
    }
    var projectId := projectMap[application.projectId];
    var userId: Option<Id> := None;
    if Truthy(application.userId) && application.userId.value in userMap {
      userId := Some(userMap[application.userId.value]);
    }
    var fields := MigratedApplication(application, projectId, userId);
    if !ApplicationModel.WithinSchema(fields) {
      refused := Some(fields);
      return;
    }
    var saved := db.InsertApplication(fields);
    imported' := imported + 1;
    assert db.applications == base + (before.docs + [saved]);
  }

  /** The application loop: skip an application whose project was not imported, remap its
      applicant when known, save it and count it; the first refused save ends the loop. */
  method ImportApplications(db: Db, legacy: seq<LegacyApplication>, userMap: map<string, Id>, projectMap: map<string, Id>)
    returns (importedApplications: nat, refused: Option<ApplicationModel.Application>)
    requires db.Valid()
    modifies db
    ensures db.Valid()
    ensures var s := ImportedApplications(legacy, userMap, projectMap, old(db.clock));
      && importedApplications == s.imported && refused == s.refused
      && db.applications == old(db.applications) + s.docs && db.clock == s.clock
    ensures db.users == old(db.users) && db.projects == old(db.projects)
  {
    importedApplications := 0;
    var i := 0;
    while i < |legacy|
      invariant 0 <= i <= |legacy|
      invariant db.Valid()
      invariant var s := ImportedApplications(legacy[..i], userMap, projectMap, old(db.clock));
        && s.refused.None? && importedApplications == s.imported
        && db.applications == old(db.applications) + s.docs && db.clock == s.clock
      invariant db.users == old(db.users) && db.projects == old(db.projects)
    {
      ApplicationsPrefixStep(legacy, userMap, projectMap, old(db.clock), i);
      importedApplications, refused := ImportApplication(db, legacy[i], userMap, projectMap, importedApplications,
                                                         old(db.applications),
                                                         ImportedApplications(legacy[..i], userMap, projectMap, old(db.clock)));
      if refused.Some? {
        ApplicationFailureIsFinal(legacy, userMap, projectMap, old(db.clock), i + 1);
        return;
      }
      i := i + 1;
    }
    assert legacy[..i] == legacy;
    refused := None;
  }

  // ---------------------------------------------------------------------------------------
  // The whole run

  /** The statistics printed at the end: the legacy user and project counts, and the count
      of imported applications. */
  datatype Report = Report(users: nat, projects: nat, applications: nat)

  /** The document whose save was refused. The error `save()` throws is only logged, so the
      run is known by the document that ended it. */
  datatype Refusal = ProjectRefused(project: ProjectModel.Project) | ApplicationRefused(application: ApplicationModel.Application)

  /** The outcome of the project and application loops once the user map is built, with
      the clock at `clock`: the report, or the refused document that ended the run. */
  function ContentOutcome(data: LegacyData, userMap: map<string, Id>, clock: nat): Result<Report, Refusal> {
    var projects := ImportedProjects(data.projects, userMap, clock);
    if projects.refused.Some? then Err(ProjectRefused(projects.refused.value))
    else
      var applications := ImportedApplications(data.applications, userMap, projects.projectMap, projects.clock);
      if applications.refused.Some? then Err(ApplicationRefused(applications.refused.value))
      else Ok(Report(|data.users|, |data.projects|, applications.imported))
  }

  /** The outcome of a run on an emptied database whose clock stands at `clock`. */
  function MigrationOutcome(data: LegacyData, clock: nat): Result<Report, Refusal> {
    ContentOutcome(data, UserMap(data.users, clock), clock + |data.users|)
  }

  /** A run ends early only on a document `save()` really refuses: a project outside the
      schema or over capacity, or an application outside the schema. */
  lemma RefusalIsThrown(data: LegacyData, clock: nat)
    requires MigrationOutcome(data, clock).Err?
    ensures MigrationOutcome(data, clock).error.ProjectRefused? ==>
      !Storable(MigrationOutcome(data, clock).error.project)
    ensures MigrationOutcome(data, clock).error.ApplicationRefused? ==>
      !ApplicationModel.WithinSchema(MigrationOutcome(data, clock).error.application)
  {
    var userMap := UserMap(data.users, clock);
    var projects := ImportedProjects(data.projects, userMap, clock + |data.users|);
    if projects.refused.Some? {
      ProjectCounts(data.projects, userMap, clock + |data.users|);
    } else {
      ApplicationCounts(data.applications, userMap, projects.projectMap, projects.clock);
    }
  }

  /** The report counts every legacy project, skipped ones included, but only the
      applications actually imported: after a finished run, the projects it reports
      outnumber the imported ones by exactly the projects skipped for an unknown owner. */
  lemma ReportCounts(data: LegacyData, clock: nat)
    requires MigrationOutcome(data, clock).Ok?
    ensures var userMap := UserMap(data.users, clock);
      var projects := ImportedProjects(data.projects, userMap, clock + |data.users|);
      var applications := ImportedApplications(data.applications, userMap, projects.projectMap, projects.clock);
      var report := MigrationOutcome(data, clock).value;
      && report.users == |data.users|
      && report.projects == |data.projects|
      && report.projects - |projects.docs| == |data.projects| - OwnedCount(data.projects, userMap)
      && report.applications == |applications.docs| == MappedCount(data.applications, projects.projectMap)
  {
    var userMap := UserMap(data.users, clock);
    ProjectCounts(data.projects, userMap, clock + |data.users|);
    var projects := ImportedProjects(data.projects, userMap, clock + |data.users|);
    ApplicationCounts(data.applications, userMap, projects.projectMap, projects.clock);
  }

  /** The project loop and then, unless a project was refused, the application loop. */
  method ImportContent(db: Db, data: LegacyData, userMap: map<string, Id>) returns (r: Result<Report, Refusal>)
    requires db.Valid() && db.projects == [] && db.applications == []
    modifies db
    ensures db.Valid()
    ensures r == ContentOutcome(data, userMap, old(db.clock))
    ensures var projects := ImportedProjects(data.projects, userMap, old(db.clock));
      && db.projects == projects.docs
      && db.applications ==
           (if projects.refused.Some? then []
            else ImportedApplications(data.applications, userMap, projects.projectMap, projects.clock).docs)
    ensures db.users == old(db.users)
  {
    var projectMap, refusedProject := ImportProjects(db, data.projects, userMap);
    assert db.projects == ImportedProjects(data.projects, userMap, old(db.clock)).docs;
    if refusedProject.Some? {
      return Err(ProjectRefused(refusedProject.value));
    }
    var imported, refusedApplication := ImportApplications(db, data.applications, userMap, projectMap);
    assert db.applications == ImportedApplications(data.applications, userMap, projectMap, ImportedProjects(data.projects, userMap, old(db.clock)).clock).docs;
    if refusedApplication.Some? {
      return Err(ApplicationRefused(refusedApplication.value));
    }
    r := Ok(Report(|data.users|, |data.projects|, imported));
  }

  /** The whole run is the user loop followed by the project and application loops. */
  lemma OutcomeAfterUsers(data: LegacyData, clock: nat, userMap: map<string, Id>, r: Result<Report, Refusal>)
    requires userMap == UserMap(data.users, clock)
    requires r == ContentOutcome(data, userMap, clock + |data.users|)
    ensures r == MigrationOutcome(data, clock)
  {
  }

  /** `deleteMany({})` on every collection, then the user loop. */
  method ResetWithUsers(db: Db, legacy: seq<LegacyUser>, hash: string -> string) returns (userMap: map<string, Id>)
    requires db.Valid()
    modifies db
    ensures db.Valid()
    ensures db.users == UserDocs(legacy, hash, old(db.clock)) && db.projects == [] && db.applications == []
    ensures db.clock == old(db.clock) + |legacy|
    ensures userMap == UserMap(legacy, old(db.clock))
  {
    db.Clear();
    userMap := ImportUsers(db, legacy, hash);
  }

  /** `migrateData`: empty the collections, then import users, projects and applications
      in that order. A refused save ends the run with what was saved so far left in place
      and no report. */
  method MigrateData(db: Db, data: LegacyData, hash: string -> string) returns (r: Result<Report, Refusal>)
    requires db.Valid()
    modifies db
    ensures db.Valid()
    ensures r == MigrationOutcome(data, old(db.clock))
    ensures var userMap := UserMap(data.users, old(db.clock));
      var projects := ImportedProjects(data.projects, userMap, old(db.clock) + |data.users|);
      && db.users == UserDocs(data.users, hash, old(db.clock))
      && db.projects == projects.docs
      && db.applications ==
           (if projects.refused.Some? then []
            else ImportedApplications(data.applications, userMap, projects.projectMap, projects.clock).docs)
  {
    ghost var clock := db.clock;
    var userMap := ResetWithUsers(db, data.users, hash);
    r := ImportContent(db, data, userMap);
    OutcomeAfterUsers(data, clock, userMap, r);
  }
}
