/** The database the handlers work against: three collections of documents, each kept in
    insertion order, and the clock that stamps new documents. */
module Store {
  import opened Base
  import UserModel
  import ProjectModel
  import ApplicationModel

  /** A stored document: its id and creation stamp (set by the database), and its fields. */
  datatype Doc<T> = Doc(id: Id, createdAt: nat, fields: T)

  type Collection<T> = seq<Doc<T>>

  /** Insertion order: ids are distinct and creation stamps strictly increase. */
  predicate Ordered<T>(c: Collection<T>) {
    forall i, j :: 0 <= i < j < |c| ==> c[i].createdAt < c[j].createdAt && c[i].id != c[j].id
  }

  /** Every id and stamp in `c` was handed out before `clock`. */
  predicate Before<T>(c: Collection<T>, clock: nat) {
    forall i :: 0 <= i < |c| ==> c[i].id < clock && c[i].createdAt < clock
  }

  predicate Contains<T>(c: Collection<T>, id: Id) {
    exists i :: 0 <= i < |c| && c[i].id == id
  }

  /** The index of the first document with the given id, or `|c|` when there is none. */
  function Position<T>(c: Collection<T>, id: Id): (r: nat)
    ensures r <= |c|
    ensures r < |c| ==> c[r].id == id
    ensures forall j :: 0 <= j < r ==> c[j].id != id
  {
    if |c| == 0 then 0
    else if c[0].id == id then 0
    else 1 + Position(c[1..], id)
  }

  /** The document with the given id, if any. */
  function Lookup<T>(c: Collection<T>, id: Id): (r: Option<Doc<T>>)
    ensures r.Some? <==> Contains(c, id)
    ensures r.Some? ==> r.value.id == id && r.value in c
  {
    var i := Position(c, id);
    if i < |c| then Some(c[i]) else None
  }

  /** What `findById` gives back for an id taken from a request. */
  datatype Fetch<T> = Hit(doc: Doc<T>) | Miss | CastError

  /** `findById(raw)`: a string that is not an ObjectId raises a CastError; otherwise the
      document with that id, or nothing. */
  function FindById<T>(c: Collection<T>, k: Key): (r: Fetch<T>)
    ensures r.CastError? <==> k.Malformed?
    ensures r.Hit? <==> k.Oid? && Contains(c, k.id)
    ensures r.Hit? ==> Denotes(r.doc.id, k) && r.doc in c
  {
    match k
    case Malformed(_) => CastError
    case Oid(id, _) => if Lookup(c, id).Some? then Hit(Lookup(c, id).value) else Miss
  }

  /** Saving new fields for an existing document: the document with that id gets `fields`,
      every other document stays as it was, and the order is kept. */
  function Update<T>(c: Collection<T>, id: Id, fields: T): (r: Collection<T>)
    requires Ordered(c)
    ensures |r| == |c| && Ordered(r)
    ensures forall i :: 0 <= i < |c| ==>
      r[i] == (if c[i].id == id then Doc(id, c[i].createdAt, fields) else c[i])
    ensures forall clock: nat :: Before(c, clock) ==> Before(r, clock)
  {
    var i := Position(c, id);
    if i < |c| then c[i := Doc(id, c[i].createdAt, fields)] else c
  }

  /** Deleting a document: the others stay, in their order. */
  function Delete<T>(c: Collection<T>, id: Id): (r: Collection<T>)
    requires Ordered(c)
    ensures Ordered(r)
    ensures forall j :: 0 <= j < |r| ==> r[j] in c && r[j].id != id
    ensures forall j :: 0 <= j < |c| && c[j].id != id ==> c[j] in r
    ensures Contains(c, id) ==> |r| == |c| - 1
    ensures !Contains(c, id) ==> r == c
  {
    var i := Position(c, id);
    if i < |c| then c[..i] + c[i + 1..] else c
  }

  /** Inserting a document stamped with the clock keeps the collection in order and below
      the advanced clock. */
  lemma InsertFresh<T>(c: Collection<T>, clock: nat, fields: T)
    requires Ordered(c) && Before(c, clock)
    ensures Ordered(c + [Doc(clock, clock, fields)])
    ensures Before(c + [Doc(clock, clock, fields)], clock + 1)
    ensures !Contains(c, clock)
  {
  }

  predicate ProjectsWithinSchema(c: Collection<ProjectModel.Project>) {
    forall i :: 0 <= i < |c| ==> ProjectModel.WithinSchema(c[i].fields)
  }

  predicate ApplicationsWithinSchema(c: Collection<ApplicationModel.Application>) {
    forall i :: 0 <= i < |c| ==> ApplicationModel.WithinSchema(c[i].fields)
  }

  /** The state the database keeps: collections in insertion order, every id and stamp taken
      from the clock, and every stored project and application within its schema. */
  predicate Consistent(users: Collection<UserModel.User>, projects: Collection<ProjectModel.Project>,
                       applications: Collection<ApplicationModel.Application>, clock: nat)
  {
    && Ordered(users) && Ordered(projects) && Ordered(applications)
    && Before(users, clock) && Before(projects, clock) && Before(applications, clock)
    && ProjectsWithinSchema(projects) && ApplicationsWithinSchema(applications)
  }

  /** The database: users, projects and applications, and the source of fresh ids and
      creation stamps (both taken from `clock`). */
  class Db {
    var users: Collection<UserModel.User>
    var projects: Collection<ProjectModel.Project>
    var applications: Collection<ApplicationModel.Application>
    var clock: nat

    ghost predicate Valid()
      reads this
    {
      Consistent(users, projects, applications, clock)
    }

    constructor ()
      ensures Valid()
      ensures users == [] && projects == [] && applications == [] && clock == 0
    {
      users := [];
      projects := [];
      applications := [];
      clock := 0;
    }

    /** `Project.create(fields)` once validation has passed: the new document takes the next
        id and stamp and goes to the end of the collection. */
    method InsertProject(fields: ProjectModel.Project) returns (doc: Doc<ProjectModel.Project>)
      requires Valid() && ProjectModel.WithinSchema(fields)
      modifies this
      ensures Valid()
      ensures doc == Doc(old(clock), old(clock), fields) && !Contains(old(projects), doc.id)
      ensures projects == old(projects) + [doc] && clock == old(clock) + 1
      ensures users == old(users) && applications == old(applications)
    {
      doc := Doc(clock, clock, fields);
      InsertFresh(projects, clock, fields);
      projects := projects + [doc];
      clock := clock + 1;
    }

    /** `project.save()` (or an update by id) once validation has passed. */
    method SaveProject(id: Id, fields: ProjectModel.Project)
      requires Valid() && ProjectModel.WithinSchema(fields)
      modifies this
      ensures Valid()
      ensures projects == Update(old(projects), id, fields)
      ensures users == old(users) && applications == old(applications) && clock == old(clock)
    {
      projects := Update(projects, id, fields);
    }

    /** `Project.findByIdAndDelete(id)`. */
    method RemoveProject(id: Id)
      requires Valid()
      modifies this
      ensures Valid()
      ensures projects == Delete(old(projects), id)
      ensures users == old(users) && applications == old(applications) && clock == old(clock)
    {
      var remaining := Delete(projects, id);
      assert forall j :: 0 <= j < |remaining| ==> remaining[j] in projects;
      projects := remaining;
    }

    /** `Application.create(fields)` once validation has passed. */
    method InsertApplication(fields: ApplicationModel.Application) returns (doc: Doc<ApplicationModel.Application>)
      requires Valid() && ApplicationModel.WithinSchema(fields)
      modifies this
      ensures Valid()
      ensures doc == Doc(old(clock), old(clock), fields) && !Contains(old(applications), doc.id)
      ensures applications == old(applications) + [doc] && clock == old(clock) + 1
      ensures users == old(users) && projects == old(projects)
    {
      doc := Doc(clock, clock, fields);
      InsertFresh(applications, clock, fields);
      applications := applications + [doc];
      clock := clock + 1;
    }

    /** `application.save()` once validation has passed. */
    method SaveApplication(id: Id, fields: ApplicationModel.Application)
      requires Valid() && ApplicationModel.WithinSchema(fields)
      modifies this
      ensures Valid()
      ensures applications == Update(old(applications), id, fields)
      ensures users == old(users) && projects == old(projects) && clock == old(clock)
    {
      applications := Update(applications, id, fields);
    }

    /** `new User(fields).save()`: the new document takes the next id and stamp and goes to
        the end of the collection. */
    method InsertUser(fields: UserModel.User) returns (doc: Doc<UserModel.User>)
      requires Valid()
      modifies this
      ensures Valid()
      ensures doc == Doc(old(clock), old(clock), fields) && !Contains(old(users), doc.id)
      ensures users == old(users) + [doc] && clock == old(clock) + 1
      ensures projects == old(projects) && applications == old(applications)
    {
      doc := Doc(clock, clock, fields);
      InsertFresh(users, clock, fields);
      users := users + [doc];
      clock := clock + 1;
    }

    /** `deleteMany({})` on every collection; the clock keeps running, so ids handed out
        later are still fresh. */
    method Clear()
      requires Valid()
      modifies this
      ensures Valid()
      ensures users == [] && projects == [] && applications == [] && clock == old(clock)
    {
      users := [];
      projects := [];
      applications := [];
    }

    /** An update of a user by id. */
    method SaveUser(id: Id, fields: UserModel.User)
      requires Valid()
      modifies this
      ensures Valid()
      ensures users == Update(old(users), id, fields)
      ensures projects == old(projects) && applications == old(applications) && clock == old(clock)
    {
      users := Update(users, id, fields);
    }
  }
}
