/** The public project listing (`GET /projects`): a filter built from the truthy query
    parameters, a one-key sort read from the sort string, and page arithmetic. */
module Search {
  import opened Base
  import opened Errors
  import opened Store
  import opened Query
  import opened ProjectModel
  import opened Validate
  import Text

  const DefaultPage := 1
  const DefaultLimit := 20
  const DefaultSort := "-createdAt"

  /** The filter document: one condition per query parameter that was given and not empty.
      `text` is a `$text` search; `neededRoles` and `tech` are `$in` lists. */
  datatype Filter = Filter(
    text: Option<string>,
    category: Option<string>,
    status: Option<string>,
    ownerId: Option<Key>,
    neededRoles: Option<seq<string>>,
    tech: Option<seq<string>>)

  /** `{ field: { $in: wanted } }` on an array field: some element of the array is wanted. */
  predicate Overlaps(have: seq<string>, wanted: seq<string>) {
    exists i :: 0 <= i < |have| && have[i] in wanted
  }

  /** Whether a stored project satisfies every condition of the filter. The text index is not
      modelled: `textHit(q, p)` says whether `$text: { $search: q }` finds `p`. */
  predicate Matches(p: Project, f: Filter, textHit: (string, Project) -> bool) {
    && (f.text.Some? ==> textHit(f.text.value, p))
    && (f.category.Some? ==> p.category == f.category.value)
    && (f.status.Some? ==> p.status == f.status.value)
    && (f.ownerId.Some? ==> Denotes(p.ownerId, f.ownerId.value))
    && (f.neededRoles.Some? ==> Overlaps(p.neededRoles, f.neededRoles.value))
    && (f.tech.Some? ==> Overlaps(p.tech, f.tech.value))
  }

  /** What the listing promises, read off the query: every parameter that is present and not
      empty narrows the result; comma-separated lists match on any shared entry. */
  predicate Selected(query: ParsedQuery, p: Project, textHit: (string, Project) -> bool) {
    && (Truthy(query.q) ==> textHit(query.q.value, p))
    && (Truthy(query.category) ==> p.category == query.category.value)
    && (Truthy(query.status) ==> p.status == query.status.value)
    && (query.ownerId.Some? && NonEmptyKey(query.ownerId.value) ==> Denotes(p.ownerId, query.ownerId.value))
    && (Truthy(query.neededRoles) ==> Overlaps(p.neededRoles, Text.Split(query.neededRoles.value, ',')))
    && (Truthy(query.tech) ==> Overlaps(p.tech, Text.Split(query.tech.value, ',')))
  }

  /** The filter the handler builds from the query. */
  function FilterOf(query: ParsedQuery): (f: Filter)
    ensures f.ownerId.Some? <==> query.ownerId.Some? && NonEmptyKey(query.ownerId.value)
    ensures f.ownerId.Some? ==> f.ownerId == query.ownerId
  {
    Filter(
      if Truthy(query.q) then query.q else None,
      if Truthy(query.category) then query.category else None,
      if Truthy(query.status) then query.status else None,
      if query.ownerId.Some? && NonEmptyKey(query.ownerId.value) then query.ownerId else None,
      if Truthy(query.neededRoles) then Some(Text.Split(query.neededRoles.value, ',')) else None,
      if Truthy(query.tech) then Some(Text.Split(query.tech.value, ',')) else None)
  }

  /** A project matches the built filter exactly when the query selects it. */
  lemma FilterMeaning(query: ParsedQuery, p: Project, textHit: (string, Project) -> bool)
    ensures Matches(p, FilterOf(query), textHit) <==> Selected(query, p, textHit)
  {
  }

  /** A sort string: a leading `-` asks for descending order on the rest of the string. */
  function ParseSort(s: string): (r: SortSpec)
    ensures r.dir == Descending <==> |s| > 0 && s[0] == '-'
    ensures (if r.dir == Descending then "-" else "") + r.field == s
  {
    if |s| > 0 && s[0] == '-' then SortSpec(s[1..], Descending) else SortSpec(s, Ascending)
  }

  function ProjectName(p: Project): string {
    p.name
  }

  datatype Pagination = Pagination(page: nat, limit: nat, total: nat, pages: nat)

  /** The response body: one page of projects and where it sits among all matches. */
  datatype Listing = Listing(projects: seq<Doc<Project>>, pagination: Pagination)

  /** `find(filter)` over the projects. */
  function Matching(projects: Collection<Project>, f: Filter, textHit: (string, Project) -> bool): Collection<Project> {
    Where(projects, p => Matches(p, f, textHit))
  }

  /** `find(filter).sort(...).skip(...).limit(...)` and `countDocuments(filter)`, assembled
      into the response body. */
  function RunQuery(projects: Collection<Project>, filter: Filter, page: nat, limit: nat, spec: SortSpec,
                    textHit: (string, Project) -> bool): Listing
    requires page >= 1 && limit >= 1
  {
    var matching := Matching(projects, filter, textHit);
    Listing(Window(SortDocs(matching, spec, ProjectName), Skip(page, limit), limit),
            Pagination(page, limit, |matching|, PageCount(|matching|, limit)))
  }

  /** `getProjects` on a query that passed the filter schema. An owner id that is not an
      ObjectId makes the query fail with a CastError. */
  function ListProjects(projects: Collection<Project>, query: ProjectQuery, textHit: (string, Project) -> bool)
    : (r: Result<Listing, AppError>)
    requires FiltersOk(query)
  {
    var parsed := ParseFilters(query);
    var filter := FilterOf(parsed);
    if filter.ownerId.Some? && filter.ownerId.value.Malformed? then Err(CastFailure)
    else
      Ok(RunQuery(projects, filter, parsed.page.GetOr(DefaultPage), parsed.limit.GetOr(DefaultLimit),
                  ParseSort(parsed.sort.GetOr(DefaultSort)), textHit))
  }

  /** The filter document, built one condition at a time. */
  method BuildFilter(parsed: ParsedQuery) returns (filter: Filter)
    ensures filter == FilterOf(parsed)
  {
    filter := Filter(None, None, None, None, None, None);
    if Truthy(parsed.q) {
      filter := filter.(text := parsed.q);
    }
    if Truthy(parsed.category) {
      filter := filter.(category := parsed.category);
    }
    if Truthy(parsed.status) {
      filter := filter.(status := parsed.status);
    }
    if parsed.ownerId.Some? && NonEmptyKey(parsed.ownerId.value) {
      filter := filter.(ownerId := parsed.ownerId);
    }
    if Truthy(parsed.neededRoles) {
      filter := filter.(neededRoles := Some(Text.Split(parsed.neededRoles.value, ',')));
    }
    if Truthy(parsed.tech) {
      filter := filter.(tech := Some(Text.Split(parsed.tech.value, ',')));
    }
  }

  /** The handler: defaults for the missing parameters, the filter and the sort document,
      then the query and the count. */
  method GetProjects(db: Db, query: ProjectQuery, textHit: (string, Project) -> bool)
    returns (r: Result<Listing, AppError>)
    requires FiltersOk(query)
    ensures r == ListProjects(db.projects, query, textHit)
  {
    var parsed := ParseFilters(query);
    var page := if parsed.page.Some? then parsed.page.value else DefaultPage;
    var limit := if parsed.limit.Some? then parsed.limit.value else DefaultLimit;
    var sortStr := if parsed.sort.Some? then parsed.sort.value else DefaultSort;
    var filter := BuildFilter(parsed);
    var sortSpec: SortSpec;
    if |sortStr| > 0 && sortStr[0] == '-' {
      sortSpec := SortSpec(sortStr[1..], Descending);
    } else {
      sortSpec := SortSpec(sortStr, Ascending);
    }
    if filter.ownerId.Some? && filter.ownerId.value.Malformed? {
      return Err(CastFailure);
    }
    r := Ok(RunQuery(db.projects, filter, page, limit, sortSpec, textHit));
  }

  /** The number of stored projects the query selects. */
  function CountSelected(projects: Collection<Project>, query: ParsedQuery, textHit: (string, Project) -> bool): nat {
    if |projects| == 0 then 0
    else (if Selected(query, projects[0].fields, textHit) then 1 else 0) + CountSelected(projects[1..], query, textHit)
  }

  lemma {:induction false} MatchingCount(projects: Collection<Project>, query: ParsedQuery, textHit: (string, Project) -> bool)
    ensures |Matching(projects, FilterOf(query), textHit)| == CountSelected(projects, query, textHit)
  {
    if |projects| > 0 {
      MatchingCount(projects[1..], query, textHit);
    }
  }

  /** One page of the sorted matches: at most `limit` projects, each stored and matching the
      filter, in the requested order; `total` counts the matches and `pages` is the ceiling
      of `total / limit`. */
  lemma RunQueryIsOnePage(projects: Collection<Project>, filter: Filter, page: nat, limit: nat, spec: SortSpec,
                          textHit: (string, Project) -> bool)
    requires page >= 1 && limit >= 1
    ensures var l := RunQuery(projects, filter, page, limit, spec, textHit);
      && l.pagination.page == page && l.pagination.limit == limit
      && |l.projects| <= limit
      && (forall i :: 0 <= i < |l.projects| ==>
            l.projects[i] in projects && Matches(l.projects[i].fields, filter, textHit))
      && SortedBy(l.projects, spec, ProjectName)
      && l.pagination.total == |Matching(projects, filter, textHit)|
      && l.pagination.pages * limit >= l.pagination.total
      && (l.pagination.pages > 0 ==> (l.pagination.pages - 1) * limit < l.pagination.total)
  {
    var matching := Matching(projects, filter, textHit);
    var sorted := SortDocs(matching, spec, ProjectName);
    var l := RunQuery(projects, filter, page, limit, spec, textHit);
    SortDocsSorted(matching, spec, ProjectName);
    PageCountIsCeiling(|matching|, limit);
    forall i | 0 <= i < |l.projects|
      ensures l.projects[i] in projects && Matches(l.projects[i].fields, filter, textHit)
    {
      assert l.projects[i] in multiset(sorted);
      assert l.projects[i] in matching;
    }
  }

  /** The listing fails only on an owner id that is not an ObjectId, with a CastError. */
  lemma ListingFailsOnlyOnCast(projects: Collection<Project>, query: ProjectQuery, textHit: (string, Project) -> bool)
    requires FiltersOk(query)
    ensures ListProjects(projects, query, textHit).Err? <==>
      query.ownerId.Some? && query.ownerId.value.Malformed? && query.ownerId.value.raw != ""
    ensures ListProjects(projects, query, textHit).Err? ==> ListProjects(projects, query, textHit).error == CastFailure
  {
  }

  /** A successful listing under the query's page, limit and sort, or their defaults of page
      1, limit 20 and newest first: at most `limit` projects, each stored and selected by the
      query, in the requested order; `total` counts every selected project and `pages` is the
      ceiling of `total / limit`. */
  lemma ListingIsOnePage(projects: Collection<Project>, query: ProjectQuery, textHit: (string, Project) -> bool)
    requires FiltersOk(query) && ListProjects(projects, query, textHit).Ok?
    ensures var l := ListProjects(projects, query, textHit).value;
      var parsed := ParseFilters(query);
      && l.pagination.page == (if query.page.Some? then Text.DigitsValue(query.page.value) else 1)
      && l.pagination.limit == (if query.limit.Some? then Text.DigitsValue(query.limit.value) else 20)
      && 1 <= l.pagination.limit <= 100
      && |l.projects| <= l.pagination.limit
      && (forall i :: 0 <= i < |l.projects| ==>
            l.projects[i] in projects && Selected(parsed, l.projects[i].fields, textHit))
      && SortedBy(l.projects, ParseSort(parsed.sort.GetOr("-createdAt")), ProjectName)
      && l.pagination.total == CountSelected(projects, parsed, textHit)
      && l.pagination.pages * l.pagination.limit >= l.pagination.total
      && (l.pagination.pages > 0 ==> (l.pagination.pages - 1) * l.pagination.limit < l.pagination.total)
  {
    var parsed := ParseFilters(query);
    var l := ListProjects(projects, query, textHit).value;
    RunQueryIsOnePage(projects, FilterOf(parsed), parsed.page.GetOr(DefaultPage), parsed.limit.GetOr(DefaultLimit),
                      ParseSort(parsed.sort.GetOr(DefaultSort)), textHit);
    MatchingCount(projects, parsed, textHit);
    forall i | 0 <= i < |l.projects|
      ensures Selected(parsed, l.projects[i].fields, textHit)
    {
      FilterMeaning(parsed, l.projects[i].fields, textHit);
    }
  }

  /** The match at place `k` of the sorted matches is listed on page `k / limit + 1`, one of
      the counted pages. */
  lemma MatchIsOnItsPage(projects: Collection<Project>, filter: Filter, limit: nat, spec: SortSpec,
                         textHit: (string, Project) -> bool, i: nat)
    requires limit >= 1 && i < |projects| && Matches(projects[i].fields, filter, textHit)
    ensures exists page: nat ::
      && 1 <= page <= PageCount(|Matching(projects, filter, textHit)|, limit)
      && projects[i] in RunQuery(projects, filter, page, limit, spec, textHit).projects
  {
    var matching := Matching(projects, filter, textHit);
    var sorted := SortDocs(matching, spec, ProjectName);
    assert projects[i] in matching;
    SortDocsSorted(matching, spec, ProjectName);
    assert projects[i] in multiset(sorted);
    var k :| 0 <= k < |sorted| && sorted[k] == projects[i];
    PageOf(sorted, limit, k);
    var page: nat := k / limit + 1;
    assert projects[i] in RunQuery(projects, filter, page, limit, spec, textHit).projects;
  }

  /** Asking for another page by its decimal numeral changes only the page of the listing. */
  lemma AskForPage(projects: Collection<Project>, query: ProjectQuery, textHit: (string, Project) -> bool, page: nat)
    requires FiltersOk(query) && page >= 1 && ListProjects(projects, query, textHit).Ok?
    ensures FiltersOk(query.(page := Some(Text.NatToString(page))))
    ensures var parsed := ParseFilters(query);
      ListProjects(projects, query.(page := Some(Text.NatToString(page))), textHit)
      == Ok(RunQuery(projects, FilterOf(parsed), page, parsed.limit.GetOr(DefaultLimit),
                     ParseSort(parsed.sort.GetOr(DefaultSort)), textHit))
  {
    PageNumeral(page);
    assert ParseFilters(query.(page := Some(Text.NatToString(page)))) == ParseFilters(query).(page := Some(page));
  }

  /** Every project the query selects is listed when one of the counted pages is asked for. */
  lemma EveryMatchIsOnAPage(projects: Collection<Project>, query: ProjectQuery, textHit: (string, Project) -> bool, i: nat)
    requires FiltersOk(query) && ListProjects(projects, query, textHit).Ok?
    requires i < |projects| && Selected(ParseFilters(query), projects[i].fields, textHit)
    ensures exists page: nat ::
      && 1 <= page <= ListProjects(projects, query, textHit).value.pagination.pages
      && FiltersOk(query.(page := Some(Text.NatToString(page))))
      && projects[i] in ListProjects(projects, query.(page := Some(Text.NatToString(page))), textHit).value.projects
  {
    var parsed := ParseFilters(query);
    var filter := FilterOf(parsed);
    var limit := parsed.limit.GetOr(DefaultLimit);
    var spec := ParseSort(parsed.sort.GetOr(DefaultSort));
    FilterMeaning(parsed, projects[i].fields, textHit);
    MatchIsOnItsPage(projects, filter, limit, spec, textHit, i);
    var page: nat :| 1 <= page <= PageCount(|Matching(projects, filter, textHit)|, limit)
      && projects[i] in RunQuery(projects, filter, page, limit, spec, textHit).projects;
    AskForPage(projects, query, textHit, page);
  }

  /** With no page, limit or sort given, the listing holds the twenty newest matches, newest
      first. */
  lemma DefaultListingIsNewestFirst(projects: Collection<Project>, query: ProjectQuery, textHit: (string, Project) -> bool)
    requires Ordered(projects)
    requires FiltersOk(query) && query.page.None? && query.limit.None? && query.sort.None?
    requires ListProjects(projects, query, textHit).Ok?
    ensures var listed := ListProjects(projects, query, textHit).value.projects;
      && listed == Window(Reverse(Matching(projects, FilterOf(ParseFilters(query)), textHit)), 0, 20)
      && forall a, b :: 0 <= a < b < |listed| ==> listed[a].createdAt > listed[b].createdAt
  {
    var matching := Matching(projects, FilterOf(ParseFilters(query)), textHit);
    WhereOrdered(projects, p => Matches(p, FilterOf(ParseFilters(query)), textHit));
    NewestFirstReverses(matching, ProjectName);
  }

  /** A tag list sent as its entries joined with commas selects exactly the projects that
      share an entry with it, for both `neededRoles` and `tech`. */
  lemma CommaListsMatchAnyEntry(p: Project, roles: seq<string>, tags: seq<string>, textHit: (string, Project) -> bool)
    requires |roles| >= 1 && forall i :: 0 <= i < |roles| ==> ',' !in roles[i]
    requires |tags| >= 1 && forall i :: 0 <= i < |tags| ==> ',' !in tags[i]
    requires Text.Join(roles, ",") != "" && Text.Join(tags, ",") != ""
    ensures var query := ParsedQuery(None, None, None, None, Some(Text.Join(roles, ",")), Some(Text.Join(tags, ",")),
                                     None, None, None);
      Selected(query, p, textHit) <==> Overlaps(p.neededRoles, roles) && Overlaps(p.tech, tags)
  {
    Text.SplitJoin(roles, ',');
    Text.SplitJoin(tags, ',');
  }
}
