/** The project list (pages/ProjectsPage.tsx): the filtered and sorted list of projects and
    the record a save of the project form produces, for a new project or an edited one. */
module ProjectsPage {
  import opened Wrappers
  import opened Domain
  import opened Collections
  import opened Sorting
  import Text

  // ---------------------------------------------------------------- the project list

  /** The sort options of the list, named as in the source. */
  datatype ProjectSort = DueDateAsc | DueDateDesc | NameAsc | NameDesc | StartDateAsc | StartDateDesc

  /** The search term and the status and type filters; an empty choice is `None`. */
  datatype ProjectFilters = ProjectFilters(search: string, status: Option<ProjectStatus>, kind: Option<ProjectType>)

  /** `clients.find(c => c.id === id)`. */
  function FindClient(clients: seq<Client>, id: Id): (r: Option<Client>)
    ensures r.Some? ==> (r.value.id == id &&
      exists j :: 0 <= j < |clients| && clients[j] == r.value && (forall i :: 0 <= i < j ==> clients[i].id != id))
    ensures r.None? <==> forall j :: 0 <= j < |clients| ==> clients[j].id != id
  {
    if clients == [] then None
    else if clients[0].id == id then Some(clients[0])
    else FindClient(clients[1..], id)
  }

  /** The term occurs, ignoring case, in the project's name, in its (non-empty) stored
      client name, or in the name of the client record it links to. */
  predicate MatchesSearch(clients: seq<Client>, p: Project, term: string) {
    Text.ContainsIgnoringCase(p.name, term) ||
    (IsTruthy(p.clientName) && Text.ContainsIgnoringCase(p.clientName.value, term)) ||
    (FindClient(clients, p.clientId).Some? &&
     Text.ContainsIgnoringCase(FindClient(clients, p.clientId).value.name, term))
  }

  /** Everything a listed project satisfies: matching the search when a term is set, and
      matching the status and type filters exactly when those are set. */
  predicate PassesFilters(clients: seq<Client>, p: Project, f: ProjectFilters) {
    (f.search != "" ==> MatchesSearch(clients, p, f.search)) &&
    (f.status.Some? ==> p.status == f.status.value) &&
    (f.kind.Some? ==> p.kind == f.kind.value)
  }

  function SearchPredicate(clients: seq<Client>, term: string): Project -> bool {
    (p: Project) => MatchesSearch(clients, p, term)
  }

  function StatusPredicate(status: ProjectStatus): Project -> bool {
    (p: Project) => p.status == status
  }

  function KindPredicate(kind: ProjectType): Project -> bool {
    (p: Project) => p.kind == kind
  }

  function FiltersPredicate(clients: seq<Client>, f: ProjectFilters): Project -> bool {
    (p: Project) => PassesFilters(clients, p, f)
  }

  /** The filter pipeline: the search, the status and the type filters, each applied only
      when it is set. */
  function FilterProjects(projects: seq<Project>, clients: seq<Client>, f: ProjectFilters): seq<Project> {
    var searched := if f.search != "" then Filter(projects, SearchPredicate(clients, f.search)) else projects;
    var byStatus := if f.status.Some? then Filter(searched, StatusPredicate(f.status.value)) else searched;
    if f.kind.Some? then Filter(byStatus, KindPredicate(f.kind.value)) else byStatus
  }

  /** The pipeline is one filter by `PassesFilters`: it keeps exactly the projects that
      pass every set filter, in their order and with their multiplicity. */
  lemma {:induction false} FilterProjectsIsOneFilter(projects: seq<Project>, clients: seq<Client>, f: ProjectFilters)
    ensures FilterProjects(projects, clients, f) == Filter(projects, FiltersPredicate(clients, f))
    ensures forall p :: p in FilterProjects(projects, clients, f) <==> p in projects && PassesFilters(clients, p, f)
  {
    var p1 := (p: Project) => f.search != "" ==> MatchesSearch(clients, p, f.search);
    var p2 := (p: Project) => p1(p) && (f.status.Some? ==> p.status == f.status.value);
    var searched := if f.search != "" then Filter(projects, SearchPredicate(clients, f.search)) else projects;
    if f.search != "" {
      FilterPointwise(projects, SearchPredicate(clients, f.search), p1);
    } else {
      FilterAll(projects, p1);
    }
    assert searched == Filter(projects, p1);
    var byStatus := if f.status.Some? then Filter(searched, StatusPredicate(f.status.value)) else searched;
    if f.status.Some? {
      FilterFilter(projects, p1, StatusPredicate(f.status.value), p2);
    } else {
      FilterPointwise(projects, p1, p2);
    }
    assert byStatus == Filter(projects, p2);
    if f.kind.Some? {
      FilterFilter(projects, p2, KindPredicate(f.kind.value), FiltersPredicate(clients, f));
    } else {
      FilterPointwise(projects, p2, FiltersPredicate(clients, f));
    }
  }

  /** `a` may come before `b`: the comparator of each sort option, as `cmp(a, b) <= 0`.
      The two start-date options compare the other way round from their names: the
      "ascending" one puts the most recent start first. */
  predicate ProjectPrecedes(order: ProjectSort, a: Project, b: Project) {
    match order
    case DueDateAsc => a.dueDate <= b.dueDate
    case DueDateDesc => b.dueDate <= a.dueDate
    case NameAsc => Text.LexLeq(a.name, b.name)
    case NameDesc => Text.LexLeq(b.name, a.name)
    case StartDateAsc => b.startDate <= a.startDate
    case StartDateDesc => a.startDate <= b.startDate
  }

  function ProjectOrder(order: ProjectSort): (Project, Project) -> bool {
    (a: Project, b: Project) => ProjectPrecedes(order, a, b)
  }

  /** Every sort option is a consistent comparator. */
  lemma {:induction false} ProjectOrderIsTotalPreorder(order: ProjectSort)
    ensures TotalPreorder(ProjectOrder(order))
  {
    var leq := ProjectOrder(order);
    forall a: Project, b: Project
      ensures leq(a, b) || leq(b, a)
    {
      Text.LexLeqTotal(a.name, b.name);
      assert ProjectPrecedes(order, a, b) || ProjectPrecedes(order, b, a);
    }
    forall a: Project, b: Project, c: Project | leq(a, b) && leq(b, c)
      ensures leq(a, c)
    {
      assert ProjectPrecedes(order, a, b) && ProjectPrecedes(order, b, c);
      if order == NameAsc {
        Text.LexLeqTransitive(a.name, b.name, c.name);
      } else if order == NameDesc {
        Text.LexLeqTransitive(c.name, b.name, a.name);
      }
    }
  }

  /** `filteredAndSortedProjects`: the filtered projects, sorted on a copy. */
  function ListProjects(projects: seq<Project>, clients: seq<Client>, f: ProjectFilters, order: ProjectSort): seq<Project> {
    SortBy(FilterProjects(projects, clients, f), ProjectOrder(order))
  }

  /** The list is a permutation of the filtered projects, hence a sub-multiset of the
      input, and holds exactly the projects that pass the filters. */
  lemma {:induction false} ListProjectsSpec(projects: seq<Project>, clients: seq<Client>, f: ProjectFilters, order: ProjectSort)
    ensures multiset(ListProjects(projects, clients, f, order)) == multiset(Filter(projects, FiltersPredicate(clients, f)))
    ensures multiset(ListProjects(projects, clients, f, order)) <= multiset(projects)
    ensures forall p :: p in ListProjects(projects, clients, f, order) <==> p in projects && PassesFilters(clients, p, f)
  {
    FilterProjectsIsOneFilter(projects, clients, f);
    SortByIsPermutation(FilterProjects(projects, clients, f), ProjectOrder(order));
    FilterSubMultiset(projects, FiltersPredicate(clients, f));
  }

  /** The list is ordered by the chosen option. */
  lemma {:induction false} ListProjectsSorted(projects: seq<Project>, clients: seq<Client>, f: ProjectFilters, order: ProjectSort)
    ensures SortedBy(ListProjects(projects, clients, f, order), ProjectOrder(order))
  {
    ProjectOrderIsTotalPreorder(order);
    SortBySorted(FilterProjects(projects, clients, f), ProjectOrder(order));
  }

  /** Sorted by due date, the due dates never decrease down the list. */
  lemma {:induction false} ByDueDateIsAscending(projects: seq<Project>, clients: seq<Client>, f: ProjectFilters)
    ensures var r := ListProjects(projects, clients, f, DueDateAsc);
      forall i, j :: 0 <= i < j < |r| ==> r[i].dueDate <= r[j].dueDate
  {
    var r := ListProjects(projects, clients, f, DueDateAsc);
    ListProjectsSorted(projects, clients, f, DueDateAsc);
    forall i, j | 0 <= i < j < |r|
      ensures r[i].dueDate <= r[j].dueDate
    {
      assert ProjectOrder(DueDateAsc)(r[i], r[j]);
    }
  }

  /** Sorted by name, the names are in character-code order down the list. */
  lemma {:induction false} ByNameIsAscending(projects: seq<Project>, clients: seq<Client>, f: ProjectFilters)
    ensures var r := ListProjects(projects, clients, f, NameAsc);
      forall i, j :: 0 <= i < j < |r| ==> Text.LexLeq(r[i].name, r[j].name)
  {
    var r := ListProjects(projects, clients, f, NameAsc);
    ListProjectsSorted(projects, clients, f, NameAsc);
    forall i, j | 0 <= i < j < |r|
      ensures Text.LexLeq(r[i].name, r[j].name)
    {
      assert ProjectOrder(NameAsc)(r[i], r[j]);
    }
  }

  /** The option named "start date ascending" lists the most recent start first: the
      start dates never increase down the list. */
  lemma {:induction false} StartDateAscIsNewestFirst(projects: seq<Project>, clients: seq<Client>, f: ProjectFilters)
    ensures var r := ListProjects(projects, clients, f, StartDateAsc);
      forall i, j :: 0 <= i < j < |r| ==> r[j].startDate <= r[i].startDate
  {
    var r := ListProjects(projects, clients, f, StartDateAsc);
    ListProjectsSorted(projects, clients, f, StartDateAsc);
    forall i, j | 0 <= i < j < |r|
      ensures r[j].startDate <= r[i].startDate
    {
      assert ProjectOrder(StartDateAsc)(r[i], r[j]);
    }
  }

  /** The option named "start date descending" lists the oldest start first. */
  lemma {:induction false} StartDateDescIsOldestFirst(projects: seq<Project>, clients: seq<Client>, f: ProjectFilters)
    ensures var r := ListProjects(projects, clients, f, StartDateDesc);
      forall i, j :: 0 <= i < j < |r| ==> r[i].startDate <= r[j].startDate
  {
    var r := ListProjects(projects, clients, f, StartDateDesc);
    ListProjectsSorted(projects, clients, f, StartDateDesc);
    forall i, j | 0 <= i < j < |r|
      ensures r[i].startDate <= r[j].startDate
    {
      assert ProjectOrder(StartDateDesc)(r[i], r[j]);
    }
  }

  // ---------------------------------------------------------------- saving the form

  /** The fields of the project form; an empty value field is `None`. */
  datatype ProjectForm = ProjectForm(
    clientId: Id, name: string, kind: ProjectType, address: string,
    startDate: int, dueDate: int, status: ProjectStatus, notes: string,
    totalValue: Option<real>, paidValue: Option<real>)

  /** `handleSaveProject`: the record the form produces. Every form field is taken over,
      the client name is looked up (empty when the client is unknown), and an edited
      project keeps its id, creation time, stages, phases and payments, and its style when
      that is non-empty; a new project gets a fresh id and empty lists. */
  function SaveProject(clients: seq<Client>, editing: Option<Project>, form: ProjectForm,
                       stamp: string, now: string): Project
  {
    var clientName := match FindClient(clients, form.clientId)
                      case Some(c) => c.name
                      case None => "";
    match editing
    case Some(existing) =>
      existing.(clientId := form.clientId, clientName := Some(clientName), name := form.name,
           kind := form.kind, address := form.address, startDate := form.startDate,
           dueDate := form.dueDate, status := form.status, notes := Some(form.notes),
           totalValue := form.totalValue, paidValue := form.paidValue,
           projectStyle := if IsTruthy(existing.projectStyle) then existing.projectStyle else None,
           updatedAt := now)
    case None =>
      Project("proj-" + stamp, form.clientId, Some(clientName), form.name, form.kind,
              form.address, form.startDate, form.dueDate, form.status, Some(form.notes),
              now, now, form.totalValue, form.paidValue, [], [], None, [])
  }

  /** The saved record carries every form field, and the name of the first client record
      with the chosen id, or an empty name when there is none. */
  predicate CarriesForm(clients: seq<Client>, r: Project, form: ProjectForm) {
    r.clientId == form.clientId && r.name == form.name && r.kind == form.kind &&
    r.address == form.address && r.startDate == form.startDate && r.dueDate == form.dueDate &&
    r.status == form.status && r.notes == Some(form.notes) &&
    r.totalValue == form.totalValue && r.paidValue == form.paidValue &&
    r.clientName == Some(match FindClient(clients, form.clientId)
                         case Some(c) => c.name
                         case None => "")
  }

  /** Editing merges the form over the project: its id, creation time, stages, phases and
      payments are kept, and a non-empty style is kept. */
  lemma {:induction false} EditKeepsIdentity(clients: seq<Client>, existing: Project, form: ProjectForm, stamp: string, now: string)
    ensures var r := SaveProject(clients, Some(existing), form, stamp, now);
      CarriesForm(clients, r, form) &&
      r.id == existing.id && r.createdAt == existing.createdAt &&
      r.detailedStages == existing.detailedStages && r.phases == existing.phases &&
      r.payments == existing.payments && r.updatedAt == now &&
      (IsTruthy(existing.projectStyle) ==> r.projectStyle == existing.projectStyle) &&
      (!IsTruthy(existing.projectStyle) ==> r.projectStyle.None?)
  {
  }

  /** A new project gets the fresh id, is created now, and starts with no stages, phases,
      payments or style. */
  lemma {:induction false} NewProjectIsBlank(clients: seq<Client>, form: ProjectForm, stamp: string, now: string)
    ensures var r := SaveProject(clients, None, form, stamp, now);
      CarriesForm(clients, r, form) &&
      r.id == "proj-" + stamp && r.createdAt == now && r.updatedAt == now &&
      r.detailedStages == [] && r.phases == [] && r.payments == [] && r.projectStyle.None?
  {
  }

  /** Saving the same form twice over an edited project gives the record of saving once
      (at the later time). */
  lemma {:induction false} EditIsIdempotent(clients: seq<Client>, existing: Project, form: ProjectForm,
                                            stamp: string, now: string, later: string)
    ensures var once := SaveProject(clients, Some(existing), form, stamp, now);
      SaveProject(clients, Some(once), form, stamp, later) == once.(updatedAt := later)
  {
  }
}
