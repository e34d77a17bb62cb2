/**
  What the three reducers share: the actions they are dispatched, the
  filter values, and the `map`/`filter` updates of the project list.
 */
module Store {
  import opened Domain
  import opened Tally

  /** A value of the `filters` object: a text filter or the date range. */
  datatype FilterValue = Text(text: string) | DateRange(start: Option<string>, end: Option<string>)

  type Filters = map<string, FilterValue>

  /**
    A dispatched action, one constructor per `action.type` any reducer
    names; `Other` stands for every type string none of them names.
   */
  datatype Action =
    | SetProjects(projects: seq<Project>)
    | AddProject(project: Project)
    | UpdateProject(project: Project)
    | DeleteProject(id: string)
    | SetSelectedProject(selection: Option<Project>)
    | SelectProject(selection: Option<Project>)
    | SetDarkMode(dark: bool)
    | SetCurrency(currency: string)
    | SetFilters(filters: Filters)
    | AddTarget(projectId: string, target: Target)
    | AddProgress(projectId: string, entry: ProgressEntry)
    | AddExpenditure(projectId: string, expenditure: Expense)
    | AddBudget(projectId: string, budget: Budget)
    | ResetToSampleData(sample: seq<Project>)
    | Other(kind: string)

  /** `projects.map(p => p.id === id ? f(p) : p)`. */
  function UpdateWhere(ps: seq<Project>, id: string, f: Project -> Project): (r: seq<Project>)
    ensures |r| == |ps|
    ensures forall i :: 0 <= i < |ps| && ps[i].id == id ==> r[i] == f(ps[i])
    ensures forall i :: 0 <= i < |ps| && ps[i].id != id ==> r[i] == ps[i]
    decreases |ps|
  {
    if ps == [] then []
    else [if ps[0].id == id then f(ps[0]) else ps[0]] + UpdateWhere(ps[1..], id, f)
  }

  /** The project `q` whatever it is handed. */
  function Becomes(q: Project): Project -> Project {
    _ => q
  }

  /** UPDATE_PROJECT: every project carrying the payload's id becomes the payload. */
  function ReplaceById(ps: seq<Project>, q: Project): (r: seq<Project>)
    ensures |r| == |ps|
    ensures forall i :: 0 <= i < |ps| ==> r[i] == if ps[i].id == q.id then q else ps[i]
    ensures forall i :: 0 <= i < |ps| ==> r[i].id == ps[i].id
  {
    UpdateWhere(ps, q.id, Becomes(q))
  }

  /** Replacing twice with the same project is replacing once. */
  lemma ReplaceByIdIdempotent(ps: seq<Project>, q: Project)
    ensures ReplaceById(ReplaceById(ps, q), q) == ReplaceById(ps, q)
  {
  }

  function IdIsNot(id: string): Project -> bool {
    (p: Project) => p.id != id
  }

  function IdIs(id: string): Project -> bool {
    (p: Project) => p.id == id
  }

  /** DELETE_PROJECT: `projects.filter(p => p.id !== id)`. */
  function RemoveById(ps: seq<Project>, id: string): (r: seq<Project>)
    ensures forall q :: q in r <==> q in ps && q.id != id
    ensures |r| == |ps| - Count(ps, IdIs(id))
  {
    var r := Filter(ps, IdIsNot(id));
    RemovedCount(ps, id);
    r
  }

  /** The removed projects are exactly the ones carrying the id. */
  lemma {:induction false} RemovedCount(ps: seq<Project>, id: string)
    ensures |Filter(ps, IdIsNot(id))| + Count(ps, IdIs(id)) == |ps|
    decreases |ps|
  {
    FilterLength(ps, IdIsNot(id));
    if ps != [] {
      RemovedCount(ps[..|ps| - 1], id);
      FilterLength(ps[..|ps| - 1], IdIsNot(id));
    }
  }

  /** Removing keeps the rest in order: it distributes over concatenation. */
  lemma RemoveByIdConcat(a: seq<Project>, b: seq<Project>, id: string)
    ensures RemoveById(a + b, id) == RemoveById(a, id) + RemoveById(b, id)
  {
    FilterConcat(a, b, IdIsNot(id));
  }

  /** Removing an id no project carries changes nothing. */
  lemma RemoveAbsentId(ps: seq<Project>, id: string)
    requires forall i :: 0 <= i < |ps| ==> ps[i].id != id
    ensures RemoveById(ps, id) == ps
  {
    FilterAllPass(ps, IdIsNot(id));
  }

  /** ADD_PROGRESS on one project: `progress: [...(progress || []), entry]`. */
  function WithEntry(e: ProgressEntry): Project -> Project {
    (p: Project) => p.(progress := Some(Ledger(p) + [e]))
  }

  /** ADD_TARGET on one project. */
  function WithTarget(t: Target): Project -> Project {
    (p: Project) => p.(targets := Some(TargetsOf(p) + [t]))
  }

  /** ADD_EXPENDITURE on one project. */
  function WithExpenditure(x: Expense): Project -> Project {
    (p: Project) => p.(expenditures := Some(p.expenditures.GetOr([]) + [x]))
  }

  /** ADD_BUDGET on one project. */
  function WithBudget(b: Budget): Project -> Project {
    (p: Project) => p.(budget := Some(b))
  }

  /**
    Appending an entry leaves the earlier entries in place and every other
    project and field untouched: the ledger is append-only.
   */
  lemma LedgerAppendOnly(ps: seq<Project>, id: string, e: ProgressEntry)
    ensures var r := UpdateWhere(ps, id, WithEntry(e));
      |r| == |ps| &&
      forall i :: 0 <= i < |ps| ==>
        Ledger(r[i]) == Ledger(ps[i]) + (if ps[i].id == id then [e] else []) &&
        r[i].(progress := ps[i].progress) == ps[i]
  {
  }

  /** A target is appended to the matching projects only, after their earlier targets. */
  lemma TargetAppendOnly(ps: seq<Project>, id: string, t: Target)
    ensures var r := UpdateWhere(ps, id, WithTarget(t));
      |r| == |ps| &&
      forall i :: 0 <= i < |ps| ==>
        TargetsOf(r[i]) == TargetsOf(ps[i]) + (if ps[i].id == id then [t] else []) &&
        r[i].(targets := ps[i].targets) == ps[i]
  {
  }

  /** An expenditure record is appended to the matching projects' list only. */
  lemma ExpenditureAppendOnly(ps: seq<Project>, id: string, x: Expense)
    ensures var r := UpdateWhere(ps, id, WithExpenditure(x));
      |r| == |ps| &&
      forall i :: 0 <= i < |ps| ==>
        r[i].expenditures.GetOr([]) == ps[i].expenditures.GetOr([]) + (if ps[i].id == id then [x] else []) &&
        r[i].(expenditures := ps[i].expenditures) == ps[i]
  {
  }

  /** The budget of the matching projects is replaced, nothing else. */
  lemma BudgetReplacedOnly(ps: seq<Project>, id: string, b: Budget)
    ensures var r := UpdateWhere(ps, id, WithBudget(b));
      |r| == |ps| &&
      forall i :: 0 <= i < |ps| ==>
        r[i].budget == (if ps[i].id == id then Some(b) else ps[i].budget) &&
        r[i].(budget := ps[i].budget) == ps[i]
  {
  }

  /** SET_FILTERS: `{...filters, ...payload}`. */
  function MergeFilters(current: Filters, payload: Filters): (r: Filters)
    ensures r.Keys == current.Keys + payload.Keys
    ensures forall k :: k in payload ==> r[k] == payload[k]
    ensures forall k :: k in current && k !in payload ==> r[k] == current[k]
  {
    current + payload
  }

  /** The view filter of the dashboard and the monitoring page: directorate and status, each or 'All'. */
  function MatchesDirectorateAndStatus(directorate: string, status: string): Project -> bool {
    (p: Project) => (directorate == "All" || p.directorate == directorate) && (status == "All" || p.status == status)
  }

  /** The view filter of the reports and insights pages: directorate and project id, each or 'All'. */
  function MatchesDirectorateAndId(directorate: string, id: string): Project -> bool {
    (p: Project) => (directorate == "All" || p.directorate == directorate) && (id == "All" || p.id == id)
  }

  /** Some project of `ps` carries `id`: `projects.find(p => p.id === id)` succeeds. */
  predicate HasId(ps: seq<Project>, id: string) {
    exists i :: 0 <= i < |ps| && ps[i].id == id
  }

  /** `dashboard/monitoring filteredProjects`: directorate and status, each or 'All', in the original order. */
  function ByDirectorateAndStatus(ps: seq<Project>, directorate: string, status: string): (r: seq<Project>)
    ensures forall q :: q in r <==>
      q in ps && (directorate == "All" || q.directorate == directorate) && (status == "All" || q.status == status)
    ensures |r| == Count(ps, MatchesDirectorateAndStatus(directorate, status))
  {
    FilterLength(ps, MatchesDirectorateAndStatus(directorate, status));
    Filter(ps, MatchesDirectorateAndStatus(directorate, status))
  }

  /** The directorate/status filter keeps order (it distributes over concatenation), and 'All'/'All' keeps everything. */
  lemma ByDirectorateAndStatusOrder(a: seq<Project>, b: seq<Project>, directorate: string, status: string)
    ensures ByDirectorateAndStatus(a + b, directorate, status)
         == ByDirectorateAndStatus(a, directorate, status) + ByDirectorateAndStatus(b, directorate, status)
    ensures ByDirectorateAndStatus(a, "All", "All") == a
  {
    FilterConcat(a, b, MatchesDirectorateAndStatus(directorate, status));
    FilterAllPass(a, MatchesDirectorateAndStatus("All", "All"));
  }

  /** The reports and insights `filteredProjects`: directorate and project id, each or 'All', in the original order. */
  function ByDirectorateAndId(ps: seq<Project>, directorate: string, id: string): (r: seq<Project>)
    ensures forall q :: q in r <==>
      q in ps && (directorate == "All" || q.directorate == directorate) && (id == "All" || q.id == id)
    ensures |r| == Count(ps, MatchesDirectorateAndId(directorate, id))
  {
    FilterLength(ps, MatchesDirectorateAndId(directorate, id));
    Filter(ps, MatchesDirectorateAndId(directorate, id))
  }

  /** The directorate/id filter keeps order, and 'All'/'All' keeps everything. */
  lemma ByDirectorateAndIdOrder(a: seq<Project>, b: seq<Project>, directorate: string, id: string)
    ensures ByDirectorateAndId(a + b, directorate, id)
         == ByDirectorateAndId(a, directorate, id) + ByDirectorateAndId(b, directorate, id)
    ensures ByDirectorateAndId(a, "All", "All") == a
  {
    FilterConcat(a, b, MatchesDirectorateAndId(directorate, id));
    FilterAllPass(a, MatchesDirectorateAndId("All", "All"));
  }

  function DirectorateIs(d: string): Project -> bool {
    (p: Project) => p.directorate == d
  }

  /** The project's directorate is one of `names`. */
  function DirectorateIn(names: seq<string>): Project -> bool {
    (p: Project) => p.directorate in names
  }

  /** No name occurs twice. */
  predicate Distinct(names: seq<string>) {
    forall i, j :: 0 <= i < j < |names| ==> names[i] != names[j]
  }

  /** The per-directorate project counts, added up over `names`. */
  function CountsOver(ps: seq<Project>, names: seq<string>): nat
    decreases |names|
  {
    if names == [] then 0
    else CountsOver(ps, names[..|names| - 1]) + Count(ps, DirectorateIs(names[|names| - 1]))
  }

  /** One more project raises the total over distinct names by one exactly when its directorate is named. */
  lemma {:induction false} CountsOverSnoc(ps: seq<Project>, p: Project, names: seq<string>)
    requires Distinct(names)
    ensures CountsOver(ps + [p], names) == CountsOver(ps, names) + (if p.directorate in names then 1 else 0)
    decreases |names|
  {
    if names != [] {
      var init, n := names[..|names| - 1], names[|names| - 1];
      assert names == init + [n];
      CountsOverSnoc(ps, p, init);
      CountSnoc(ps, p, DirectorateIs(n));
      assert p.directorate in names <==> p.directorate in init || p.directorate == n;
      assert p.directorate in init ==> p.directorate != n;
    }
  }

  /** Over distinct names, the per-directorate counts add up to the projects whose directorate is named. */
  lemma {:induction false} CountsOverNamed(ps: seq<Project>, names: seq<string>)
    requires Distinct(names)
    ensures CountsOver(ps, names) == Count(ps, DirectorateIn(names))
    decreases |ps|
  {
    if ps == [] {
      CountsOverEmpty(names);
    } else {
      var init, p := ps[..|ps| - 1], ps[|ps| - 1];
      assert ps == init + [p];
      CountsOverNamed(init, names);
      CountsOverSnoc(init, p, names);
      CountSnoc(init, p, DirectorateIn(names));
    }
  }

  lemma {:induction false} CountsOverEmpty(names: seq<string>)
    ensures CountsOver([], names) == 0
    decreases |names|
  {
    if names != [] {
      CountsOverEmpty(names[..|names| - 1]);
    }
  }
}
