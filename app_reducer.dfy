/**
  The reducer variant of src/reducers/appReducer.js: no currency, no
  thresholds, SELECT_PROJECT instead of SET_SELECTED_PROJECT, and no
  ADD_TARGET or ADD_BUDGET.
 */
module AppReducer {
  import opened Domain
  import opened Tally
  import opened Store

  datatype State = State(
    projects: seq<Project>,
    selectedProject: Option<Project>,
    darkMode: bool,
    filters: Filters)

  const InitialState: State :=
    State([], None, false,
          map["directorate" := Text("All"), "status" := Text("All"), "dateRange" := DateRange(None, None)])

  /** The actions this variant has no case for. */
  predicate Ignored(a: Action) {
    a.SetSelectedProject? || a.SetCurrency? || a.AddTarget? || a.AddBudget? || a.ResetToSampleData? || a.Other?
  }

  /** `appReducer`: each case changes only the field it names; any other action leaves the state as it is. */
  function Reduce(s: State, a: Action): (r: State)
    ensures r.projects != s.projects ==>
      a.SetProjects? || a.AddProject? || a.UpdateProject? || a.DeleteProject? || a.AddProgress? || a.AddExpenditure?
    ensures r.selectedProject != s.selectedProject ==> a.SelectProject? || a.DeleteProject?
    ensures r.darkMode != s.darkMode ==> a.SetDarkMode?
    ensures r.filters != s.filters ==> a.SetFilters?
    ensures Ignored(a) ==> r == s
  {
    match a
    case SetProjects(ps) => s.(projects := ps)
    case AddProject(p) => s.(projects := s.projects + [p])
    case UpdateProject(p) => s.(projects := ReplaceById(s.projects, p))
    case DeleteProject(id) =>
      s.(projects := RemoveById(s.projects, id),
         selectedProject := if s.selectedProject.Some? && s.selectedProject.value.id == id then None else s.selectedProject)
    case SelectProject(sel) => s.(selectedProject := sel)
    case AddProgress(id, e) => s.(projects := UpdateWhere(s.projects, id, WithEntry(e)))
    case AddExpenditure(id, x) => s.(projects := UpdateWhere(s.projects, id, WithExpenditure(x)))
    case SetDarkMode(dark) => s.(darkMode := dark)
    case SetFilters(f) => s.(filters := MergeFilters(s.filters, f))
    case _ => s
  }

  /** ADD_PROJECT appends; the earlier projects are unchanged. */
  lemma AddProjectAppends(s: State, p: Project)
    ensures var r := Reduce(s, AddProject(p));
      |r.projects| == |s.projects| + 1 && r.projects[..|s.projects|] == s.projects &&
      r.projects[|s.projects|] == p && r.(projects := s.projects) == s
  {
  }

  /** UPDATE_PROJECT keeps the length and the projects with other ids. */
  lemma UpdateProjectReplaces(s: State, p: Project)
    ensures var r := Reduce(s, UpdateProject(p));
      |r.projects| == |s.projects| &&
      (forall i :: 0 <= i < |s.projects| ==> r.projects[i] == if s.projects[i].id == p.id then p else s.projects[i]) &&
      r.(projects := s.projects) == s
  {
  }

  /** DELETE_PROJECT removes the projects with the id, keeps the rest and clears the selection iff it matched. */
  lemma DeleteProjectRemoves(s: State, id: string)
    ensures var r := Reduce(s, DeleteProject(id));
      r.projects == RemoveById(s.projects, id) &&
      (forall q :: q in r.projects <==> q in s.projects && q.id != id) &&
      (r.selectedProject != s.selectedProject <==> s.selectedProject.Some? && s.selectedProject.value.id == id) &&
      (r.selectedProject != s.selectedProject ==> r.selectedProject == None) &&
      r.darkMode == s.darkMode && r.filters == s.filters
  {
  }

  /** ADD_PROGRESS extends the matching projects' ledgers at their end and touches nothing else. */
  lemma AddProgressAppendOnly(s: State, id: string, e: ProgressEntry)
    ensures var r := Reduce(s, AddProgress(id, e));
      |r.projects| == |s.projects| &&
      (forall i :: 0 <= i < |s.projects| ==>
        Ledger(r.projects[i]) == Ledger(s.projects[i]) + (if s.projects[i].id == id then [e] else []) &&
        r.projects[i].(progress := s.projects[i].progress) == s.projects[i]) &&
      r.(projects := s.projects) == s
  {
    LedgerAppendOnly(s.projects, id, e);
  }

  /** ADD_EXPENDITURE appends one record to the matching projects' `expenditures` list only. */
  lemma AddExpenditureAppendOnly(s: State, id: string, x: Expense)
    ensures var r := Reduce(s, AddExpenditure(id, x));
      |r.projects| == |s.projects| &&
      (forall i :: 0 <= i < |s.projects| ==>
        r.projects[i].expenditures.GetOr([]) ==
          s.projects[i].expenditures.GetOr([]) + (if s.projects[i].id == id then [x] else []) &&
        r.projects[i].(expenditures := s.projects[i].expenditures) == s.projects[i]) &&
      r.(projects := s.projects) == s
  {
    ExpenditureAppendOnly(s.projects, id, x);
  }

  /** SET_FILTERS merges the payload into the filters. */
  lemma SetFiltersMerges(s: State, f: Filters)
    ensures var r := Reduce(s, SetFilters(f));
      r.filters.Keys == s.filters.Keys + f.Keys &&
      (forall k :: k in f ==> r.filters[k] == f[k]) &&
      (forall k :: k in s.filters && k !in f ==> r.filters[k] == s.filters[k]) &&
      r.(filters := s.filters) == s
  {
  }
}
