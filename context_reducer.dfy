/**
  The application reducer of src/contexts/reducers/index.js and its initial
  state, including the default KPI thresholds.
 */
module ContextReducer {
  import opened Domain
  import opened Tally
  import opened Store
  import KpiEngine

  datatype State = State(
    projects: seq<Project>,
    selectedProject: Option<Project>,
    darkMode: bool,
    currency: string,
    filters: Filters,
    kpiThresholds: KpiThresholds)

  /** Lag 5/10/15, scope creep 10/15/25, slippage 5/10/15, receivable 5/10/15. */
  const DefaultThresholds: KpiThresholds := KpiThresholds(
    Bands(5.0, 10.0, 15.0),
    Bands(10.0, 15.0, 25.0),
    Bands(5.0, 10.0, 15.0),
    Bands(5.0, 10.0, 15.0))

  const InitialFilters: Filters :=
    map["directorate" := Text("All"), "status" := Text("All"), "dateRange" := DateRange(None, None)]

  const InitialState: State := State([], None, false, "PKR", InitialFilters, DefaultThresholds)

  /** Breakpoints in strictly ascending order. */
  predicate StrictlyAscending(b: Bands) {
    b.low < b.moderate < b.high
  }

  /** Every default breakpoint triple is strictly ascending and non-negative. */
  lemma DefaultThresholdsAscending()
    ensures StrictlyAscending(DefaultThresholds.lag) && StrictlyAscending(DefaultThresholds.scopeCreep)
    ensures StrictlyAscending(DefaultThresholds.slippage) && StrictlyAscending(DefaultThresholds.receivable)
    ensures InitialState.kpiThresholds.lag.low >= 0.0 && InitialState.kpiThresholds.receivable.low >= 0.0
  {
  }

  /** The actions this reducer answers with the unchanged state. */
  predicate Ignored(a: Action) {
    a.SelectProject? || a.Other?
  }

  /** The actions that may change `projects`. */
  predicate TouchesProjects(a: Action) {
    a.SetProjects? || a.AddProject? || a.UpdateProject? || a.DeleteProject? || a.AddTarget? ||
    a.AddProgress? || a.AddExpenditure? || a.AddBudget? || a.ResetToSampleData?
  }

  /** `appReducer`: each case changes only the field it names. */
  function Reduce(s: State, a: Action): (r: State)
    ensures r.kpiThresholds == s.kpiThresholds
    ensures r.projects != s.projects ==> TouchesProjects(a)
    ensures r.selectedProject != s.selectedProject ==> a.SetSelectedProject? || a.DeleteProject? || a.ResetToSampleData?
    ensures r.darkMode != s.darkMode ==> a.SetDarkMode?
    ensures r.currency != s.currency ==> a.SetCurrency?
    ensures r.filters != s.filters ==> a.SetFilters?
    ensures Ignored(a) ==> r == s
  {
    match a
    case SetProjects(ps) => s.(projects := ps)
    case AddProject(p) => s.(projects := s.projects + [p])
    case UpdateProject(p) => s.(projects := ReplaceById(s.projects, p))
    case DeleteProject(id) =>
      s.(projects := RemoveById(s.projects, id),
         selectedProject := if s.selectedProject.Some? && s.selectedProject.value.id == id then None else s.selectedProject)
    case SetSelectedProject(sel) => s.(selectedProject := sel)
    case SetDarkMode(dark) => s.(darkMode := dark)
    case SetCurrency(c) => s.(currency := c)
    case SetFilters(f) => s.(filters := MergeFilters(s.filters, f))
    case AddTarget(id, t) => s.(projects := UpdateWhere(s.projects, id, WithTarget(t)))
    case AddProgress(id, e) => s.(projects := UpdateWhere(s.projects, id, WithEntry(e)))
    case AddExpenditure(id, x) => s.(projects := UpdateWhere(s.projects, id, WithExpenditure(x)))
    case AddBudget(id, b) => s.(projects := UpdateWhere(s.projects, id, WithBudget(b)))
    case ResetToSampleData(sample) => s.(projects := sample, selectedProject := None)
    case SelectProject(_) => s
    case Other(_) => s
  }

  /** ADD_PROJECT appends the payload after the unchanged earlier projects. */
  lemma AddProjectAppends(s: State, p: Project)
    ensures var r := Reduce(s, AddProject(p));
      |r.projects| == |s.projects| + 1 && r.projects[..|s.projects|] == s.projects &&
      r.projects[|s.projects|] == p
  {
  }

  /** UPDATE_PROJECT replaces the projects carrying the payload's id and keeps the length and every other project. */
  lemma UpdateProjectReplaces(s: State, p: Project)
    ensures var r := Reduce(s, UpdateProject(p));
      |r.projects| == |s.projects| &&
      (forall i :: 0 <= i < |s.projects| && s.projects[i].id == p.id ==> r.projects[i] == p) &&
      (forall i :: 0 <= i < |s.projects| && s.projects[i].id != p.id ==> r.projects[i] == s.projects[i]) &&
      r.(projects := s.projects) == s
  {
  }

  /** SET_FILTERS overrides the payload's keys and keeps every other filter. */
  lemma SetFiltersMerges(s: State, f: Filters)
    ensures var r := Reduce(s, SetFilters(f));
      r.filters.Keys == s.filters.Keys + f.Keys &&
      (forall k :: k in f ==> r.filters[k] == f[k]) &&
      (forall k :: k in s.filters && k !in f ==> r.filters[k] == s.filters[k]) &&
      r.(filters := s.filters) == s
  {
  }

  /** DELETE_PROJECT removes exactly the projects with the id and clears the selection iff it carried the id. */
  lemma DeleteProjectRemoves(s: State, id: string)
    ensures var r := Reduce(s, DeleteProject(id));
      (forall q :: q in r.projects <==> q in s.projects && q.id != id) &&
      |r.projects| == |s.projects| - Count(s.projects, IdIs(id)) &&
      (r.selectedProject != s.selectedProject <==> s.selectedProject.Some? && s.selectedProject.value.id == id) &&
      (r.selectedProject != s.selectedProject ==> r.selectedProject == None)
  {
  }

  /** ADD_PROGRESS: the entry becomes the latest entry of each matching project, which the KPI set then reads. */
  lemma AddProgressFeedsKpis(s: State, id: string, e: ProgressEntry)
    ensures var r := Reduce(s, AddProgress(id, e));
      |r.projects| == |s.projects| &&
      forall i :: 0 <= i < |s.projects| && s.projects[i].id == id ==>
        Ledger(r.projects[i]) == Ledger(s.projects[i]) + [e] &&
        KpiEngine.CalculateProjectKpis(r.projects[i]) == KpiEngine.EntryKpis(e)
  {
    var r := Reduce(s, AddProgress(id, e));
    forall i | 0 <= i < |s.projects| && s.projects[i].id == id
      ensures KpiEngine.CalculateProjectKpis(r.projects[i]) == KpiEngine.EntryKpis(e)
    {
      var l := Ledger(r.projects[i]);
      assert l == Ledger(s.projects[i]) + [e];
      assert l[|l| - 1] == e;
    }
  }

  /** The actions after which every project still sits at its index with its ledger extended, never cut. */
  predicate KeepsLedgers(a: Action) {
    !(a.SetProjects? || a.UpdateProject? || a.DeleteProject? || a.ResetToSampleData?)
  }

  /** `old` is an initial part of `new`. */
  predicate Prefix(older: seq<ProgressEntry>, newer: seq<ProgressEntry>) {
    |older| <= |newer| && newer[..|older|] == older
  }

  /** After any one ledger-keeping action, each project keeps its place, its id and its ledger as a prefix. */
  lemma StepKeepsLedgers(s: State, a: Action)
    requires KeepsLedgers(a)
    ensures var r := Reduce(s, a);
      |s.projects| <= |r.projects| &&
      forall i :: 0 <= i < |s.projects| ==>
        r.projects[i].id == s.projects[i].id && Prefix(Ledger(s.projects[i]), Ledger(r.projects[i]))
  {
    var r := Reduce(s, a);
    forall i | 0 <= i < |s.projects|
      ensures r.projects[i].id == s.projects[i].id && Prefix(Ledger(s.projects[i]), Ledger(r.projects[i]))
    {
      var l := Ledger(s.projects[i]);
      if a.AddProgress? && s.projects[i].id == a.projectId {
        assert Ledger(r.projects[i]) == l + [a.entry];
        assert (l + [a.entry])[..|l|] == l;
      } else {
        assert r.projects[i].progress == s.projects[i].progress;
      }
    }
  }

  /** Dispatching a list of actions in order. */
  function ReduceAll(s: State, actions: seq<Action>): State
    decreases |actions|
  {
    if actions == [] then s else ReduceAll(Reduce(s, actions[0]), actions[1..])
  }

  /** Through any run of ledger-keeping actions every ledger only grows at its end: no entry is edited or lost. */
  lemma {:induction false} RunKeepsLedgers(s: State, actions: seq<Action>)
    requires forall j :: 0 <= j < |actions| ==> KeepsLedgers(actions[j])
    ensures var r := ReduceAll(s, actions);
      |s.projects| <= |r.projects| &&
      forall i :: 0 <= i < |s.projects| ==>
        r.projects[i].id == s.projects[i].id && Prefix(Ledger(s.projects[i]), Ledger(r.projects[i]))
    decreases |actions|
  {
    if actions != [] {
      var m := Reduce(s, actions[0]);
      StepKeepsLedgers(s, actions[0]);
      RunKeepsLedgers(m, actions[1..]);
      var r := ReduceAll(m, actions[1..]);
      forall i | 0 <= i < |s.projects|
        ensures Prefix(Ledger(s.projects[i]), Ledger(r.projects[i]))
      {
        var l0, l1, l2 := Ledger(s.projects[i]), Ledger(m.projects[i]), Ledger(r.projects[i]);
        assert l2[..|l1|][..|l0|] == l2[..|l0|];
      }
    }
  }
}
