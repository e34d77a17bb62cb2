/**
  The reducer that the provider of src/contexts/AppContext.js actually
  runs: projects, selection and dark mode only.
 */
module AppContext {
  import opened Domain
  import opened Store

  datatype State = State(projects: seq<Project>, selectedProject: Option<Project>, darkMode: bool)

  const InitialState: State := State([], None, false)

  /** The actions this reducer names. */
  predicate Handled(a: Action) {
    a.SetProjects? || a.AddProject? || a.UpdateProject? || a.DeleteProject? || a.SetSelectedProject? || a.SetDarkMode?
  }

  /** `appReducer`; DELETE_PROJECT here leaves the selection alone. */
  function Reduce(s: State, a: Action): (r: State)
    ensures !Handled(a) ==> r == s
    ensures r.selectedProject != s.selectedProject ==> a.SetSelectedProject?
    ensures r.darkMode != s.darkMode ==> a.SetDarkMode?
    ensures r.projects != s.projects ==> a.SetProjects? || a.AddProject? || a.UpdateProject? || a.DeleteProject?
  {
    match a
    case SetProjects(ps) => s.(projects := ps)
    case AddProject(p) => s.(projects := s.projects + [p])
    case UpdateProject(p) => s.(projects := ReplaceById(s.projects, p))
    case DeleteProject(id) => s.(projects := RemoveById(s.projects, id))
    case SetSelectedProject(sel) => s.(selectedProject := sel)
    case SetDarkMode(dark) => s.(darkMode := dark)
    case _ => s
  }

  /** SET_PROJECTS replaces the list wholesale. */
  lemma SetProjectsReplaces(s: State, ps: seq<Project>)
    ensures Reduce(s, SetProjects(ps)) == s.(projects := ps)
  {
  }

  /** ADD_PROJECT appends at the end. */
  lemma AddProjectAppends(s: State, p: Project)
    ensures var r := Reduce(s, AddProject(p));
      |r.projects| == |s.projects| + 1 && r.projects[..|s.projects|] == s.projects && r.projects[|s.projects|] == p
  {
  }

  /** UPDATE_PROJECT keeps the length and the ids at every index, replaces the matches and keeps every other project. */
  lemma UpdateProjectKeepsShape(s: State, p: Project)
    ensures var r := Reduce(s, UpdateProject(p));
      |r.projects| == |s.projects| &&
      (forall i :: 0 <= i < |s.projects| ==> r.projects[i].id == s.projects[i].id) &&
      (forall i :: 0 <= i < |s.projects| && s.projects[i].id == p.id ==> r.projects[i] == p) &&
      (forall i :: 0 <= i < |s.projects| && s.projects[i].id != p.id ==> r.projects[i] == s.projects[i])
  {
  }

  /** DELETE_PROJECT removes the matching projects but, unlike the other two reducers, keeps a selection that was deleted. */
  lemma DeleteKeepsSelection(s: State, id: string)
    ensures var r := Reduce(s, DeleteProject(id));
      r.selectedProject == s.selectedProject &&
      (forall q :: q in r.projects <==> q in s.projects && q.id != id) &&
      r.darkMode == s.darkMode
  {
  }

  /** Ledger and target updates dispatched to this reducer are silently dropped. */
  lemma LedgerActionsIgnored(s: State, id: string, e: ProgressEntry, t: Target, b: Budget)
    ensures Reduce(s, AddProgress(id, e)) == s
    ensures Reduce(s, AddTarget(id, t)) == s
    ensures Reduce(s, AddBudget(id, b)) == s
  {
  }
}
