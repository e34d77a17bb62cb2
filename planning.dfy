/**
  The planning screen of src/components/ProjectPlanning.js: the planned
  budget totals and margin shown for a project, and the three save
  handlers that turn its forms into store actions.
 */
module Planning {
  import opened Domain
  import opened Store
  import KpiEngine
  import ContextReducer

  /** The six lines of the planned-budget summary. */
  datatype BudgetTotals = BudgetTotals(
    totalPlannedRevenue: real,
    totalDirectCost: real,
    totalOverheadCost: real,
    totalPlannedCost: real,
    plannedGrossProfit: real,
    plannedNetProfit: real)

  /** What a missing budget reads as: every amount 0 and no overhead method. */
  const NoBudget := Budget(0.0, 0.0, 0.0, 0.0, 0.0, 0.0, "", "")

  /** `parseFloat(project?.caValue || 0)`. */
  function ContractValue(project: Option<Project>): real {
    if project.Some? then OrZero(project.value.caValue) else 0.0
  }

  /**
    `calculateBudgetTotals`: revenue is the contract value grown by the
    escalation percentage; overhead is a tenth of the contract value when
    the method is exactly "percentage", and the HR plus administration
    lines otherwise.
   */
  function CalculateBudgetTotals(budget: Option<Budget>, project: Option<Project>): (t: BudgetTotals)
    ensures var ca, b := ContractValue(project), budget.GetOr(NoBudget);
      t.totalPlannedRevenue * 100.0 == ca * (100.0 + b.tentativeEscalation)
    ensures var b := budget.GetOr(NoBudget);
      t.totalDirectCost == b.subcontractorCost + b.materialCost + b.engineerFacilityCost
    ensures var ca, b := ContractValue(project), budget.GetOr(NoBudget);
      t.totalOverheadCost == if b.overheadCalculationMethod == "percentage" then ca * 0.1 else b.hrCost + b.generalAdmCost
    ensures t.totalPlannedCost == t.totalDirectCost + t.totalOverheadCost
    ensures t.plannedGrossProfit == t.totalPlannedRevenue - t.totalDirectCost
    ensures t.plannedNetProfit == t.totalPlannedRevenue - t.totalPlannedCost
    ensures t.plannedGrossProfit - t.plannedNetProfit == t.totalOverheadCost
  {
    var ca := ContractValue(project);
    var b := budget.GetOr(NoBudget);
    var escalation := ca * (b.tentativeEscalation / 100.0);
    var revenue := ca + escalation;
    var direct := b.subcontractorCost + b.materialCost + b.engineerFacilityCost;
    var overhead := if b.overheadCalculationMethod == "percentage" then ca * 0.1 else b.hrCost + b.generalAdmCost;
    var gross := revenue - direct;
    BudgetTotals(revenue, direct, overhead, direct + overhead, gross, gross - overhead)
  }

  /** Without a budget only the contract value remains: no cost, and all of it profit. */
  lemma NoBudgetTotals(project: Option<Project>)
    ensures var t, ca := CalculateBudgetTotals(None, project), ContractValue(project);
      t == BudgetTotals(ca, 0.0, 0.0, 0.0, ca, ca)
  {
    var t := CalculateBudgetTotals(None, project);
    assert t.totalPlannedRevenue * 100.0 == ContractValue(project) * 100.0;
  }

  /**
    Switching the overhead method changes only the overhead line and, by the
    same amount in the other direction, the planned net profit.
   */
  lemma OverheadMethodOnlyMovesOverhead(b: Budget, project: Option<Project>, other: string)
    ensures var t, u := CalculateBudgetTotals(Some(b), project),
                        CalculateBudgetTotals(Some(b.(overheadCalculationMethod := other)), project);
      u.totalPlannedRevenue == t.totalPlannedRevenue && u.totalDirectCost == t.totalDirectCost &&
      u.plannedGrossProfit == t.plannedGrossProfit &&
      u.plannedNetProfit - t.plannedNetProfit == t.totalOverheadCost - u.totalOverheadCost
  {
    var t := CalculateBudgetTotals(Some(b), project);
    var u := CalculateBudgetTotals(Some(b.(overheadCalculationMethod := other)), project);
    assert u.totalPlannedRevenue * 100.0 == t.totalPlannedRevenue * 100.0;
  }

  /**
    With non-negative amounts and escalation every cost line is
    non-negative, and the profits never exceed the revenue.
   */
  lemma TotalsBounded(b: Budget, project: Option<Project>)
    requires ContractValue(project) >= 0.0 && b.tentativeEscalation >= 0.0
    requires b.subcontractorCost >= 0.0 && b.materialCost >= 0.0 && b.engineerFacilityCost >= 0.0
    requires b.hrCost >= 0.0 && b.generalAdmCost >= 0.0
    ensures var t := CalculateBudgetTotals(Some(b), project);
      t.totalPlannedRevenue >= ContractValue(project) && t.totalOverheadCost >= 0.0 &&
      t.totalPlannedCost >= t.totalDirectCost >= 0.0 &&
      t.plannedNetProfit <= t.plannedGrossProfit <= t.totalPlannedRevenue
  {
    var ca := ContractValue(project);
    assert ca * (100.0 + b.tentativeEscalation) >= ca * 100.0;
  }

  /** The margin row: 0 when there is no planned revenue, else net profit as a percentage of revenue. */
  function ProfitMargin(t: BudgetTotals): (m: real)
    ensures t.totalPlannedRevenue <= 0.0 ==> m == 0.0
    ensures t.totalPlannedRevenue > 0.0 ==> m * t.totalPlannedRevenue == t.plannedNetProfit * 100.0
  {
    KpiEngine.GuardedPercent(t.plannedNetProfit, t.totalPlannedRevenue)
  }

  /**
    With planned revenue, the margin has the sign of the net profit and is
    at most 100% as long as the planned cost is not negative.
   */
  lemma {:induction false} MarginBounds(t: BudgetTotals)
    requires t.totalPlannedRevenue > 0.0
    requires t.plannedNetProfit == t.totalPlannedRevenue - t.totalPlannedCost
    ensures ProfitMargin(t) >= 0.0 <==> t.plannedNetProfit >= 0.0
    ensures t.totalPlannedCost >= 0.0 ==> ProfitMargin(t) <= 100.0
  {
    if t.totalPlannedCost >= 0.0 {
      ShareOfRevenue(ProfitMargin(t), t.totalPlannedRevenue, t.totalPlannedCost);
    }
  }

  /** A percentage of a positive revenue that leaves a non-negative cost uncovered is at most 100. */
  lemma ShareOfRevenue(m: real, revenue: real, cost: real)
    requires revenue > 0.0 && cost >= 0.0
    requires m * revenue == (revenue - cost) * 100.0
    ensures m <= 100.0
  {
    assert m * revenue <= 100.0 * revenue;
    assert (m - 100.0) * revenue <= 0.0;
  }

  /** The project form; `None` is a blank amount. */
  datatype ProjectForm = ProjectForm(
    name: string,
    directorate: string,
    category: string,
    salients: Salients,
    caValue: Option<real>,
    revisedCaValue: Option<real>,
    status: string)

  const BlankSalients := Salients("", "", "", "", "", "", "")
  const BlankProjectForm := ProjectForm("", "", "", BlankSalients, None, None, "Planning")

  /**
    The project a save builds: the form's fields, the selected project's id
    and creation time when it has them (a blank one falls back to the fresh
    ones), and `now` as the update time. It carries no targets, ledger,
    expenditures or budget.
   */
  function ProjectFrom(form: ProjectForm, selected: Option<Project>, generatedId: string, now: string): (p: Project)
    ensures p.id == if selected.Some? && selected.value.id != "" then selected.value.id else generatedId
    ensures p.createdAt == if selected.Some? && selected.value.createdAt != "" then selected.value.createdAt else now
    ensures p.updatedAt == now
    ensures p.name == form.name && p.directorate == form.directorate && p.category == form.category
    ensures p.status == form.status && p.salients == form.salients
    ensures p.caValue == form.caValue && p.revisedCaValue == form.revisedCaValue
    ensures p.plannedProfitability == None && p.targets == None && p.progress == None
    ensures p.expenditures == None && p.budget == None
  {
    var id := if selected.Some? && selected.value.id != "" then selected.value.id else generatedId;
    var createdAt := if selected.Some? && selected.value.createdAt != "" then selected.value.createdAt else now;
    Project(id, form.name, form.directorate, form.category, form.status, form.salients,
            form.caValue, form.revisedCaValue, None, None, None, None, None, createdAt, now)
  }

  /** `handleSaveProject`'s dispatch: an update when a project is selected, an addition otherwise. */
  function SaveProjectCall(form: ProjectForm, selected: Option<Project>, generatedId: string, now: string): (a: Action)
    ensures a.UpdateProject? <==> selected.Some?
    ensures a.AddProject? <==> selected.None?
    ensures a.UpdateProject? || a.AddProject?
    ensures a.project == ProjectFrom(form, selected, generatedId, now)
  {
    var p := ProjectFrom(form, selected, generatedId, now);
    if selected.Some? then UpdateProject(p) else AddProject(p)
  }

  /** The target form; `None` is a blank value. */
  datatype TargetForm = TargetForm(projectId: string, month: string, value: Option<real>)

  /** `handleAddTarget`'s call: only when project, month and value are all filled in. */
  function AddTargetCall(form: TargetForm, now: string): (a: Option<Action>)
    ensures a.Some? <==> form.projectId != "" && form.month != "" && form.value.Some?
    ensures a.Some? ==> a.value == AddTarget(form.projectId, Target(form.month, form.value, now))
  {
    if form.projectId != "" && form.month != "" && form.value.Some? then
      Some(AddTarget(form.projectId, Target(form.month, form.value, now)))
    else
      None
  }

  /** The budget form; `None` is a blank amount. */
  datatype BudgetForm = BudgetForm(
    projectId: string,
    tentativeEscalation: Option<real>,
    subcontractorCost: Option<real>,
    materialCost: Option<real>,
    engineerFacilityCost: Option<real>,
    hrCost: Option<real>,
    generalAdmCost: Option<real>,
    overheadCalculationMethod: string)

  const InitialBudgetForm := BudgetForm("", None, None, None, None, None, None, "percentage")

  /** `handleSaveBudget`'s call: only with a project chosen; a blank amount is stored as 0. */
  function SaveBudgetCall(form: BudgetForm, now: string): (a: Option<Action>)
    ensures a.Some? <==> form.projectId != ""
    ensures a.Some? ==> a.value.AddBudget? && a.value.projectId == form.projectId
    ensures a.Some? ==> var b := a.value.budget;
      b.tentativeEscalation == OrZero(form.tentativeEscalation) &&
      b.subcontractorCost == OrZero(form.subcontractorCost) && b.materialCost == OrZero(form.materialCost) &&
      b.engineerFacilityCost == OrZero(form.engineerFacilityCost) && b.hrCost == OrZero(form.hrCost) &&
      b.generalAdmCost == OrZero(form.generalAdmCost) &&
      b.overheadCalculationMethod == form.overheadCalculationMethod && b.createdAt == now
  {
    if form.projectId != "" then
      Some(AddBudget(form.projectId,
        Budget(OrZero(form.tentativeEscalation), OrZero(form.subcontractorCost), OrZero(form.materialCost),
               OrZero(form.engineerFacilityCost), OrZero(form.hrCost), OrZero(form.generalAdmCost),
               form.overheadCalculationMethod, now)))
    else
      None
  }

  /** The planning screen's own state: the wizard step and the three forms. */
  class ProjectPlanner {
    var activeStep: int
    var projectData: ProjectForm
    var targetData: TargetForm
    var budgetData: BudgetForm

    /** The screen opens on the first step with blank forms and the percentage overhead method. */
    constructor ()
      ensures activeStep == 0 && projectData == BlankProjectForm
      ensures targetData == TargetForm("", "", None) && budgetData == InitialBudgetForm
    {
      activeStep := 0;
      projectData := BlankProjectForm;
      targetData := TargetForm("", "", None);
      budgetData := InitialBudgetForm;
    }

    /**
      `handleSaveProject`: dispatches `SaveProjectCall` of the form as it
      stood, then returns to the first step with a blank project form.
     */
    method SaveProject(selected: Option<Project>, generatedId: string, now: string) returns (call: Action)
      modifies this
      ensures call == SaveProjectCall(old(projectData), selected, generatedId, now)
      ensures activeStep == 0 && projectData == BlankProjectForm
      ensures targetData == old(targetData) && budgetData == old(budgetData)
    {
      call := SaveProjectCall(projectData, selected, generatedId, now);
      ResetProjectForm();
    }

    method ResetProjectForm()
      modifies this
      ensures activeStep == 0 && projectData == BlankProjectForm
      ensures targetData == old(targetData) && budgetData == old(budgetData)
    {
      activeStep, projectData := 0, BlankProjectForm;
    }

    /**
      `handleAddTarget`: when the call is made the month and value are
      cleared and the project stays chosen; otherwise nothing changes.
     */
    method AddTargetToProject(now: string) returns (call: Option<Action>)
      modifies this
      ensures call == AddTargetCall(old(targetData), now)
      ensures call.Some? ==> targetData == old(targetData).(month := "", value := None)
      ensures call.None? ==> targetData == old(targetData)
      ensures activeStep == old(activeStep) && projectData == old(projectData) && budgetData == old(budgetData)
    {
      call := AddTargetCall(targetData, now);
      if call.Some? {
        ClearTarget();
      }
    }

    method ClearTarget()
      modifies this
      ensures targetData == old(targetData).(month := "", value := None)
      ensures activeStep == old(activeStep) && projectData == old(projectData) && budgetData == old(budgetData)
    {
      targetData := targetData.(month := "", value := None);
    }

    /** `handleSaveBudget`: makes `SaveBudgetCall`'s call and keeps the form as it is. */
    method SaveBudget(now: string) returns (call: Option<Action>)
      ensures call == SaveBudgetCall(budgetData, now)
    {
      call := SaveBudgetCall(budgetData, now);
    }
  }

  /**
    Saving over a selected project replaces it wholesale: once the update is
    dispatched, every project with its id has the form's data and no
    targets, ledger or budget, whatever it had before.
   */
  lemma SavedUpdateDropsLedger(s: ContextReducer.State, form: ProjectForm, selected: Project, generatedId: string, now: string)
    ensures var r := ContextReducer.Reduce(s, SaveProjectCall(form, Some(selected), generatedId, now));
      var p := ProjectFrom(form, Some(selected), generatedId, now);
      |r.projects| == |s.projects| &&
      forall i :: 0 <= i < |s.projects| && s.projects[i].id == p.id ==>
        r.projects[i] == p && Ledger(r.projects[i]) == [] && TargetsOf(r.projects[i]) == [] &&
        r.projects[i].budget == None && KpiEngine.CalculateProjectKpis(r.projects[i]) == KpiEngine.NoKpis
  {
  }

  /** A new project is appended with an empty ledger, so its KPI set starts at zero. */
  lemma SavedNewProjectStartsEmpty(s: ContextReducer.State, form: ProjectForm, generatedId: string, now: string)
    ensures var r := ContextReducer.Reduce(s, SaveProjectCall(form, None, generatedId, now));
      |r.projects| == |s.projects| + 1 && r.projects[..|s.projects|] == s.projects &&
      r.projects[|s.projects|].id == generatedId &&
      KpiEngine.CalculateProjectKpis(r.projects[|s.projects|]) == KpiEngine.NoKpis
  {
    ContextReducer.AddProjectAppends(s, ProjectFrom(form, None, generatedId, now));
  }

  /** A dispatched target call appends the target to the chosen project's targets and to no other list. */
  lemma SavedTargetAppends(s: ContextReducer.State, form: TargetForm, now: string)
    requires AddTargetCall(form, now).Some?
    ensures var r := ContextReducer.Reduce(s, AddTargetCall(form, now).value);
      |r.projects| == |s.projects| &&
      forall i :: 0 <= i < |s.projects| ==>
        TargetsOf(r.projects[i]) ==
          TargetsOf(s.projects[i]) + (if s.projects[i].id == form.projectId then [Target(form.month, form.value, now)] else []) &&
        r.projects[i].(targets := s.projects[i].targets) == s.projects[i]
  {
    TargetAppendOnly(s.projects, form.projectId, Target(form.month, form.value, now));
  }

  /**
    A dispatched budget call gives the chosen project that budget, and its
    summary then reads the entered amounts, blanks as 0.
   */
  lemma SavedBudgetTotals(s: ContextReducer.State, form: BudgetForm, now: string)
    requires SaveBudgetCall(form, now).Some?
    ensures var b := SaveBudgetCall(form, now).value.budget;
      var r := ContextReducer.Reduce(s, SaveBudgetCall(form, now).value);
      |r.projects| == |s.projects| &&
      forall i :: 0 <= i < |s.projects| && s.projects[i].id == form.projectId ==>
        r.projects[i].budget == Some(b) &&
        CalculateBudgetTotals(r.projects[i].budget, Some(r.projects[i])).totalDirectCost ==
          OrZero(form.subcontractorCost) + OrZero(form.materialCost) + OrZero(form.engineerFacilityCost)
  {
    var b := SaveBudgetCall(form, now).value.budget;
    BudgetReplacedOnly(s.projects, form.projectId, b);
  }
}
