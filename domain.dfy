/**
  The records the dashboard keeps for a construction project: its salient
  data, monthly revenue targets, the append-only progress ledger and the
  planned budget, plus the process-wide KPI threshold configuration.

  JavaScript fields that may be absent, and that the source reads as
  `field || 0` or `field || []`, are `Option`s here.
 */
module Domain {

  datatype Option<T> = None | Some(value: T) {
    /** The wrapped value, or `default` when absent. */
    function GetOr(default: T): T {
      if Some? then value else default
    }
  }

  /** `x || 0` for an optional amount. */
  function OrZero(x: Option<real>): (r: real)
    ensures x.None? ==> r == 0.0
    ensures x.Some? ==> r == x.value
  {
    x.GetOr(0.0)
  }

  /** A planned revenue target for one calendar month ("2023-06"). */
  datatype Target = Target(month: string, value: Option<real>, createdAt: string)

  /** One entry of an expenditure object: cost head and amount, in insertion order. */
  datatype Expense = Expense(head: string, amount: real)

  /** Cumulative figures as of the start of the reporting period. */
  datatype PreviousMonth = PreviousMonth(
    actualWorkDone: real,
    escalationPercentage: real,
    vettedRevenue: real,
    amountReceived: real)

  /** Raw figures for the reporting period itself. */
  datatype CurrentMonth = CurrentMonth(
    workDone: real,
    escalationPercentage: real,
    vettedRevenue: real,
    amountReceived: real)

  /** The derived `calculations` block of a ledger entry. */
  datatype Cumulative = Cumulative(
    escalationDuringMonth: real,
    uptoDateActualWorkDone: real,
    uptoDateEscalation: real,
    uptoDateActualRevenue: real,
    uptoDateVettedRevenue: real,
    uptoDateAmountReceived: real,
    uptoDateSlippage: real,
    uptoDateReceivable: real)

  /** One progress ledger entry; entries are appended, never edited. */
  datatype ProgressEntry = ProgressEntry(
    date: string,
    previousMonth: PreviousMonth,
    currentMonth: CurrentMonth,
    calculations: Option<Cumulative>,
    expenditures: Option<seq<Expense>>)

  /** A saved planned budget. */
  datatype Budget = Budget(
    tentativeEscalation: real,
    subcontractorCost: real,
    materialCost: real,
    engineerFacilityCost: real,
    hrCost: real,
    generalAdmCost: real,
    overheadCalculationMethod: string,
    createdAt: string)

  /** Descriptive project data that no calculation reads. */
  datatype Salients = Salients(
    location: string,
    scope: string,
    client: string,
    consultant: string,
    startDate: string,
    completionDate: string,
    revisedCompletionDate: string)

  datatype Project = Project(
    id: string,
    name: string,
    directorate: string,
    category: string,
    status: string,
    salients: Salients,
    caValue: Option<real>,
    revisedCaValue: Option<real>,
    plannedProfitability: Option<real>,
    targets: Option<seq<Target>>,
    progress: Option<seq<ProgressEntry>>,
    expenditures: Option<seq<Expense>>,
    budget: Option<Budget>,
    createdAt: string,
    updatedAt: string)

  /** The progress ledger, `project.progress || []`. */
  function Ledger(p: Project): seq<ProgressEntry> {
    p.progress.GetOr([])
  }

  /** The targets, `project.targets || []`. */
  function TargetsOf(p: Project): seq<Target> {
    p.targets.GetOr([])
  }

  /** Three percentage breakpoints of one risk dimension. */
  datatype Bands = Bands(low: real, moderate: real, high: real)

  /** Breakpoints that are in ascending order, as the defaults are. */
  predicate Ascending(b: Bands) {
    b.low <= b.moderate <= b.high
  }

  datatype KpiThresholds = KpiThresholds(lag: Bands, scopeCreep: Bands, slippage: Bands, receivable: Bands)

  /** The risk labels that the classifier emits. */
  datatype Level = Low | Moderate | High | Danger | Excellent | Satisfactory | Risk

  /** The label as the source spells it. */
  function LevelName(l: Level): string {
    match l
    case Low => "Low"
    case Moderate => "Moderate"
    case High => "High"
    case Danger => "Danger"
    case Excellent => "Excellent"
    case Satisfactory => "Satisfactory"
    case Risk => "Risk"
  }

  /** High or Danger: the labels every alarm rule tests for. */
  predicate Alarming(l: Level) {
    l == High || l == Danger
  }

  /** `costVarianceRisk`. */
  datatype Standing = UnderBudget | OverBudget

  /**
    The per-project figures the report and insight pages read from the
    context's `calculateProjectKPIs`, whose definition is not part of this
    model; any amount may be absent, and the risk fields are whatever
    labels it returns.
   */
  datatype ContextKpis = ContextKpis(
    progressPercentage: Option<real>,
    actualRevenue: Option<real>,
    totalExpenditure: Option<real>,
    costVariance: Option<real>,
    lagRisk: string,
    profitabilityRisk: string,
    slippageRisk: string,
    receivableRisk: string)
}
