/**
  The KPI and risk engine of src/utils/calculations.js: the KPI set read off
  the latest ledger entry, the guarded ratios and their risk tiers, the
  progress percentage and the portfolio statistics.
 */
module KpiEngine {
  import opened Domain
  import opened Tally

  /** The KPI set: the latest cumulative snapshot of a project. */
  datatype Kpis = Kpis(
    actualRevenue: real,
    vettedRevenue: real,
    amountReceived: real,
    slippage: real,
    receivable: real,
    expenditures: seq<Expense>)

  /** The KPI set of a project without ledger entries. */
  const NoKpis := Kpis(0.0, 0.0, 0.0, 0.0, 0.0, [])

  /** The KPI set recorded in one ledger entry; a missing block reads as zero. */
  function EntryKpis(e: ProgressEntry): (k: Kpis)
    ensures e.calculations.None? ==> k == NoKpis.(expenditures := k.expenditures)
    ensures e.calculations.Some? ==>
      var c := e.calculations.value;
      k.actualRevenue == c.uptoDateActualRevenue && k.vettedRevenue == c.uptoDateVettedRevenue &&
      k.amountReceived == c.uptoDateAmountReceived && k.slippage == c.uptoDateSlippage &&
      k.receivable == c.uptoDateReceivable
    ensures k.expenditures == if e.expenditures.Some? then e.expenditures.value else []
  {
    match e.calculations
    case None => Kpis(0.0, 0.0, 0.0, 0.0, 0.0, e.expenditures.GetOr([]))
    case Some(c) =>
      Kpis(c.uptoDateActualRevenue, c.uptoDateVettedRevenue, c.uptoDateAmountReceived,
           c.uptoDateSlippage, c.uptoDateReceivable, e.expenditures.GetOr([]))
  }

  /** `calculateProjectKPIs`: reads only the last ledger entry. */
  function CalculateProjectKpis(p: Project): (k: Kpis)
    ensures Ledger(p) == [] ==> k == NoKpis
    ensures Ledger(p) != [] ==> k == EntryKpis(Ledger(p)[|Ledger(p)| - 1])
  {
    if p.progress.Some? && |p.progress.value| > 0 then
      EntryKpis(p.progress.value[|p.progress.value| - 1])
    else
      NoKpis
  }

  /** Whatever came before the latest entry, the KPI set is that entry's. */
  lemma EarlierEntriesIrrelevant(p: Project, history: seq<ProgressEntry>, other: seq<ProgressEntry>, latest: ProgressEntry)
    ensures CalculateProjectKpis(p.(progress := Some(history + [latest])))
         == CalculateProjectKpis(p.(progress := Some(other + [latest])))
         == EntryKpis(latest)
  {
  }

  /** Sum of the targets' values, a missing value counting as 0. */
  function PlannedRevenue(targets: seq<Target>): real {
    Sum(targets, TargetValue)
  }

  function TargetValue(t: Target): real {
    OrZero(t.value)
  }

  /** Sum of the amounts of an expenditure object. */
  function TotalExpenditure(es: seq<Expense>): real {
    Sum(es, ExpenseAmount)
  }

  function ExpenseAmount(e: Expense): real {
    e.amount
  }

  /** `whole > 0 ? part / whole * 100 : 0`, the guard every ratio uses. */
  function GuardedPercent(part: real, whole: real): (r: real)
    ensures whole <= 0.0 ==> r == 0.0
    ensures whole > 0.0 ==> r * whole == part * 100.0
    ensures whole > 0.0 ==> (r < 0.0 <==> part < 0.0) && (r == 0.0 <==> part == 0.0)
  {
    if whole > 0.0 then
      var q := part / whole;
      assert q * whole == part;
      q * 100.0
    else
      0.0
  }

  /**
    The tier of a percentage: the first of the three inclusive upper bounds
    it does not exceed (0, 1, 2), or 3 when it exceeds all of them.
   */
  function Band(pct: real, b: Bands): (tier: nat)
    ensures tier <= 3
    ensures tier == 0 <==> pct <= b.low
    ensures Ascending(b) ==> tier == Exceeded(pct, b)
  {
    if pct <= b.low then 0
    else if pct <= b.moderate then 1
    else if pct <= b.high then 2
    else 3
  }

  /** How many of the three breakpoints the percentage lies strictly above. */
  function Exceeded(pct: real, b: Bands): nat {
    (if pct > b.low then 1 else 0) + (if pct > b.moderate then 1 else 0) + (if pct > b.high then 1 else 0)
  }

  /** Tier names for lag and scope creep. */
  function ExposureLevel(tier: nat): Level
    requires tier <= 3
  {
    [Low, Moderate, High, Danger][tier]
  }

  /** Tier names for slippage and receivable. */
  function CollectionLevel(tier: nat): Level
    requires tier <= 3
  {
    [Satisfactory, Low, High, Danger][tier]
  }

  /** `profitabilityRisk`: against the planned profitability, then 92% and 85% of it. */
  function ProfitabilityLevel(profitability: real, planned: real): (l: Level)
    ensures l == Excellent || l == Satisfactory || l == Risk || l == Danger
    ensures l == Excellent <==> profitability >= planned
    ensures planned <= 0.0 ==> l == Excellent || l == Danger
    ensures planned > 0.0 ==> (l == Satisfactory <==> planned * 0.92 <= profitability < planned)
    ensures planned > 0.0 ==> (l == Risk <==> planned * 0.85 <= profitability < planned * 0.92)
    ensures planned > 0.0 ==> (l == Danger <==> profitability < planned * 0.85)
  {
    if profitability >= planned then Excellent
    else if profitability >= planned * 0.92 then Satisfactory
    else if profitability >= planned * 0.85 then Risk
    else Danger
  }

  /** The record `calculateRiskLevels` returns. */
  datatype RiskLevels = RiskLevels(
    lag: real,
    lagPercentage: real,
    lagRisk: Level,
    scopeCreep: real,
    scopeCreepPercentage: real,
    scopeCreepRisk: Level,
    costVariance: real,
    costVarianceRisk: Standing,
    profitability: real,
    profitabilityRisk: Level,
    slippage: real,
    slippagePercentage: real,
    slippageRisk: Level,
    receivable: real,
    receivablePercentage: real,
    receivableRisk: Level,
    totalExpenditure: real,
    plannedRevenue: real,
    actualRevenue: real)

  /** `calculateRiskLevels`. */
  function CalculateRiskLevels(p: Project, k: Kpis, t: KpiThresholds): (r: RiskLevels)
    // the echoed and summed inputs
    ensures r.plannedRevenue == PlannedRevenue(TargetsOf(p)) && r.actualRevenue == k.actualRevenue
    ensures r.totalExpenditure == TotalExpenditure(k.expenditures)
    ensures r.slippage == k.slippage && r.receivable == k.receivable
    // the differences, never clamped
    ensures r.lag == r.plannedRevenue - r.actualRevenue
    ensures r.scopeCreep == OrZero(p.revisedCaValue) - OrZero(p.caValue)
    ensures r.costVariance == r.actualRevenue - r.totalExpenditure
    // every ratio is 0 when its denominator is not positive, and is a percentage otherwise
    ensures r.lagPercentage == GuardedPercent(r.lag, r.plannedRevenue)
    ensures r.scopeCreepPercentage == GuardedPercent(r.scopeCreep, OrZero(p.caValue))
    ensures r.profitability == GuardedPercent(r.costVariance, r.totalExpenditure)
    ensures r.slippagePercentage == GuardedPercent(k.slippage, k.actualRevenue)
    ensures r.receivablePercentage == GuardedPercent(k.receivable, k.amountReceived)
    // the tiers
    ensures r.lagRisk == ExposureLevel(Band(r.lagPercentage, t.lag))
    ensures r.scopeCreepRisk == ExposureLevel(Band(r.scopeCreepPercentage, t.scopeCreep))
    ensures r.slippageRisk == CollectionLevel(Band(r.slippagePercentage, t.slippage))
    ensures r.receivableRisk == CollectionLevel(Band(r.receivablePercentage, t.receivable))
    ensures r.costVarianceRisk == UnderBudget <==> r.costVariance >= 0.0
    ensures r.profitabilityRisk == ProfitabilityLevel(r.profitability, OrZero(p.plannedProfitability))
    // the safest and the worst tier, in the thresholds' own terms
    ensures r.lagRisk == Low <==> r.lagPercentage <= t.lag.low
    ensures r.scopeCreepRisk == Low <==> r.scopeCreepPercentage <= t.scopeCreep.low
    ensures r.slippageRisk == Satisfactory <==> r.slippagePercentage <= t.slippage.low
    ensures r.receivableRisk == Satisfactory <==> r.receivablePercentage <= t.receivable.low
    ensures Ascending(t.lag) ==> (r.lagRisk == Danger <==> r.lagPercentage > t.lag.high)
    ensures Ascending(t.scopeCreep) ==> (r.scopeCreepRisk == Danger <==> r.scopeCreepPercentage > t.scopeCreep.high)
    ensures Ascending(t.slippage) ==> (r.slippageRisk == Danger <==> r.slippagePercentage > t.slippage.high)
    ensures Ascending(t.receivable) ==> (r.receivableRisk == Danger <==> r.receivablePercentage > t.receivable.high)
    ensures r.profitabilityRisk == Excellent <==> r.profitability >= OrZero(p.plannedProfitability)
  {
    var plannedRevenue := PlannedRevenue(TargetsOf(p));
    var lag := plannedRevenue - k.actualRevenue;
    var scopeCreep := OrZero(p.revisedCaValue) - OrZero(p.caValue);
    var totalExpenditure := TotalExpenditure(k.expenditures);
    var costVariance := k.actualRevenue - totalExpenditure;
    var lagPercentage := GuardedPercent(lag, plannedRevenue);
    var scopeCreepPercentage := GuardedPercent(scopeCreep, OrZero(p.caValue));
    var profitability := GuardedPercent(costVariance, totalExpenditure);
    var slippagePercentage := GuardedPercent(k.slippage, k.actualRevenue);
    var receivablePercentage := GuardedPercent(k.receivable, k.amountReceived);
    RiskLevels(
      lag, lagPercentage, ExposureLevel(Band(lagPercentage, t.lag)),
      scopeCreep, scopeCreepPercentage, ExposureLevel(Band(scopeCreepPercentage, t.scopeCreep)),
      costVariance, if costVariance >= 0.0 then UnderBudget else OverBudget,
      profitability, ProfitabilityLevel(profitability, OrZero(p.plannedProfitability)),
      k.slippage, slippagePercentage, CollectionLevel(Band(slippagePercentage, t.slippage)),
      k.receivable, receivablePercentage, CollectionLevel(Band(receivablePercentage, t.receivable)),
      totalExpenditure, plannedRevenue, k.actualRevenue)
  }

  /** The high-risk test of `calculateStatistics`. */
  predicate IsHighRisk(r: RiskLevels) {
    Alarming(r.lagRisk) || Alarming(r.scopeCreepRisk) ||
    r.profitabilityRisk == Risk || r.profitabilityRisk == Danger ||
    Alarming(r.slippageRisk) || Alarming(r.receivableRisk)
  }

  /** A later percentage never lands in a safer tier, whatever the breakpoints. */
  lemma BandMonotone(x: real, y: real, b: Bands)
    requires x <= y
    ensures Band(x, b) <= Band(y, b)
  {
  }

  /** A percentage exactly on a breakpoint falls in the safer of the two tiers. */
  lemma OnBreakpointIsSafer(b: Bands)
    requires Ascending(b)
    ensures Band(b.low, b) == 0
    ensures Band(b.moderate, b) <= 1
    ensures Band(b.high, b) <= 2
    ensures b.low < b.moderate ==> Band(b.moderate, b) == 1
    ensures b.moderate < b.high ==> Band(b.high, b) == 2
  {
  }

  /** With ascending breakpoints, each tier is exactly an interval. */
  lemma BandIntervals(pct: real, b: Bands)
    requires Ascending(b)
    ensures Band(pct, b) == 1 <==> b.low < pct <= b.moderate
    ensures Band(pct, b) == 2 <==> b.moderate < pct <= b.high
    ensures Band(pct, b) == 3 <==> b.high < pct
  {
  }

  /** Whatever the plan, higher profitability never gets a worse label. */
  lemma ProfitabilityMonotone(x: real, y: real, planned: real)
    requires x <= y
    ensures Rank(ProfitabilityLevel(x, planned)) >= Rank(ProfitabilityLevel(y, planned))
  {
  }

  /** Position of a profitability label, best first. */
  function Rank(l: Level): nat {
    match l
    case Excellent => 0
    case Satisfactory => 1
    case Risk => 2
    case _ => 3
  }

  /** No targets, or targets summing to at most 0, give no lag percentage and, with a non-negative `low` breakpoint, a Low lag risk. */
  lemma NoPlanNoLag(p: Project, k: Kpis, t: KpiThresholds)
    requires PlannedRevenue(TargetsOf(p)) <= 0.0
    ensures CalculateRiskLevels(p, k, t).lagPercentage == 0.0
    ensures t.lag.low >= 0.0 ==> CalculateRiskLevels(p, k, t).lagRisk == Low
  {
  }

  /** Nothing spent: profitability is 0 and never an infinite value. */
  lemma NothingSpentNoProfitability(p: Project, k: Kpis, t: KpiThresholds)
    requires TotalExpenditure(k.expenditures) <= 0.0
    ensures CalculateRiskLevels(p, k, t).profitability == 0.0
  {
  }

  /** Nothing received: the receivable percentage is 0, and so Satisfactory for a non-negative `low`. */
  lemma NothingReceivedSatisfactory(p: Project, k: Kpis, t: KpiThresholds)
    requires k.amountReceived <= 0.0
    ensures CalculateRiskLevels(p, k, t).receivablePercentage == 0.0
    ensures t.receivable.low >= 0.0 ==> CalculateRiskLevels(p, k, t).receivableRisk == Satisfactory
  {
  }

  /** The profitability rule never emits High. */
  lemma ProfitabilityNeverHigh(p: Project, k: Kpis, t: KpiThresholds)
    ensures CalculateRiskLevels(p, k, t).profitabilityRisk != High
    ensures Alarming(CalculateRiskLevels(p, k, t).profitabilityRisk) <==>
            CalculateRiskLevels(p, k, t).profitabilityRisk == Danger
  {
  }

  /** `calculateProgressPercentage`. */
  function ProgressPercentage(p: Project): (r: real)
    ensures OrZero(p.caValue) == 0.0 || CalculateProjectKpis(p).actualRevenue <= 0.0 ==> r == 0.0
    ensures OrZero(p.caValue) != 0.0 && CalculateProjectKpis(p).actualRevenue > 0.0 ==>
            r * OrZero(p.caValue) == CalculateProjectKpis(p).actualRevenue * 100.0
  {
    var ca := OrZero(p.caValue);
    if ca == 0.0 then 0.0
    else
      var actual := CalculateProjectKpis(p).actualRevenue;
      if actual > 0.0 then
        var q := actual / ca;
        assert q * ca == actual;
        q * 100.0
      else 0.0
  }

  /** Revenue at or below the contract value is at most 100% progress. */
  lemma ProgressAtMostHundred(p: Project)
    requires OrZero(p.caValue) > 0.0
    requires CalculateProjectKpis(p).actualRevenue <= OrZero(p.caValue)
    ensures 0.0 <= ProgressPercentage(p) <= 100.0
  {
    var ca, actual := OrZero(p.caValue), CalculateProjectKpis(p).actualRevenue;
    if actual > 0.0 {
      var r := ProgressPercentage(p);
      AtMostHundred(r, ca, actual);
    }
  }

  /** A share `r` of `ca` with `r * ca == actual * 100` for `0 < actual <= ca` lies in [0, 100]. */
  lemma AtMostHundred(r: real, ca: real, actual: real)
    requires ca > 0.0 && 0.0 < actual <= ca && r * ca == actual * 100.0
    ensures 0.0 <= r <= 100.0
  {
    assert (r - 100.0) * ca == (actual - ca) * 100.0;
    assert r * ca > 0.0;
  }

  // ---- portfolio statistics ----

  /** The record `calculateStatistics` returns. */
  datatype Statistics = Statistics(
    total: nat,
    inProgress: nat,
    completed: nat,
    planning: nat,
    highRisk: nat,
    totalCAValue: real,
    totalRevenue: real,
    totalExpenditure: real,
    totalProfit: real)

  /** The per-project calculators `calculateStatistics` is handed. */
  type KpiCalculator = Project -> Kpis
  type RiskCalculator = (Project, Kpis, KpiThresholds) -> RiskLevels

  function StatusIs(status: string): Project -> bool {
    (p: Project) => p.status == status
  }

  function CAValueOf(p: Project): real {
    OrZero(p.caValue)
  }

  function RevenueOf(kpisOf: KpiCalculator): Project -> real {
    (p: Project) => kpisOf(p).actualRevenue
  }

  function SpendingOf(kpisOf: KpiCalculator, riskOf: RiskCalculator, t: KpiThresholds): Project -> real {
    (p: Project) => riskOf(p, kpisOf(p), t).totalExpenditure
  }

  function FlaggedBy(kpisOf: KpiCalculator, riskOf: RiskCalculator, t: KpiThresholds): Project -> bool {
    (p: Project) => IsHighRisk(riskOf(p, kpisOf(p), t))
  }

  /** `calculateStatistics`: status counts and totals, revenue, spending and the high-risk count in one pass. */
  method CalculateStatistics(projects: seq<Project>, kpisOf: KpiCalculator, riskOf: RiskCalculator, t: KpiThresholds)
    returns (s: Statistics)
    ensures s.total == |projects|
    ensures s.inProgress == Count(projects, StatusIs("In Progress"))
    ensures s.completed == Count(projects, StatusIs("Completed"))
    ensures s.planning == Count(projects, StatusIs("Planning"))
    ensures s.totalCAValue == Sum(projects, CAValueOf)
    ensures s.totalRevenue == Sum(projects, RevenueOf(kpisOf))
    ensures s.totalExpenditure == Sum(projects, SpendingOf(kpisOf, riskOf, t))
    ensures s.highRisk == Count(projects, FlaggedBy(kpisOf, riskOf, t))
    ensures s.totalProfit == s.totalRevenue - s.totalExpenditure
  {
    var total := |projects|;
    var inProgress := Count(projects, StatusIs("In Progress"));
    var completed := Count(projects, StatusIs("Completed"));
    var planning := Count(projects, StatusIs("Planning"));
    var totalCAValue := Sum(projects, CAValueOf);

    var totalRevenue, totalExpenditure, highRiskCount := 0.0, 0.0, 0;
    var i := 0;
    while i < |projects|
      invariant 0 <= i <= |projects|
      invariant totalRevenue == Sum(projects[..i], RevenueOf(kpisOf))
      invariant totalExpenditure == Sum(projects[..i], SpendingOf(kpisOf, riskOf, t))
      invariant highRiskCount == Count(projects[..i], FlaggedBy(kpisOf, riskOf, t))
    {
      var project := projects[i];
      var kpis := kpisOf(project);
      var riskLevels := riskOf(project, kpis, t);
      totalRevenue := totalRevenue + kpis.actualRevenue;
      totalExpenditure := totalExpenditure + riskLevels.totalExpenditure;
      if IsHighRisk(riskLevels) {
        highRiskCount := highRiskCount + 1;
      }
      assert projects[..i + 1][..i] == projects[..i];
      i := i + 1;
    }
    assert projects[..|projects|] == projects;
    s := Statistics(total, inProgress, completed, planning, highRiskCount,
                    totalCAValue, totalRevenue, totalExpenditure, totalRevenue - totalExpenditure);
  }

  /** The three status counts never exceed the number of projects. */
  lemma StatusCountsBounded(projects: seq<Project>)
    ensures Count(projects, StatusIs("In Progress")) + Count(projects, StatusIs("Completed"))
          + Count(projects, StatusIs("Planning")) <= |projects|
  {
    DisjointCountsBounded(projects, StatusIs("In Progress"), StatusIs("Completed"), StatusIs("Planning"));
  }

  /** The high-risk count is the number of projects the high-risk test keeps. */
  lemma HighRiskCountIsFiltered(projects: seq<Project>, kpisOf: KpiCalculator, riskOf: RiskCalculator, t: KpiThresholds)
    ensures Count(projects, FlaggedBy(kpisOf, riskOf, t)) == |Filter(projects, FlaggedBy(kpisOf, riskOf, t))|
    ensures Count(projects, FlaggedBy(kpisOf, riskOf, t)) <= |projects|
  {
    FilterLength(projects, FlaggedBy(kpisOf, riskOf, t));
  }

  /** The financial totals of two project lists add up to those of their concatenation. */
  lemma TotalsAdditive(a: seq<Project>, b: seq<Project>, kpisOf: KpiCalculator, riskOf: RiskCalculator, t: KpiThresholds)
    ensures Sum(a + b, CAValueOf) == Sum(a, CAValueOf) + Sum(b, CAValueOf)
    ensures Sum(a + b, RevenueOf(kpisOf)) == Sum(a, RevenueOf(kpisOf)) + Sum(b, RevenueOf(kpisOf))
    ensures Sum(a + b, SpendingOf(kpisOf, riskOf, t))
         == Sum(a, SpendingOf(kpisOf, riskOf, t)) + Sum(b, SpendingOf(kpisOf, riskOf, t))
    ensures Count(a + b, FlaggedBy(kpisOf, riskOf, t))
         == Count(a, FlaggedBy(kpisOf, riskOf, t)) + Count(b, FlaggedBy(kpisOf, riskOf, t))
  {
    SumConcat(a, b, CAValueOf);
    SumConcat(a, b, RevenueOf(kpisOf));
    SumConcat(a, b, SpendingOf(kpisOf, riskOf, t));
    CountConcat(a, b, FlaggedBy(kpisOf, riskOf, t));
  }

  /** Planned revenue and spending are additive over their lists too. */
  lemma PlannedAndSpentAdditive(a: seq<Target>, b: seq<Target>, x: seq<Expense>, y: seq<Expense>)
    ensures PlannedRevenue(a + b) == PlannedRevenue(a) + PlannedRevenue(b)
    ensures TotalExpenditure(x + y) == TotalExpenditure(x) + TotalExpenditure(y)
  {
    SumConcat(a, b, TargetValue);
    SumConcat(x, y, ExpenseAmount);
  }
}
