/**
  The rule table of src/components/AIInsights.js: which advice a
  project's figures call for, in a fixed order, with a default when
  nothing is wrong.
 */
module AIInsights {
  import opened Domain
  import KpiEngine

  const LagAdvice := "Accelerate work progress to meet planned targets"
  const CostAdvice := "Review and optimize cost structure to reduce overruns"
  const ProfitabilityAdvice := "Implement cost-saving measures and review pricing strategy"
  const SlippageAdvice := "Improve documentation and follow-up with client for vetting"
  const ReceivableAdvice := "Strengthen accounts receivable collection process"
  const DefaultAdvice := "Project is performing well. Maintain current operations."

  /** A label the rules treat as alarming. */
  predicate Alarmed(level: string) {
    level == "High" || level == "Danger"
  }

  /** `kpis.costVariance < 0`; an absent value compares false. */
  predicate Overrun(k: ContextKpis) {
    k.costVariance.Some? && k.costVariance.value < 0.0
  }

  /** Some rule fires. */
  predicate NeedsAttention(k: ContextKpis) {
    Alarmed(k.lagRisk) || Overrun(k) || Alarmed(k.profitabilityRisk) ||
    Alarmed(k.slippageRisk) || Alarmed(k.receivableRisk)
  }

  /** The position of each message in the rule table; the default comes last. */
  function Rank(message: string): nat {
    if message == LagAdvice then 0
    else if message == CostAdvice then 1
    else if message == ProfitabilityAdvice then 2
    else if message == SlippageAdvice then 3
    else if message == ReceivableAdvice then 4
    else 5
  }

  /** The advice a rule contributes: its message when it fires, nothing otherwise. */
  function When(fires: bool, message: string): seq<string> {
    if fires then [message] else []
  }

  /** The messages of the rules that fire, in the order of the rule table. */
  function Triggered(k: ContextKpis): seq<string> {
    When(Alarmed(k.lagRisk), LagAdvice) + When(Overrun(k), CostAdvice) +
    When(Alarmed(k.profitabilityRisk), ProfitabilityAdvice) +
    When(Alarmed(k.slippageRisk), SlippageAdvice) + When(Alarmed(k.receivableRisk), ReceivableAdvice)
  }

  /** What the panel lists: the triggered messages, or the default message alone. */
  function Recommendations(k: ContextKpis): seq<string> {
    if |Triggered(k)| > 0 then Triggered(k) else [DefaultAdvice]
  }

  /**
    `getAIRecommendations`: the rules are tried in the table's order, each
    pushing its message when it fires, and an empty list becomes the
    default message alone.
   */
  method GetAIRecommendations(k: ContextKpis) returns (recs: seq<string>)
    ensures recs == Recommendations(k)
  {
    var recommendations: seq<string> := [];
    if Alarmed(k.lagRisk) {
      recommendations := recommendations + [LagAdvice];
    }
    assert recommendations == When(Alarmed(k.lagRisk), LagAdvice);
    if Overrun(k) {
      recommendations := recommendations + [CostAdvice];
    }
    assert recommendations == When(Alarmed(k.lagRisk), LagAdvice) + When(Overrun(k), CostAdvice);
    if Alarmed(k.profitabilityRisk) {
      recommendations := recommendations + [ProfitabilityAdvice];
    }
    ghost var three := recommendations;
    if Alarmed(k.slippageRisk) {
      recommendations := recommendations + [SlippageAdvice];
    }
    assert recommendations == three + When(Alarmed(k.slippageRisk), SlippageAdvice);
    ghost var four := recommendations;
    if Alarmed(k.receivableRisk) {
      recommendations := recommendations + [ReceivableAdvice];
    }
    assert recommendations == four + When(Alarmed(k.receivableRisk), ReceivableAdvice);
    assert recommendations == Triggered(k);
    recs := if |recommendations| > 0 then recommendations else [DefaultAdvice];
  }

  /** Each rule's message is listed exactly when that rule fires; the default appears only alone, exactly when no rule fires. */
  lemma RecommendationsContents(k: ContextKpis)
    ensures var recs := Recommendations(k);
      (LagAdvice in recs <==> Alarmed(k.lagRisk)) &&
      (CostAdvice in recs <==> Overrun(k)) &&
      (ProfitabilityAdvice in recs <==> Alarmed(k.profitabilityRisk)) &&
      (SlippageAdvice in recs <==> Alarmed(k.slippageRisk)) &&
      (ReceivableAdvice in recs <==> Alarmed(k.receivableRisk))
    ensures var recs := Recommendations(k);
      (recs == [DefaultAdvice] <==> !NeedsAttention(k)) && (DefaultAdvice in recs ==> recs == [DefaultAdvice])
    ensures 1 <= |Recommendations(k)| <= 5
  {
    var t := Triggered(k);
    assert DefaultAdvice !in t;
    assert |t| == 0 <==> !NeedsAttention(k);
  }

  /** The messages come in the order of the rule table, so none is listed twice. */
  lemma RecommendationsOrdered(k: ContextKpis)
    ensures var recs := Recommendations(k);
      forall i, j :: 0 <= i < j < |recs| ==> Rank(recs[i]) < Rank(recs[j])
  {
    AdviceRanks();
  }

  /** The rule table's messages in rank order. */
  lemma AdviceRanks()
    ensures Rank(LagAdvice) == 0 && Rank(CostAdvice) == 1 && Rank(ProfitabilityAdvice) == 2
    ensures Rank(SlippageAdvice) == 3 && Rank(ReceivableAdvice) == 4 && Rank(DefaultAdvice) == 5
  {
  }

  /**
    The page's figures as the classifier would give them: its labels by
    name and its cost variance.
   */
  predicate FromClassifier(c: ContextKpis, r: KpiEngine.RiskLevels) {
    c.lagRisk == LevelName(r.lagRisk) && c.profitabilityRisk == LevelName(r.profitabilityRisk) &&
    c.slippageRisk == LevelName(r.slippageRisk) && c.receivableRisk == LevelName(r.receivableRisk) &&
    c.costVariance == Some(r.costVariance)
  }

  /** A label's name is alarming exactly when the label is High or Danger. */
  lemma AlarmedName(l: Level)
    ensures Alarmed(LevelName(l)) <==> Alarming(l)
  {
  }

  /**
    Fed by `calculateRiskLevels`, the profitability rule fires only on
    Danger (the classifier never says High there); with ascending
    breakpoints the lag, slippage and receivable rules fire exactly when
    the percentage exceeds the middle breakpoint, and the cost rule exactly
    when spending exceeds revenue.
   */
  lemma RulesAgainstClassifier(p: Project, k: KpiEngine.Kpis, t: KpiThresholds, c: ContextKpis)
    requires FromClassifier(c, KpiEngine.CalculateRiskLevels(p, k, t))
    ensures var r := KpiEngine.CalculateRiskLevels(p, k, t);
      Alarmed(c.profitabilityRisk) <==> r.profitabilityRisk == Danger
    ensures var r := KpiEngine.CalculateRiskLevels(p, k, t);
      Ascending(t.lag) ==> (Alarmed(c.lagRisk) <==> r.lagPercentage > t.lag.moderate)
    ensures var r := KpiEngine.CalculateRiskLevels(p, k, t);
      Ascending(t.slippage) ==> (Alarmed(c.slippageRisk) <==> r.slippagePercentage > t.slippage.moderate)
    ensures var r := KpiEngine.CalculateRiskLevels(p, k, t);
      Ascending(t.receivable) ==> (Alarmed(c.receivableRisk) <==> r.receivablePercentage > t.receivable.moderate)
    ensures Overrun(c) <==> k.actualRevenue < KpiEngine.TotalExpenditure(k.expenditures)
  {
    var r := KpiEngine.CalculateRiskLevels(p, k, t);
    AlarmedName(r.profitabilityRisk);
    AlarmedName(r.lagRisk);
    AlarmedName(r.slippageRisk);
    AlarmedName(r.receivableRisk);
    KpiEngine.ProfitabilityNeverHigh(p, k, t);
  }
}
