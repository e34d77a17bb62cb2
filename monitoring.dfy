/**
  The progress-entry screen of src/components/ProjectMonitoring.js: the
  derivation of a ledger entry's cumulative figures from the previous
  month's snapshot and the current month's figures, and the save handler
  that hands the entry to the store and clears the form.
 */
module Monitoring {
  import opened Domain
  import Store
  import ContextReducer
  import KpiEngine

  /**
    The `calculations` block of a new entry. Escalation is a percentage of
    work done; the cumulative values add the previous snapshot to the
    month's figures.
   */
  function DeriveCalculations(prev: PreviousMonth, cur: CurrentMonth): (c: Cumulative)
    ensures c.escalationDuringMonth * 100.0 == cur.workDone * cur.escalationPercentage
    ensures c.uptoDateActualWorkDone == prev.actualWorkDone + cur.workDone
    ensures c.uptoDateEscalation * 100.0 ==
      prev.actualWorkDone * prev.escalationPercentage + cur.workDone * cur.escalationPercentage
    ensures c.uptoDateActualRevenue == c.uptoDateActualWorkDone + c.uptoDateEscalation
    ensures c.uptoDateVettedRevenue == prev.vettedRevenue + cur.vettedRevenue
    ensures c.uptoDateAmountReceived == prev.amountReceived + cur.amountReceived
    ensures c.uptoDateSlippage == c.uptoDateActualRevenue - c.uptoDateVettedRevenue
    ensures c.uptoDateReceivable == c.uptoDateVettedRevenue - c.uptoDateAmountReceived
  {
    var escalationDuringMonth := cur.workDone * cur.escalationPercentage / 100.0;
    var workDone := prev.actualWorkDone + cur.workDone;
    var escalation := prev.actualWorkDone * prev.escalationPercentage / 100.0 + escalationDuringMonth;
    var revenue := workDone + escalation;
    var vetted := prev.vettedRevenue + cur.vettedRevenue;
    var received := prev.amountReceived + cur.amountReceived;
    Cumulative(escalationDuringMonth, workDone, escalation, revenue, vetted, received,
               revenue - vetted, vetted - received)
  }

  /** The identities every derived block satisfies. */
  predicate Balanced(c: Cumulative) {
    c.uptoDateActualRevenue == c.uptoDateActualWorkDone + c.uptoDateEscalation &&
    c.uptoDateSlippage == c.uptoDateActualRevenue - c.uptoDateVettedRevenue &&
    c.uptoDateReceivable == c.uptoDateVettedRevenue - c.uptoDateAmountReceived
  }

  /**
    A derived block is balanced: what is not yet vetted plus what is vetted
    but not yet received is exactly the revenue not yet received.
   */
  lemma DerivedIsBalanced(prev: PreviousMonth, cur: CurrentMonth)
    ensures Balanced(DeriveCalculations(prev, cur))
    ensures var c := DeriveCalculations(prev, cur);
      c.uptoDateSlippage + c.uptoDateReceivable == c.uptoDateActualRevenue - c.uptoDateAmountReceived
  {
  }

  /**
    With non-negative work and escalation the cumulative figures never fall
    below the previous snapshot, and the revenue is at least the work done.
   */
  lemma CumulativeGrows(prev: PreviousMonth, cur: CurrentMonth)
    requires prev.actualWorkDone >= 0.0 && prev.escalationPercentage >= 0.0
    requires cur.workDone >= 0.0 && cur.escalationPercentage >= 0.0
    ensures var c := DeriveCalculations(prev, cur);
      c.escalationDuringMonth >= 0.0 && c.uptoDateEscalation >= c.escalationDuringMonth &&
      c.uptoDateActualWorkDone >= prev.actualWorkDone &&
      c.uptoDateActualRevenue >= c.uptoDateActualWorkDone
  {
    var c := DeriveCalculations(prev, cur);
    assert prev.actualWorkDone * prev.escalationPercentage >= 0.0;
    assert cur.workDone * cur.escalationPercentage >= 0.0;
    assert c.uptoDateEscalation * 100.0 >= c.escalationDuringMonth * 100.0;
  }

  /**
    The month recorded for the first sample project: 850M of work to date
    at 5%, 200M this month at 5%, 990M vetted and 930M received in total.
   */
  lemma SampleEntry()
    ensures DeriveCalculations(
        PreviousMonth(850000000.0, 5.0, 800000000.0, 750000000.0),
        CurrentMonth(200000000.0, 5.0, 190000000.0, 180000000.0))
      == Cumulative(10000000.0, 1050000000.0, 52500000.0, 1102500000.0,
                    990000000.0, 930000000.0, 112500000.0, 60000000.0)
  {
  }

  /** The previous-month inputs of the form; `None` is a blank field. */
  datatype PreviousInputs = PreviousInputs(
    actualWorkDone: Option<real>,
    escalationPercentage: Option<real>,
    vettedRevenue: Option<real>,
    amountReceived: Option<real>)

  /** The current-month inputs of the form; `None` is a blank field. */
  datatype CurrentInputs = CurrentInputs(
    workDone: Option<real>,
    escalationPercentage: Option<real>,
    vettedRevenue: Option<real>,
    amountReceived: Option<real>)

  const BlankPrevious := PreviousInputs(None, None, None, None)
  const BlankCurrent := CurrentInputs(None, None, None, None)

  /** The parsed previous-month figures; a blank field reads as 0. */
  function ParsePrevious(f: PreviousInputs): PreviousMonth {
    PreviousMonth(OrZero(f.actualWorkDone), OrZero(f.escalationPercentage),
                  OrZero(f.vettedRevenue), OrZero(f.amountReceived))
  }

  /** The parsed current-month figures; a blank field reads as 0. */
  function ParseCurrent(f: CurrentInputs): CurrentMonth {
    CurrentMonth(OrZero(f.workDone), OrZero(f.escalationPercentage),
                 OrZero(f.vettedRevenue), OrZero(f.amountReceived))
  }

  /** The entry a save records: the parsed inputs, their derived block and the expenditure lines as entered. */
  function EntryFrom(prev: PreviousInputs, cur: CurrentInputs, expenditures: seq<Expense>, date: string): (e: ProgressEntry)
    ensures e.calculations == Some(DeriveCalculations(e.previousMonth, e.currentMonth))
    ensures e.expenditures == Some(expenditures) && e.date == date
    ensures e.previousMonth == ParsePrevious(prev) && e.currentMonth == ParseCurrent(cur)
  {
    var p, c := ParsePrevious(prev), ParseCurrent(cur);
    ProgressEntry(date, p, c, Some(DeriveCalculations(p, c)), Some(expenditures))
  }

  /** An `addProgress(projectId, progress)` call. */
  datatype ProgressCall = ProgressCall(projectId: string, entry: ProgressEntry)

  /**
    The `addProgress` call a save makes: none without a chosen project or
    when no project carries its id; otherwise exactly one call, for the
    chosen project, with the entry built from the form and stamped `date`.
   */
  function SaveCall(projects: seq<Project>, selectedProjectId: string, prev: PreviousInputs, cur: CurrentInputs,
                    expenditures: seq<Expense>, date: string): (call: Option<ProgressCall>)
    ensures call.None? <==> selectedProjectId == "" || !Store.HasId(projects, selectedProjectId)
    ensures call.Some? ==>
      call.value.projectId == selectedProjectId &&
      call.value.entry.previousMonth == ParsePrevious(prev) && call.value.entry.currentMonth == ParseCurrent(cur) &&
      call.value.entry.calculations == Some(DeriveCalculations(ParsePrevious(prev), ParseCurrent(cur))) &&
      call.value.entry.expenditures == Some(expenditures) && call.value.entry.date == date
  {
    if selectedProjectId == "" || !Store.HasId(projects, selectedProjectId) then None
    else Some(ProgressCall(selectedProjectId, EntryFrom(prev, cur, expenditures, date)))
  }

  /** The monitoring screen's own state: the chosen project and the progress form. */
  class ProgressMonitor {
    var selectedProjectId: string
    var previousMonth: PreviousInputs
    var currentMonth: CurrentInputs
    var expenditures: seq<Expense>

    /** The screen opens with no project chosen and a blank form. */
    constructor ()
      ensures selectedProjectId == ""
      ensures previousMonth == BlankPrevious && currentMonth == BlankCurrent && expenditures == []
    {
      selectedProjectId := "";
      previousMonth := BlankPrevious;
      currentMonth := BlankCurrent;
      expenditures := [];
    }

    /** The form is blank again. */
    predicate Cleared()
      reads this
    {
      previousMonth == BlankPrevious && currentMonth == BlankCurrent && expenditures == []
    }

    /**
      `handleSaveProgress`: the call it makes is `SaveCall` of the form as it
      stood; when there is one the form is cleared, otherwise nothing
      changes. The chosen project stays chosen.
     */
    method SaveProgress(projects: seq<Project>, date: string) returns (call: Option<ProgressCall>)
      modifies this
      ensures call == SaveCall(projects, old(selectedProjectId), old(previousMonth), old(currentMonth), old(expenditures), date)
      ensures selectedProjectId == old(selectedProjectId)
      ensures call.Some? ==> Cleared()
      ensures call.None? ==>
        previousMonth == old(previousMonth) && currentMonth == old(currentMonth) && expenditures == old(expenditures)
    {
      call := SaveCall(projects, selectedProjectId, previousMonth, currentMonth, expenditures, date);
      if call.Some? {
        ClearForm();
      }
    }

    /** The form reset after a save: every field blank, no expenditure lines. */
    method ClearForm()
      modifies this
      ensures Cleared()
      ensures selectedProjectId == old(selectedProjectId)
    {
      previousMonth, currentMonth, expenditures := BlankPrevious, BlankCurrent, [];
    }
  }

  /**
    Dispatched to the store, a save's call appends its entry to the chosen
    project's ledger, and from then on that project's KPI set is the one the
    new entry derives.
   */
  lemma SavedEntryFeedsKpis(s: ContextReducer.State, call: ProgressCall)
    ensures var r := ContextReducer.Reduce(s, Store.AddProgress(call.projectId, call.entry));
      |r.projects| == |s.projects| &&
      forall i :: 0 <= i < |s.projects| && s.projects[i].id == call.projectId ==>
        Ledger(r.projects[i]) == Ledger(s.projects[i]) + [call.entry] &&
        KpiEngine.CalculateProjectKpis(r.projects[i]) == KpiEngine.EntryKpis(call.entry)
  {
    ContextReducer.AddProgressFeedsKpis(s, call.projectId, call.entry);
  }

  /**
    The KPI set read off a saved entry: revenue, vetting, receipts, slippage
    and receivable are the derived cumulative figures, and the expenditure
    lines are those entered.
   */
  lemma SavedKpis(prev: PreviousInputs, cur: CurrentInputs, expenditures: seq<Expense>, date: string)
    ensures var k := KpiEngine.EntryKpis(EntryFrom(prev, cur, expenditures, date));
      var c := DeriveCalculations(ParsePrevious(prev), ParseCurrent(cur));
      k.actualRevenue == c.uptoDateActualRevenue && k.slippage == c.uptoDateSlippage &&
      k.receivable == c.uptoDateReceivable && k.vettedRevenue == c.uptoDateVettedRevenue &&
      k.amountReceived == c.uptoDateAmountReceived && k.expenditures == expenditures &&
      k.slippage + k.receivable == k.actualRevenue - k.amountReceived
  {
    DerivedIsBalanced(ParsePrevious(prev), ParseCurrent(cur));
  }
}
