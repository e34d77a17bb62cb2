# Construction-project KPI dashboard: a Dafny model

This project models the computational core of a construction-project finance dashboard. Each project has:
- a contract (CA) value and a revised value,
- monthly planned-revenue targets,
- an append-only progress ledger of monthly submissions,
- an optional planned budget.

The model covers:

- **KPI engine** (`src/utils/calculations.js`). The KPI set is read off the latest ledger entry. Lag, scope-creep, profitability, slippage and receivable percentages are guarded ratios. Risk tiers use inclusive upper-bound breakpoints. Progress percentage is a separate guarded ratio of revenue to the CA value. In the portfolio statistics, the status counts and the CA total come from `filter` and `reduce`, modelled as counts and sums. The revenue total, the expenditure total and the high-risk count come from a `forEach` pass, modelled as a `while` loop.
- **Progress entry** (`src/components/ProjectMonitoring.js`). The eight cumulative figures of a ledger entry are derived from the previous month's snapshot and the current month's figures. The save handler is a class holding the form. It hands exactly one entry to the store and clears the form.
- **Planning** (`src/components/ProjectPlanning.js`). This covers the planned-budget totals with their overhead-method switch and the guarded profit margin. The project, target and budget save handlers are modelled as a class holding the forms. They return the store action they dispatch.
- **Three reducers**: `src/contexts/reducers/index.js`, `src/reducers/appReducer.js` and the reducer inside `src/contexts/AppContext.js`. They are pure functions from state and action to state. The lemmas about them say which fields each case touches, that ledgers are append-only, and that filters are merged.
- **Roll-ups in the screens**:
  - the dashboard's status counts and per-directorate histogram (the in-place accumulator is a method over a map);
  - the executive report's per-directorate rows;
  - the recommendation list built with `push`;
  - the risk-label badge mapping.

Amounts are `real`: every property is an exact identity or comparison. A field the source reads as `x || 0` or `x || []` is an `Option` read through `OrZero` or `GetOr`. An expenditure object is its entries in insertion order. Calculators taken from the application context that the source does not define are function-typed parameters, and so are the dashboard's `calculateKpisForProject`, the context's `calculateProjectKPIs` and `calculateRiskLevels`. The context functions `addProgress`, `addTarget` and `addBudget` are not provided by `src/contexts/AppContext.js`. The handlers therefore return the action those calls would dispatch, and lemmas feed it to the reducer of `src/contexts/reducers/index.js`, which handles all three. Clock values (`new Date()`, `Date.now()` ids) are parameters.

The modules are:

| module | models |
|---|---|
| `Domain` | entities |
| `Tally` | sums, counts and filters over sequences |
| `Store` | the project-list updates, filter merge and list filters shared by the reducers and screens |
| `KpiEngine` | calculations.js |
| `ContextReducer` | src/contexts/reducers/index.js |
| `AppReducer` | src/reducers/appReducer.js |
| `AppContext` | the local reducer of AppContext.js |
| `Dashboard`, `ExecutiveReports`, `AIInsights`, `Formatters`, `Monitoring`, `Planning` | the components and formatters.js |

## Model

| member | source | states |
|---|---|---|
| KpiEngine.EntryKpis | src/utils/calculations.js:8-13 | an entry without a `calculations` block reads as all zero; otherwise the five figures are the block's cumulative revenue, vetted, received, slippage and receivable; expenditures default to empty |
| KpiEngine.CalculateProjectKpis | src/utils/calculations.js:3-23 | an empty or missing ledger gives the all-zero KPI set; otherwise the KPI set is that of the last entry |
| KpiEngine.EarlierEntriesIrrelevant | src/utils/calculations.js:4-6 | two ledgers ending in the same entry give the same KPI set, whatever precedes it |
| KpiEngine.GuardedPercent | src/utils/calculations.js:32-51 | a non-positive denominator gives 0; otherwise the result times the denominator is 100 times the numerator, with the numerator's sign and zeroness |
| KpiEngine.Band | src/utils/calculations.js:54-74 | the tier is 0 iff the value is at most `low`; with ascending breakpoints it is the number of breakpoints strictly exceeded |
| KpiEngine.ProfitabilityLevel | src/utils/calculations.js:64-66 | only Excellent, Satisfactory, Risk or Danger; Excellent iff at least the plan; with a positive plan, Satisfactory iff from 92% of the plan up to the plan, Risk iff from 85% up to 92%, Danger iff below 85%; a plan at most 0 yields only Excellent or Danger |
| KpiEngine.CalculateRiskLevels | src/utils/calculations.js:25-97 | planned revenue is the sum of targets; lag, scope creep and cost variance are unclamped differences; each percentage is guarded; the tiers; Under Budget iff variance ≥ 0; Low/Satisfactory iff at most `low`; Danger iff above `high` (ascending breakpoints); Excellent iff profitability ≥ plan |
| KpiEngine.BandMonotone | src/utils/calculations.js:54-74 | a larger percentage never lands in a safer tier |
| KpiEngine.OnBreakpointIsSafer | src/utils/calculations.js:54-74 | a value exactly on a breakpoint falls in the safer tier |
| KpiEngine.BandIntervals | src/utils/calculations.js:54-74 | with ascending breakpoints each tier is exactly a half-open interval |
| KpiEngine.ProfitabilityMonotone | src/utils/calculations.js:64-66 | whatever the plan, higher profitability never gives a worse label |
| KpiEngine.NoPlanNoLag | src/utils/calculations.js:27-32 | no positive planned revenue gives lag percentage 0, and Low lag risk when `low` ≥ 0 |
| KpiEngine.NothingSpentNoProfitability | src/utils/calculations.js:45 | nothing spent gives profitability 0 |
| KpiEngine.NothingReceivedSatisfactory | src/utils/calculations.js:51-74 | nothing received gives receivable percentage 0, and Satisfactory when `low` ≥ 0 |
| KpiEngine.ProfitabilityNeverHigh | src/utils/calculations.js:64-66 | the profitability label is never High, so it is alarming exactly when Danger |
| KpiEngine.ProgressPercentage | src/utils/calculations.js:99-104 | 0 when the CA value is missing or 0 or revenue is not positive; otherwise the result times the CA value is 100 times the revenue |
| KpiEngine.ProgressAtMostHundred | src/utils/calculations.js:99-104 | revenue not above a positive CA value gives a progress percentage between 0 and 100 |
| KpiEngine.CalculateStatistics | src/utils/calculations.js:106-147 | the loop ends with total = length; the status counts; CA, revenue and spending sums; the high-risk count equals the number of projects the line 127-131 test flags; profit = revenue − spending |
| KpiEngine.StatusCountsBounded | src/utils/calculations.js:107-110 | inProgress + completed + planning ≤ total |
| KpiEngine.HighRiskCountIsFiltered | src/utils/calculations.js:126-133 | the high-risk count is the length of the list of flagged projects, at most the total |
| KpiEngine.TotalsAdditive | src/utils/calculations.js:113-133 | CA, revenue and spending totals and the high-risk count are additive over concatenation |
| KpiEngine.PlannedAndSpentAdditive | src/utils/calculations.js:27-39 | planned revenue and total expenditure are additive over concatenation |
| Store.UpdateWhere | src/contexts/reducers/index.js:34-85 | length kept; the projects with the id are transformed; every other project is unchanged |
| Store.ReplaceById | src/contexts/reducers/index.js:7-13 | length and ids kept; each project with the payload's id becomes the payload; the others are unchanged |
| Store.ReplaceByIdIdempotent | src/contexts/reducers/index.js:7-13 | replacing twice is replacing once |
| Store.RemoveById | src/contexts/reducers/index.js:14-19 | a project remains iff it was there with a different id; the length drops by the number with the id |
| Store.RemoveByIdConcat | src/contexts/reducers/index.js:17 | removal distributes over concatenation, so order is kept |
| Store.RemoveAbsentId | src/contexts/reducers/index.js:17 | removing an absent id changes nothing |
| Store.LedgerAppendOnly | src/contexts/reducers/index.js:47-59 | each matching project's ledger gains the entry at its end, starting from [] when missing; all else unchanged |
| Store.TargetAppendOnly | src/contexts/reducers/index.js:34-46 | only the matching projects' targets change, by appending the target |
| Store.ExpenditureAppendOnly | src/reducers/appReducer.js:58-70 | only the matching projects' expenditures change, by appending the record |
| Store.BudgetReplacedOnly | src/contexts/reducers/index.js:73-85 | only the matching projects' budget changes, to the payload |
| Store.MergeFilters | src/contexts/reducers/index.js:26-33 | keys are the union; payload keys override; the other keys are kept |
| Store.ByDirectorateAndStatus | src/components/Dashboard.js:28-37 | a project is kept iff the directorate is 'All' or matches and the status is 'All' or matches; the length is that count |
| Store.ByDirectorateAndStatusOrder | src/components/ProjectMonitoring.js:164-168 | the filter distributes over concatenation (order kept), and 'All'/'All' keeps everything |
| Store.ByDirectorateAndId | src/components/ExecutiveReports.js:44-48 | a project is kept iff the directorate is 'All' or matches and the id is 'All' or matches |
| Store.ByDirectorateAndIdOrder | src/components/AIInsights.js:31-35 | the filter distributes over concatenation (order kept), and 'All'/'All' keeps everything |
| ContextReducer.DefaultThresholdsAscending | src/contexts/reducers/index.js:110-115 | the default breakpoints 5/10/15, 10/15/25, 5/10/15 and 5/10/15 are strictly ascending and non-negative |
| ContextReducer.Reduce | src/contexts/reducers/index.js:1-95 | thresholds never change; each field changes only under the actions that name it; SELECT_PROJECT and unknown actions return the state |
| ContextReducer.AddProjectAppends | src/contexts/reducers/index.js:5-6 | the payload is appended after the unchanged projects |
| ContextReducer.UpdateProjectReplaces | src/contexts/reducers/index.js:7-13 | length kept; projects with the id become the payload; the rest and the other fields are unchanged |
| ContextReducer.SetFiltersMerges | src/contexts/reducers/index.js:26-33 | the filters are merged; nothing else changes |
| ContextReducer.DeleteProjectRemoves | src/contexts/reducers/index.js:14-19 | exactly the projects with the id go; the selection is cleared iff its id matched |
| ContextReducer.AddProgressFeedsKpis | src/contexts/reducers/index.js:47-59 | the entry becomes the last ledger entry of each matching project, whose KPI set is then that entry's |
| ContextReducer.StepKeepsLedgers | src/contexts/reducers/index.js:34-85 | after any action other than set, update, delete and reset, every project keeps its index and id, and its old ledger is a prefix of the new one |
| ContextReducer.RunKeepsLedgers | src/contexts/reducers/index.js:34-85 | the same over any sequence of such actions: ledgers are append-only |
| AppReducer.Reduce | src/reducers/appReducer.js:15-87 | each field changes only under the actions that name it; SET_SELECTED_PROJECT, SET_CURRENCY, ADD_TARGET, ADD_BUDGET, RESET_TO_SAMPLE_DATA and unknown actions return the state |
| AppReducer.AddProjectAppends | src/reducers/appReducer.js:22-26 | the payload is appended; earlier projects and other fields unchanged |
| AppReducer.UpdateProjectReplaces | src/reducers/appReducer.js:27-33 | length kept; each index holds the payload iff its id matched, else the old project |
| AppReducer.DeleteProjectRemoves | src/reducers/appReducer.js:34-39 | exactly the projects with the id go; the selection changes iff it had the id, and then becomes null |
| AppReducer.AddProgressAppendOnly | src/reducers/appReducer.js:45-57 | matching ledgers gain the entry at their end; nothing else changes |
| AppReducer.AddExpenditureAppendOnly | src/reducers/appReducer.js:58-70 | matching expenditure lists gain the record at their end; nothing else changes |
| AppReducer.SetFiltersMerges | src/reducers/appReducer.js:76-83 | keys are the union; payload keys override; other filters kept; nothing else changes |
| AppContext.Reduce | src/contexts/AppContext.js:11-36 | unhandled actions return the state; selection, dark mode and projects change only under their own actions |
| AppContext.SetProjectsReplaces | src/contexts/AppContext.js:13-14 | the list is replaced wholesale |
| AppContext.AddProjectAppends | src/contexts/AppContext.js:15-16 | the payload is appended after the unchanged projects |
| AppContext.UpdateProjectKeepsShape | src/contexts/AppContext.js:17-23 | length and ids kept; the projects with the id become the payload; every other project is unchanged |
| AppContext.DeleteKeepsSelection | src/contexts/AppContext.js:24-28 | exactly the projects with the id go, and the selection is kept even when it was deleted |
| AppContext.LedgerActionsIgnored | src/contexts/AppContext.js:33-34 | ADD_PROGRESS, ADD_TARGET and ADD_BUDGET leave the state as it is |
| Dashboard.AtRiskProjects | src/components/Dashboard.js:62-65 | exactly the projects labelled High or Danger |
| Dashboard.KpiData | src/components/Dashboard.js:39-47 | total is the length; the status counts; inProgress + completed ≤ total; atRisk equals the at-risk list's length |
| Dashboard.FirstSeenCovers | src/components/Dashboard.js:49-55 | the accumulator's keys are exactly the directorates present |
| Dashboard.FirstSeenDistinct | src/components/Dashboard.js:49-55 | no key is listed twice |
| Dashboard.DirectorateCounts | src/components/Dashboard.js:49-55 | the keys are the first-seen directorates, each with a count of at least 1 |
| Dashboard.HistogramCounts | src/components/Dashboard.js:49-55 | each key's count equals the number of projects of that directorate |
| Dashboard.DirectorateHistogram | src/components/Dashboard.js:49-55 | the in-place loop over the accumulator map ends with the keys in insertion order and the counts of DirectorateCounts |
| Dashboard.HistogramTotal | src/components/Dashboard.js:49-55 | the counts add up to the number of filtered projects |
| Dashboard.ChartData | src/components/Dashboard.js:57-60 | one point per key, in key order |
| Dashboard.PlottedIsSumOver | src/components/Dashboard.js:57-60 | each point carries its key's count, and the points sum like the counts |
| Dashboard.ChartCoversProjects | src/components/Dashboard.js:57-60 | every directorate present has a point |
| Dashboard.ChartMatchesProjects | src/components/Dashboard.js:49-60 | each point names a present directorate with its project count (≥ 1); no directorate twice; all present; points sum to the project count |
| ExecutiveReports.DirectoratesDistinct | src/components/ExecutiveReports.js:168 | the five report directorates are distinct |
| ExecutiveReports.Mean | src/components/ExecutiveReports.js:172-175 | no projects gives 0; otherwise the mean times the count is the sum |
| ExecutiveReports.RowOf | src/components/ExecutiveReports.js:169-189 | count, CA, revenue and expenditure totals; average progress 0 or the mean; profitability 0 without spending, else profitability × spending = (revenue − spending) × 100 |
| ExecutiveReports.DirectorateProjects | src/components/ExecutiveReports.js:169 | exactly the projects of the directorate, which they count |
| ExecutiveReports.SummaryRowFor | src/components/ExecutiveReports.js:168-190 | the row names its directorate and counts that directorate's projects |
| ExecutiveReports.RowsFor | src/components/ExecutiveReports.js:168 | one row per name, in order |
| ExecutiveReports.SummaryRows | src/components/ExecutiveReports.js:168-190 | exactly five rows, North, Centre, KPK, Baluchistan, Sindh, each counting its directorate |
| ExecutiveReports.RowsTotalIsCountsOver | src/components/ExecutiveReports.js:168-170 | the rows' counts add up to the per-name counts |
| ExecutiveReports.RowCountsBounded | src/components/ExecutiveReports.js:168-170 | the counts sum to at most the number of projects, with equality iff every project's directorate is one of the five |
| ExecutiveReports.EmptyDirectorateRow | src/components/ExecutiveReports.js:169-189 | a directorate without projects gets an all-zero row |
| AIInsights.GetAIRecommendations | src/components/AIInsights.js:37-62 | the pushes build exactly the recommendation list |
| AIInsights.RecommendationsContents | src/components/AIInsights.js:39-61 | each advice is listed iff its rule fires (High/Danger labels, negative cost variance); the default is listed alone, iff no rule fires; 1 to 5 items |
| AIInsights.RecommendationsOrdered | src/components/AIInsights.js:39-59 | the advice appears in rule-table order, hence without duplicates |
| AIInsights.RulesAgainstClassifier | src/components/AIInsights.js:41-59 | fed by calculateRiskLevels: the profitability rule fires iff Danger; lag, slippage, receivable rules fire iff above the middle breakpoint; cost rule iff spending exceeds revenue |
| Formatters.FormatRiskLevel | src/utils/formatters.js:34-45 | colour is one of four; 'default' iff the label is unknown, in which case the text is the label |
| Formatters.KnownBadges | src/utils/formatters.js:35-42 | the seven known labels and their text/colour pairs |
| Formatters.ColourGroups | src/utils/formatters.js:36-42 | error iff High, Danger or Risk; success iff Low or Excellent; warning iff Moderate or Satisfactory |
| Formatters.TextKeepsLabel | src/utils/formatters.js:36-43 | the text is the label iff the label is not Low, Moderate, High, Danger or Risk |
| Formatters.ClassifierLabelsKnown | src/utils/formatters.js:35-43 | every classifier label has its own badge, never 'default' |
| Monitoring.DeriveCalculations | src/components/ProjectMonitoring.js:100-108 | escalation is the month's percentage of work; cumulative work, escalation and revenue; vetted and received add up; slippage and receivable are differences |
| Monitoring.DerivedIsBalanced | src/components/ProjectMonitoring.js:104-108 | slippage + receivable equals revenue − received |
| Monitoring.CumulativeGrows | src/components/ProjectMonitoring.js:101-104 | non-negative inputs never make cumulative work fall or revenue drop below work done |
| Monitoring.SampleEntry | src/data/sampleData.js:28-50 | the first sample project's entry is exactly the derivation of its inputs |
| Monitoring.EntryFrom | src/components/ProjectMonitoring.js:110-135 | the entry carries the parsed inputs, their derived block, the expenditure lines and the date |
| Monitoring.SaveCall | src/components/ProjectMonitoring.js:91-137 | no call iff no project is chosen or none has its id; else one call for that project with the derived entry |
| Monitoring.ProgressMonitor.constructor | src/components/ProjectMonitoring.js:41-56 | no project chosen and a blank form |
| Monitoring.ProgressMonitor.SaveProgress | src/components/ProjectMonitoring.js:91-155 | returns SaveCall of the form as it stood; clears the form iff a call was made; the choice stays |
| Monitoring.ProgressMonitor.ClearForm | src/components/ProjectMonitoring.js:139-154 | all inputs blank and no expenditure lines |
| Monitoring.SavedEntryFeedsKpis | src/components/ProjectMonitoring.js:137 | dispatched, the call appends its entry to the project's ledger, and the project's KPI set becomes the entry's |
| Monitoring.SavedKpis | src/components/ProjectMonitoring.js:110-135 | the KPI set of a saved entry is its derived figures and its expenditure lines, with slippage + receivable = revenue − received |
| Planning.CalculateBudgetTotals | src/components/ProjectPlanning.js:173-201 | revenue is CA grown by the escalation %; direct cost; overhead a tenth of CA iff the method is 'percentage', else HR + admin; total = direct + overhead; net = revenue − total; gross − net = overhead |
| Planning.NoBudgetTotals | src/components/ProjectPlanning.js:173-187 | without a budget revenue is CA, every cost is 0 and both profits are CA |
| Planning.OverheadMethodOnlyMovesOverhead | src/components/ProjectPlanning.js:182-191 | switching the method moves only overhead and, oppositely, net profit |
| Planning.TotalsBounded | src/components/ProjectPlanning.js:173-191 | non-negative inputs give revenue ≥ CA, non-negative costs and net ≤ gross ≤ revenue |
| Planning.ProfitMargin | src/components/ProjectPlanning.js:709-711 | 0 without positive revenue; else margin × revenue = net × 100 |
| Planning.MarginBounds | src/components/ProjectPlanning.js:709-711 | with revenue, the margin's sign is the net profit's, and it is at most 100% when cost is non-negative |
| Planning.ProjectFrom | src/components/ProjectPlanning.js:105-111 | the form's data; the selected id and creation time unless absent or blank; `now` as update time; no targets, ledger, expenditures or budget |
| Planning.SaveProjectCall | src/components/ProjectPlanning.js:105-117 | an update iff a project is selected, else an addition, of that project |
| Planning.AddTargetCall | src/components/ProjectPlanning.js:138-144 | a call iff project, month and value are filled in, adding that target |
| Planning.SaveBudgetCall | src/components/ProjectPlanning.js:155-169 | a call iff a project is chosen; every blank amount is stored as 0 |
| Planning.ProjectPlanner.constructor | src/components/ProjectPlanning.js:42-76 | the first step, blank forms, the percentage overhead method |
| Planning.ProjectPlanner.SaveProject | src/components/ProjectPlanning.js:105-136 | returns SaveProjectCall of the form; back to step 0 with a blank project form; other forms kept |
| Planning.ProjectPlanner.ResetProjectForm | src/components/ProjectPlanning.js:119-135 | step 0 and a blank project form |
| Planning.ProjectPlanner.AddTargetToProject | src/components/ProjectPlanning.js:138-153 | returns AddTargetCall; clears month and value only when a call was made |
| Planning.ProjectPlanner.ClearTarget | src/components/ProjectPlanning.js:146-151 | month and value blank, project kept |
| Planning.ProjectPlanner.SaveBudget | src/components/ProjectPlanning.js:155-170 | returns SaveBudgetCall of the form, which it leaves as it is |
| Planning.SavedUpdateDropsLedger | src/components/ProjectPlanning.js:105-117 | saving over a selected project replaces it wholesale: no ledger, targets or budget remain, and its KPI set is zero |
| Planning.SavedNewProjectStartsEmpty | src/components/ProjectPlanning.js:105-117 | a new project is appended with the fresh id and a zero KPI set |
| Planning.SavedTargetAppends | src/contexts/reducers/index.js:34-46 | dispatched, the target is appended to the chosen project's targets only |
| Planning.SavedBudgetTotals | src/contexts/reducers/index.js:73-85 | dispatched, the chosen project has the budget and its direct cost is the entered amounts, blanks as 0 |

## Left out

- JSX, MUI layout, tabs, steppers, charts, navigation, settings and the form-field setters (`handle*Change`): rendering and keystroke plumbing with nothing to state beyond "renders".
- `AppProvider` effects, `getProjects`/`saveProjects`, `src/utils/storage.js`: localStorage and DOM I/O.
- `src/utils/exportUtils.js`: console logging, DOM downloads and a `new Date()` stamp.
- `formatCurrency`, `formatNumber`, `formatDate`, `formatPercentage` and `toFixed(2)` rendering: locale and Intl formatting.
- IEEE doubles: amounts are exact reals, so no rounding is modelled.
- `Monitoring.ParsePrevious`: `parseFloat('')` gives NaN, and NaN then propagates through the derivation. The model has no NaN and reads a blank progress field as 0.
- JavaScript `+` concatenating expenditure values that arrive from the form as strings: expenditure amounts are reals.
- Expenditure objects: the order `Object.values` visits their keys has no effect, because the model keeps entries in insertion order and the totals are sums.
- Project form amounts (`caValue`, `revisedCaValue`) are stored by the source as the unparsed strings typed in. Here they are `Option<real>`, with a blank field as `None`.
- `calculateKpisForProject` (imported by `Dashboard.js` but not defined in `calculations.js`) and the context's `calculateProjectKPIs` used by the executive report and the recommendations: calls into code that is not part of this model, taken as function parameters.
- `addProgress`, `addTarget` and `addBudget` from context, which `src/contexts/AppContext.js` does not provide: modelled as the action returned to the caller, and dispatched to the `src/contexts/reducers/index.js` reducer in lemmas.
- `Date.now()` ids, `new Date().toISOString()` stamps and `setTimeout` status messages: parameters or left out.
- `Dashboard.DirectorateHistogram`: JavaScript objects list integer-like keys before the others; the model keeps plain insertion order.
- The executive report's summary rows are computed from all projects, not from the filtered list, as the code does at src/components/ExecutiveReports.js:169.
- `src/data/sampleData.js` is fixture data; only its first ledger entry is used, in `Monitoring.SampleEntry`.
