/**
  The per-directorate summary table of src/components/ExecutiveReports.js.
  The rows are computed from the whole project list, not from the
  directorate/project filter the page applies elsewhere.
 */
module ExecutiveReports {
  import opened Domain
  import opened Tally
  import opened Store
  import KpiEngine

  /** The table's rows, in this order. */
  const Directorates: seq<string> := ["North", "Centre", "KPK", "Baluchistan", "Sindh"]

  /** No directorate has two rows. */
  lemma DirectoratesDistinct()
    ensures Distinct(Directorates)
  {
  }

  /** The context's `calculateProjectKPIs`, handed in. */
  type ReportCalculator = Project -> ContextKpis

  datatype SummaryRow = SummaryRow(
    directorate: string,
    totalProjects: nat,
    totalCAValue: real,
    avgProgress: real,
    totalRevenue: real,
    totalExpenditure: real,
    profitability: real)

  function ProgressOf(kpisOf: ReportCalculator): Project -> real {
    (p: Project) => OrZero(kpisOf(p).progressPercentage)
  }

  function RevenueOf(kpisOf: ReportCalculator): Project -> real {
    (p: Project) => OrZero(kpisOf(p).actualRevenue)
  }

  function ExpenditureOf(kpisOf: ReportCalculator): Project -> real {
    (p: Project) => OrZero(kpisOf(p).totalExpenditure)
  }

  /** `sum / count || 0`: the mean, and 0 for no projects. */
  function Mean(sum: real, count: nat): (m: real)
    ensures count == 0 ==> m == 0.0
    ensures count > 0 ==> m * count as real == sum
  {
    if count == 0 then 0.0
    else
      var q := sum / count as real;
      assert q * count as real == sum;
      q
  }

  /**
    The figures of one row, from the projects of its directorate: their
    number and totals, the mean progress (0 for no projects) and the margin
    of revenue over spending in percent (0 unless something was spent).
   */
  function RowOf(dir: string, mine: seq<Project>, kpisOf: ReportCalculator): (row: SummaryRow)
    ensures row.directorate == dir && row.totalProjects == |mine|
    ensures row.totalCAValue == Sum(mine, KpiEngine.CAValueOf)
    ensures row.totalRevenue == Sum(mine, RevenueOf(kpisOf))
    ensures row.totalExpenditure == Sum(mine, ExpenditureOf(kpisOf))
    ensures |mine| == 0 ==> row.avgProgress == 0.0
    ensures |mine| > 0 ==> row.avgProgress * |mine| as real == Sum(mine, ProgressOf(kpisOf))
    ensures row.totalExpenditure <= 0.0 ==> row.profitability == 0.0
    ensures row.totalExpenditure > 0.0 ==>
      row.profitability * row.totalExpenditure == (row.totalRevenue - row.totalExpenditure) * 100.0
  {
    var revenue, spent := Sum(mine, RevenueOf(kpisOf)), Sum(mine, ExpenditureOf(kpisOf));
    SummaryRow(dir, |mine|, Sum(mine, KpiEngine.CAValueOf), Mean(Sum(mine, ProgressOf(kpisOf)), |mine|),
               revenue, spent, KpiEngine.GuardedPercent(revenue - spent, spent))
  }

  /** `dirProjects`: the projects of the directorate, in order. */
  function DirectorateProjects(ps: seq<Project>, dir: string): (mine: seq<Project>)
    ensures forall q :: q in mine <==> q in ps && q.directorate == dir
    ensures |mine| == Count(ps, DirectorateIs(dir))
  {
    FilterLength(ps, DirectorateIs(dir));
    Filter(ps, DirectorateIs(dir))
  }

  /** One row of the table. */
  function SummaryRowFor(ps: seq<Project>, dir: string, kpisOf: ReportCalculator): (row: SummaryRow)
    ensures row.directorate == dir
    ensures row.totalProjects == Count(ps, DirectorateIs(dir))
  {
    RowOf(dir, DirectorateProjects(ps, dir), kpisOf)
  }

  /** The rows for `names`, in their order. */
  function RowsFor(ps: seq<Project>, names: seq<string>, kpisOf: ReportCalculator): (rows: seq<SummaryRow>)
    ensures |rows| == |names|
    ensures forall i :: 0 <= i < |names| ==> rows[i] == SummaryRowFor(ps, names[i], kpisOf)
    decreases |names|
  {
    if names == [] then []
    else RowsFor(ps, names[..|names| - 1], kpisOf) + [SummaryRowFor(ps, names[|names| - 1], kpisOf)]
  }

  /** The summary table: one row per directorate, North, Centre, KPK, Baluchistan, Sindh. */
  function SummaryRows(ps: seq<Project>, kpisOf: ReportCalculator): (rows: seq<SummaryRow>)
    ensures |rows| == 5
    ensures rows[0].directorate == "North" && rows[1].directorate == "Centre" && rows[2].directorate == "KPK"
    ensures rows[3].directorate == "Baluchistan" && rows[4].directorate == "Sindh"
    ensures forall i :: 0 <= i < 5 ==> rows[i].totalProjects == Count(ps, DirectorateIs(rows[i].directorate))
  {
    RowsFor(ps, Directorates, kpisOf)
  }

  /** The project counts of the rows, added up. */
  function RowsTotal(rows: seq<SummaryRow>): nat
    decreases |rows|
  {
    if rows == [] then 0 else RowsTotal(rows[..|rows| - 1]) + rows[|rows| - 1].totalProjects
  }

  lemma {:induction false} RowsTotalIsCountsOver(ps: seq<Project>, names: seq<string>, kpisOf: ReportCalculator)
    ensures RowsTotal(RowsFor(ps, names, kpisOf)) == CountsOver(ps, names)
    decreases |names|
  {
    if names != [] {
      var rows := RowsFor(ps, names, kpisOf);
      RowsTotalIsCountsOver(ps, names[..|names| - 1], kpisOf);
      assert rows[..|rows| - 1] == RowsFor(ps, names[..|names| - 1], kpisOf);
    }
  }

  /**
    The row counts never add up to more than the number of projects, and
    they add up to exactly that number iff every project belongs to one of
    the five directorates.
   */
  lemma RowCountsBounded(ps: seq<Project>, kpisOf: ReportCalculator)
    ensures RowsTotal(SummaryRows(ps, kpisOf)) <= |ps|
    ensures RowsTotal(SummaryRows(ps, kpisOf)) == |ps| <==>
      forall j :: 0 <= j < |ps| ==> ps[j].directorate in Directorates
  {
    DirectoratesDistinct();
    RowsTotalIsCountsOver(ps, Directorates, kpisOf);
    CountsOverNamed(ps, Directorates);
    CountAllPass(ps, DirectorateIn(Directorates));
  }

  /** A directorate with no projects shows 0 everywhere. */
  lemma EmptyDirectorateRow(ps: seq<Project>, dir: string, kpisOf: ReportCalculator)
    requires forall j :: 0 <= j < |ps| ==> ps[j].directorate != dir
    ensures SummaryRowFor(ps, dir, kpisOf) == SummaryRow(dir, 0, 0.0, 0.0, 0.0, 0.0, 0.0)
  {
    assert DirectorateProjects(ps, dir) == [];
  }
}
