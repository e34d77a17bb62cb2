/**
  The figures of src/components/Dashboard.js: the KPI cards, the
  per-directorate histogram built by mutating an accumulator object, and
  the chart points read off it.
 */
module Dashboard {
  import opened Domain
  import opened Tally
  import opened Store
  import KpiEngine

  /** The label `calculateKpisForProject` gives a project; that function is not part of this model. */
  type RiskLabeller = Project -> string

  function AtRisk(riskLevelOf: RiskLabeller): Project -> bool {
    (p: Project) => riskLevelOf(p) == "High" || riskLevelOf(p) == "Danger"
  }

  /** `atRiskProjects`: exactly the projects labelled High or Danger, in order. */
  function AtRiskProjects(ps: seq<Project>, riskLevelOf: RiskLabeller): (r: seq<Project>)
    ensures forall q :: q in r <==> q in ps && (riskLevelOf(q) == "High" || riskLevelOf(q) == "Danger")
  {
    Filter(ps, AtRisk(riskLevelOf))
  }

  datatype KpiCards = KpiCards(totalProjects: nat, inProgress: nat, completed: nat, atRisk: nat)

  /** `kpiData` over the filtered projects. */
  function KpiData(ps: seq<Project>, riskLevelOf: RiskLabeller): (k: KpiCards)
    ensures k.totalProjects == |ps|
    ensures k.inProgress == Count(ps, KpiEngine.StatusIs("In Progress"))
    ensures k.completed == Count(ps, KpiEngine.StatusIs("Completed"))
    ensures k.inProgress + k.completed <= k.totalProjects
    ensures k.atRisk == |AtRiskProjects(ps, riskLevelOf)| == Count(ps, AtRisk(riskLevelOf))
  {
    FilterLength(ps, KpiEngine.StatusIs("In Progress"));
    FilterLength(ps, KpiEngine.StatusIs("Completed"));
    FilterLength(ps, AtRisk(riskLevelOf));
    KpiEngine.StatusCountsBounded(ps);
    KpiCards(|ps|,
             |Filter(ps, KpiEngine.StatusIs("In Progress"))|,
             |Filter(ps, KpiEngine.StatusIs("Completed"))|,
             |Filter(ps, AtRisk(riskLevelOf))|)
  }

  /** The directorate of every project, in order. */
  function DirectoratesOf(ps: seq<Project>): (ds: seq<string>)
    ensures |ds| == |ps|
    ensures forall j :: 0 <= j < |ps| ==> ds[j] == ps[j].directorate
    decreases |ps|
  {
    if ps == [] then [] else DirectoratesOf(ps[..|ps| - 1]) + [ps[|ps| - 1].directorate]
  }

  /** The directorates in order of first appearance: the key order of the accumulator object. */
  function FirstSeen(ps: seq<Project>): seq<string>
    decreases |ps|
  {
    if ps == [] then []
    else
      var d, prev := ps[|ps| - 1].directorate, FirstSeen(ps[..|ps| - 1]);
      if d in prev then prev else prev + [d]
  }

  /** The first-seen list names exactly the directorates present. */
  lemma {:induction false} FirstSeenCovers(ps: seq<Project>)
    ensures forall d :: d in FirstSeen(ps) <==> d in DirectoratesOf(ps)
    decreases |ps|
  {
    if ps != [] {
      FirstSeenCovers(ps[..|ps| - 1]);
      assert DirectoratesOf(ps) == DirectoratesOf(ps[..|ps| - 1]) + [ps[|ps| - 1].directorate];
    }
  }

  /** `directorateData` as the `reduce` builds it: a new key starts at 1, a known key goes up by 1. */
  function DirectorateCounts(ps: seq<Project>): (counts: map<string, nat>)
    ensures forall d :: d in counts <==> d in FirstSeen(ps)
    ensures forall d :: d in counts ==> counts[d] >= 1
    decreases |ps|
  {
    if ps == [] then map[]
    else
      var c, d := DirectorateCounts(ps[..|ps| - 1]), ps[|ps| - 1].directorate;
      if d in c then c[d := c[d] + 1] else c[d := 1]
  }

  /**
    The histogram's keys are exactly the directorates present, and each
    carries the number of projects of that directorate, at least 1.
   */
  lemma {:induction false} HistogramCounts(ps: seq<Project>)
    ensures forall d :: d in DirectorateCounts(ps) ==>
      DirectorateCounts(ps)[d] == Count(ps, DirectorateIs(d)) && DirectorateCounts(ps)[d] >= 1
    decreases |ps|
  {
    if ps != [] {
      var init, p := ps[..|ps| - 1], ps[|ps| - 1];
      assert ps == init + [p];
      HistogramCounts(init);
      FirstSeenCovers(init);
      var c, d := DirectorateCounts(init), p.directorate;
      assert DirectoratesOf(ps) == DirectoratesOf(init) + [d];
      forall x | x in DirectorateCounts(ps)
        ensures DirectorateCounts(ps)[x] == Count(ps, DirectorateIs(x))
      {
        CountSnoc(init, p, DirectorateIs(x));
        if x == d && d !in c {
          forall i | 0 <= i < |init|
            ensures !DirectorateIs(d)(init[i])
          {
            assert DirectoratesOf(init)[i] == init[i].directorate;
          }
        }
      }
    }
  }

  /** No directorate is listed twice. */
  lemma {:induction false} FirstSeenDistinct(ps: seq<Project>)
    ensures Distinct(FirstSeen(ps))
    decreases |ps|
  {
    if ps != [] {
      FirstSeenDistinct(ps[..|ps| - 1]);
    }
  }

  /** One more project extends the key list only with a new directorate. */
  lemma FirstSeenSnoc(ps: seq<Project>, p: Project)
    ensures FirstSeen(ps + [p]) == if p.directorate in FirstSeen(ps) then FirstSeen(ps) else FirstSeen(ps) + [p.directorate]
  {
    var qs := ps + [p];
    assert qs[..|qs| - 1] == ps;
  }

  /** One more project starts its directorate at 1 or adds 1 to it. */
  lemma CountsSnoc(ps: seq<Project>, p: Project)
    ensures p.directorate in DirectorateCounts(ps) ==>
      DirectorateCounts(ps + [p]) == DirectorateCounts(ps)[p.directorate := DirectorateCounts(ps)[p.directorate] + 1]
    ensures p.directorate !in DirectorateCounts(ps) ==>
      DirectorateCounts(ps + [p]) == DirectorateCounts(ps)[p.directorate := 1]
  {
    var qs := ps + [p];
    assert qs[..|qs| - 1] == ps;
  }

  /**
    The `directorateData` reduce: the accumulator object is a map updated in
    place, and `names` records its keys in insertion order.
   */
  method DirectorateHistogram(ps: seq<Project>) returns (names: seq<string>, acc: map<string, nat>)
    ensures names == FirstSeen(ps)
    ensures acc == DirectorateCounts(ps)
  {
    names, acc := [], map[];
    for i := 0 to |ps|
      invariant names == FirstSeen(ps[..i])
      invariant acc == DirectorateCounts(ps[..i])
    {
      ghost var seen, p := ps[..i], ps[i];
      assert ps[..i + 1] == seen + [p];
      FirstSeenSnoc(seen, p);
      CountsSnoc(seen, p);
      var d := ps[i].directorate;
      assert d in acc <==> d in names;
      assert d in acc ==> acc[d] >= 1;
      if d !in acc || acc[d] == 0 {
        acc := acc[d := 1];
        names := names + [d];
      } else {
        acc := acc[d := acc[d] + 1];
      }
    }
    assert ps[..|ps|] == ps;
  }

  /** The counts, added up in key order. */
  function SumOver(names: seq<string>, counts: map<string, nat>): nat
    requires forall i :: 0 <= i < |names| ==> names[i] in counts
    decreases |names|
  {
    if names == [] then 0 else SumOver(names[..|names| - 1], counts) + counts[names[|names| - 1]]
  }

  lemma {:induction false} SumOverIsCountsOver(ps: seq<Project>, names: seq<string>)
    requires forall i :: 0 <= i < |names| ==> names[i] in DirectorateCounts(ps)
    ensures SumOver(names, DirectorateCounts(ps)) == CountsOver(ps, names)
    decreases |names|
  {
    if names != [] {
      HistogramCounts(ps);
      SumOverIsCountsOver(ps, names[..|names| - 1]);
    }
  }

  /** The histogram counts add up to the number of filtered projects. */
  lemma HistogramTotal(ps: seq<Project>)
    ensures SumOver(FirstSeen(ps), DirectorateCounts(ps)) == |ps|
  {
    var names := FirstSeen(ps);
    FirstSeenDistinct(ps);
    FirstSeenCovers(ps);
    SumOverIsCountsOver(ps, names);
    CountsOverNamed(ps, names);
    CountAllPass(ps, DirectorateIn(names));
  }

  datatype ChartPoint = ChartPoint(name: string, projects: nat)

  /** `Object.entries(directorateData).map(...)`, in key order. */
  function ChartData(names: seq<string>, acc: map<string, nat>): (points: seq<ChartPoint>)
    requires forall i :: 0 <= i < |names| ==> names[i] in acc
    ensures |points| == |names|
    ensures forall i :: 0 <= i < |names| ==> points[i].name == names[i]
    decreases |names|
  {
    if names == [] then []
    else ChartData(names[..|names| - 1], acc) + [ChartPoint(names[|names| - 1], acc[names[|names| - 1]])]
  }

  /** The points add up in order. */
  function Plotted(points: seq<ChartPoint>): nat
    decreases |points|
  {
    if points == [] then 0 else Plotted(points[..|points| - 1]) + points[|points| - 1].projects
  }

  lemma {:induction false} PlottedIsSumOver(names: seq<string>, acc: map<string, nat>)
    requires forall i :: 0 <= i < |names| ==> names[i] in acc
    ensures Plotted(ChartData(names, acc)) == SumOver(names, acc)
    ensures forall i :: 0 <= i < |names| ==> ChartData(names, acc)[i].projects == acc[names[i]]
    decreases |names|
  {
    if names != [] {
      var init := names[..|names| - 1];
      PlottedIsSumOver(init, acc);
      var points := ChartData(names, acc);
      assert points[..|points| - 1] == ChartData(init, acc);
    }
  }

  /** Some point of the chart is labelled `d`. */
  predicate OnChart(points: seq<ChartPoint>, d: string) {
    exists i :: 0 <= i < |points| && points[i].name == d
  }

  /** Every directorate present has its point on the chart. */
  lemma ChartCoversProjects(ps: seq<Project>)
    ensures forall d :: d in DirectoratesOf(ps) ==> OnChart(ChartData(FirstSeen(ps), DirectorateCounts(ps)), d)
  {
    var names := FirstSeen(ps);
    var points := ChartData(names, DirectorateCounts(ps));
    FirstSeenCovers(ps);
    forall d | d in DirectoratesOf(ps)
      ensures OnChart(points, d)
    {
      var i := IndexOf(names, d);
      assert points[i].name == d;
    }
  }

  /** Where `d` sits in `names`. */
  function IndexOf(names: seq<string>, d: string): (i: nat)
    requires d in names
    ensures i < |names| && names[i] == d
  {
    if names[0] == d then 0 else 1 + IndexOf(names[1..], d)
  }

  /**
    The chart built from the histogram of the filtered projects has one
    point per directorate present, no directorate twice, each carrying its
    project count (at least 1), and the points add up to the project count.
   */
  lemma ChartMatchesProjects(ps: seq<Project>)
    ensures var points := ChartData(FirstSeen(ps), DirectorateCounts(ps));
      forall i :: 0 <= i < |points| ==>
        points[i].name in DirectoratesOf(ps) &&
        points[i].projects == Count(ps, DirectorateIs(points[i].name)) && points[i].projects >= 1
    ensures forall d :: d in DirectoratesOf(ps) ==> OnChart(ChartData(FirstSeen(ps), DirectorateCounts(ps)), d)
    ensures var points := ChartData(FirstSeen(ps), DirectorateCounts(ps));
      forall i, k :: 0 <= i < k < |points| ==> points[i].name != points[k].name
    ensures Plotted(ChartData(FirstSeen(ps), DirectorateCounts(ps))) == |ps|
  {
    var names, acc := FirstSeen(ps), DirectorateCounts(ps);
    PlottedIsSumOver(names, acc);
    HistogramTotal(ps);
    FirstSeenDistinct(ps);
    FirstSeenCovers(ps);
    HistogramCounts(ps);
    ChartCoversProjects(ps);
  }
}
