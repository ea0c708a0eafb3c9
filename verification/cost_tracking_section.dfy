/** The cost tracking section of the asset page: which chart the chart
    selector shows, the pie colours, the remaining budget and the list of
    "top" return-on-investment projects. */
module CostTrackingSection {
  import opened ListPipeline

  /** The period and chart the section opens with. */
  const InitialPeriod: string := "quarterly"
  const InitialChart: string := "budget"

  // ---------------------------------------------------------------------------
  // Chart dispatch
  // ---------------------------------------------------------------------------

  /** The three charts the section can draw. */
  datatype Chart = BudgetChart | RoiChart | DistributionChart

  /** The chart selector's ids and what each draws. */
  const ChartTypes: map<string, Chart> :=
    map["budget" := BudgetChart, "roi" := RoiChart, "distribution" := DistributionChart]

  /** `renderActiveChart`: the chart of a known id, the budget chart for any other. */
  function RenderActiveChart(activeChart: string): (c: Chart)
    ensures activeChart in ChartTypes ==> c == ChartTypes[activeChart]
    ensures activeChart !in ChartTypes ==> c == BudgetChart
    ensures c == BudgetChart <==> activeChart == "budget" || activeChart !in ChartTypes
  {
    if activeChart == "roi" then RoiChart
    else if activeChart == "distribution" then DistributionChart
    else BudgetChart
  }

  /** Every chart is reachable from its own button, and the section opens on
      the budget chart. */
  lemma EveryChartReachable(c: Chart)
    ensures exists id :: id in ChartTypes && RenderActiveChart(id) == c
    ensures RenderActiveChart(InitialChart) == BudgetChart
  {
    match c
    case BudgetChart => assert RenderActiveChart("budget") == c;
    case RoiChart => assert RenderActiveChart("roi") == c;
    case DistributionChart => assert RenderActiveChart("distribution") == c;
  }

  // ---------------------------------------------------------------------------
  // Pie colours
  // ---------------------------------------------------------------------------

  const Colors: seq<string> := ["#2563EB", "#10B981", "#F59E0B", "#EF4444", "#8B5CF6"]

  /** `COLORS[index % COLORS.length]`: the fill of pie cell `index`. */
  function CellColor(index: nat): (c: string)
    ensures c in Colors
    ensures index < |Colors| ==> c == Colors[index]
  {
    Colors[index % |Colors|]
  }

  /** The palette repeats every five cells, and two neighbouring cells never
      share a colour. */
  lemma CellColorsCycle(index: nat)
    ensures CellColor(index + 5) == CellColor(index)
    ensures CellColor(index + 1) != CellColor(index)
  {
    var k := index % 5;
    assert (index + 5) % 5 == k;
    assert (index + 1) % 5 == if k == 4 then 0 else k + 1;
  }

  // ---------------------------------------------------------------------------
  // Budget summary
  // ---------------------------------------------------------------------------

  /** One month of the budget series, in whole dollars. */
  datatype BudgetMonth = BudgetMonth(month: string, budgeted: int, actual: int)

  /** `budgetData.reduce((sum, item) => sum + item.budgeted, 0)`. */
  function TotalBudgeted(months: seq<BudgetMonth>): (total: int)
    ensures (forall k :: 0 <= k < |months| ==> months[k].budgeted >= 0) ==>
              total >= 0 && forall k :: 0 <= k < |months| ==> months[k].budgeted <= total
    decreases |months|
  {
    if |months| == 0 then 0 else TotalBudgeted(months[..|months| - 1]) + months[|months| - 1].budgeted
  }

  /** `budgetData.reduce((sum, item) => sum + item.actual, 0)`. */
  function TotalSpent(months: seq<BudgetMonth>): (total: int)
    ensures (forall k :: 0 <= k < |months| ==> months[k].actual >= 0) ==>
              total >= 0 && forall k :: 0 <= k < |months| ==> months[k].actual <= total
    decreases |months|
  {
    if |months| == 0 then 0 else TotalSpent(months[..|months| - 1]) + months[|months| - 1].actual
  }

  /** The "Remaining" figure: the budget total less the spent total, which
      is what the months saved, added up. */
  function Remaining(months: seq<BudgetMonth>): (r: int)
    ensures r == SumOfSavings(months)
  {
    RemainingIsSumOfSavings(months);
    TotalBudgeted(months) - TotalSpent(months)
  }

  /** The sum of each month's own under- or overspend. */
  function SumOfSavings(months: seq<BudgetMonth>): int
    decreases |months|
  {
    if |months| == 0 then 0 else months[0].budgeted - months[0].actual + SumOfSavings(months[1..])
  }

  /** The total-minus-total figure is the sum of the months' savings. */
  lemma {:induction false} RemainingIsSumOfSavings(months: seq<BudgetMonth>)
    ensures TotalBudgeted(months) - TotalSpent(months) == SumOfSavings(months)
    decreases |months|
  {
    if |months| > 0 {
      var rest := months[1..];
      RemainingIsSumOfSavings(rest);
      TotalsSplitFirst(months);
    }
  }

  /** Both totals can be taken with the first month set aside. */
  lemma {:induction false} TotalsSplitFirst(months: seq<BudgetMonth>)
    requires |months| > 0
    ensures TotalBudgeted(months) == months[0].budgeted + TotalBudgeted(months[1..])
    ensures TotalSpent(months) == months[0].actual + TotalSpent(months[1..])
    decreases |months|
  {
    if |months| > 1 {
      var init := months[..|months| - 1];
      TotalsSplitFirst(init);
      assert init[1..] == months[1..][..|months[1..]| - 1];
      assert init[0] == months[0];
    } else {
      assert months[..0] == [] && months[1..] == [];
    }
  }

  /** A month that stayed under budget never lowers the remaining figure: if
      every month did, nothing is shown as overspent. */
  lemma {:induction false} UnderBudgetMonthsKeepRemainingNonNegative(months: seq<BudgetMonth>)
    requires forall k :: 0 <= k < |months| ==> months[k].actual <= months[k].budgeted
    ensures Remaining(months) >= 0
    decreases |months|
  {
    if |months| > 0 {
      UnderBudgetMonthsKeepRemainingNonNegative(months[..|months| - 1]);
    }
  }

  /** The series the asset page passes in. */
  const PageBudget: seq<BudgetMonth> := [
    BudgetMonth("Jan", 500000, 485000), BudgetMonth("Feb", 520000, 510000),
    BudgetMonth("Mar", 480000, 495000), BudgetMonth("Apr", 550000, 535000),
    BudgetMonth("May", 600000, 580000), BudgetMonth("Jun", 580000, 595000)
  ]

  /** On that series $30,000 remain, although two months ran over budget. */
  lemma PageRemaining()
    ensures Remaining(PageBudget) == 30000
    ensures PageBudget[2].actual > PageBudget[2].budgeted && PageBudget[5].actual > PageBudget[5].budgeted
  {
    RemainingIsSumOfSavings(PageBudget);
    assert PageBudget[1..][1..][1..][1..][1..][1..] == [];
  }

  // ---------------------------------------------------------------------------
  // Top ROI projects
  // ---------------------------------------------------------------------------

  /** A project's return on investment, in percent. */
  datatype RoiEntry = RoiEntry(project: string, roi: real)

  /** `roiData.slice(0, 3)`: the list titled "Top ROI Projects" is the first
      three entries as given, not the three largest. */
  function TopRoiProjects(roiData: seq<RoiEntry>): (r: seq<RoiEntry>)
    ensures |r| == if |roiData| < 3 then |roiData| else 3
    ensures forall i :: 0 <= i < |r| ==> r[i] == roiData[i]
  {
    Take(roiData, 3)
  }

  /** The series the asset page passes in. */
  const PageRoi: seq<RoiEntry> := [
    RoiEntry("Bridge Maintenance", 15.2), RoiEntry("Highway Resurfacing", 22.8),
    RoiEntry("Signal Upgrade", 18.5), RoiEntry("Tunnel Overhaul", 12.3),
    RoiEntry("Sign Replacement", 25.1)
  ]

  /** On that series the best project, Sign Replacement, is not listed while
      Bridge Maintenance, with a lower return, is. */
  lemma TopRoiIsNotTheBest()
    ensures var top := TopRoiProjects(PageRoi);
            PageRoi[4] !in top && PageRoi[0] in top && PageRoi[0].roi < PageRoi[4].roi
  {
    var top := TopRoiProjects(PageRoi);
    assert top == PageRoi[..3];
    assert top[0].roi != 25.1 && top[1].roi != 25.1 && top[2].roi != 25.1;
  }
}
