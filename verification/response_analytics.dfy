/** The response analytics panel of the emergency page: the trend arrow and
    colour of a performance metric, read from the sign its change is written
    with, and the chart block chosen by the metric selector. */
module ResponseAnalytics {
  import opened Wrappers
  import opened Text

  /** A performance metric card. `change` is the signed text shown beside the
      arrow, `None` when the record has none. Label, value, icon and colour
      are display-only. */
  datatype PerformanceMetric = PerformanceMetric(id: string, change: Option<string>, trend: string)

  /** The four cards the panel ships with. */
  const PerformanceMetrics: seq<PerformanceMetric> := [
    PerformanceMetric("avg-response", Some("-12%"), "down"),
    PerformanceMetric("resolution-rate", Some("+3%"), "up"),
    PerformanceMetric("resource-utilization", Some("+5%"), "up"),
    PerformanceMetric("incidents-today", Some("-8%"), "down")
  ]

  // ---------------------------------------------------------------------------
  // Trend
  // ---------------------------------------------------------------------------

  /** `getTrendIcon`: anything but 'up' points down. */
  function TrendIcon(trend: string): (icon: string)
    ensures icon == "TrendingUp" <==> trend == "up"
    ensures icon == "TrendingDown" <==> trend != "up"
  {
    if trend == "up" then "TrendingUp" else "TrendingDown"
  }

  /** `change?.startsWith(sign)`: false when there is no change text. */
  function ChangeStartsWith(change: Option<string>, sign: string): (b: bool)
    ensures change.None? ==> !b
    ensures change.Some? ==> (b <==> |sign| <= |change.value| && change.value[..|sign|] == sign)
    ensures b && |sign| > 0 ==> change.value[0] == sign[0]
  {
    change.Some? && StartsWith(change.value, sign)
  }

  /** `getTrendColor`: good when the written sign agrees with the arrow, a
      '+' on an upward trend or a '-' on any other; bad otherwise, and bad
      when the change is missing. */
  function TrendColor(trend: string, change: Option<string>): (c: string)
    ensures c == "text-success" || c == "text-error"
    ensures trend == "up" ==> (c == "text-success" <==> ChangeStartsWith(change, "+"))
    ensures trend != "up" ==> (c == "text-success" <==> ChangeStartsWith(change, "-"))
    ensures change.None? ==> c == "text-error"
  {
    if trend == "up" then
      (if change.Some? && StartsWith(change.value, "+") then "text-success" else "text-error")
    else
      (if change.Some? && StartsWith(change.value, "-") then "text-success" else "text-error")
  }

  /** The colour follows the agreement of arrow and sign, not whether the
      metric improved: an upward "-3%" is red, and so is a downward "+3%". */
  lemma ColorIsSignAgreement(trend: string, change: string)
    requires |change| > 0 && (change[0] == '+' || change[0] == '-')
    ensures TrendColor(trend, Some(change)) == "text-success" <==>
              (TrendIcon(trend) == "TrendingUp" <==> change[0] == '+')
  {
    assert StartsWith(change, "+") <==> change[0] == '+';
    assert StartsWith(change, "-") <==> change[0] == '-';
  }

  /** Every card the panel ships with shows a green trend. */
  lemma ShippedMetricsAreGreen()
    ensures forall k :: 0 <= k < |PerformanceMetrics| ==>
              TrendColor(PerformanceMetrics[k].trend, PerformanceMetrics[k].change) == "text-success"
  {
    assert StartsWith("-12%", "-") && StartsWith("+3%", "+") && StartsWith("+5%", "+") && StartsWith("-8%", "-");
  }

  // ---------------------------------------------------------------------------
  // Charts
  // ---------------------------------------------------------------------------

  /** The initial selection of the metric selector. */
  const InitialMetric: string := "response-time"

  /** The three chart blocks of the panel. */
  datatype Chart = ResponseTimeChart | IncidentTypesChart | PerformanceChart

  /** The values the selector offers, each with its chart. */
  const ChartOf: map<string, Chart> :=
    map["response-time" := ResponseTimeChart, "incident-types" := IncidentTypesChart, "performance" := PerformanceChart]

  /** The blocks rendered for a selection: each is guarded by its own
      `selectedMetric === …` test, in this order. */
  function Charts(selectedMetric: string): (r: seq<Chart>)
    ensures selectedMetric in ChartOf ==> r == [ChartOf[selectedMetric]]
    ensures selectedMetric !in ChartOf <==> r == []
  {
    (if selectedMetric == "response-time" then [ResponseTimeChart] else [])
    + (if selectedMetric == "incident-types" then [IncidentTypesChart] else [])
    + (if selectedMetric == "performance" then [PerformanceChart] else [])
  }

  /** Different selector values never show the same chart. */
  lemma ChartsDistinct(a: string, b: string)
    requires a in ChartOf && b in ChartOf && a != b
    ensures Charts(a) != Charts(b)
  {
  }

  /** The panel opens on the response-time chart. */
  lemma InitialChart()
    ensures Charts(InitialMetric) == [ResponseTimeChart]
  {
  }
}
