/** The historical trends panel of the traffic analytics page: the metric
    selector and cards, the historical and optional forecast series, and the
    unit written after a tooltip value. */
module HistoricalTrends {
  import opened Wrappers
  import opened ListPipeline

  /** A selectable metric. `title` is the source's `label`. */
  datatype Metric = Metric(value: string, title: string, color: string, icon: string)

  /** The four metrics, in the order of the selector and the cards. */
  const Metrics: seq<Metric> := [
    Metric("volume", "Traffic Volume", "var(--color-primary)", "BarChart3"),
    Metric("speed", "Average Speed", "var(--color-success)", "Gauge"),
    Metric("incidents", "Safety Incidents", "var(--color-error)", "AlertTriangle"),
    Metric("efficiency", "Network Efficiency", "var(--color-accent)", "TrendingUp")
  ]

  /** What the traffic analytics page starts the panel with. */
  const InitialMetric: string := "volume"
  const InitialForecast: bool := false

  // ---------------------------------------------------------------------------
  // Units
  // ---------------------------------------------------------------------------

  const MetricUnits: map<string, string> :=
    map["volume" := " vehicles", "speed" := " mph", "incidents" := " incidents", "efficiency" := "%"]

  /** `getMetricUnit`: the unit of a metric, nothing for any other key. */
  function MetricUnit(metric: string): (unit: string)
    ensures metric in MetricUnits ==> unit == MetricUnits[metric]
    ensures metric !in MetricUnits <==> unit == ""
  {
    if metric == "volume" then " vehicles"
    else if metric == "speed" then " mph"
    else if metric == "incidents" then " incidents"
    else if metric == "efficiency" then "%"
    else ""
  }

  /** Every metric the panel offers has a unit. */
  lemma EveryMetricHasUnit(k: int)
    requires 0 <= k < |Metrics|
    ensures MetricUnit(Metrics[k].value) != ""
  {
  }

  // ---------------------------------------------------------------------------
  // Selection
  // ---------------------------------------------------------------------------

  /** `metrics.find(m => m.value === selectedMetric)`. */
  function SelectedMetricData(selectedMetric: string): (r: Option<Metric>)
    ensures r.None? <==> forall k :: 0 <= k < |Metrics| ==> Metrics[k].value != selectedMetric
    ensures r.Some? ==> r.value in Metrics && r.value.value == selectedMetric
  {
    Find(Metrics, (m: Metric) => m.value == selectedMetric)
  }

  /** The metric values are exactly the keys of the unit table, so a metric is
      found precisely when it has a unit. */
  lemma FoundIffHasUnit(selectedMetric: string)
    ensures SelectedMetricData(selectedMetric).Some? <==> selectedMetric in MetricUnits
  {
    if selectedMetric in MetricUnits {
      var k := if selectedMetric == "volume" then 0 else if selectedMetric == "speed" then 1
               else if selectedMetric == "incidents" then 2 else 3;
      assert Metrics[k].value == selectedMetric;
    }
  }

  /** A metric card: its metric, whether it is highlighted, and its caption. */
  datatype Card = Card(metric: Metric, highlighted: bool, caption: string)

  /** The four cards: the selected one is highlighted and says so. */
  function Cards(selectedMetric: string): (r: seq<Card>)
    ensures |r| == |Metrics|
    ensures forall k :: 0 <= k < |r| ==> r[k].metric == Metrics[k]
    ensures forall k :: 0 <= k < |r| ==> (r[k].highlighted <==> Metrics[k].value == selectedMetric)
    ensures forall k :: 0 <= k < |r| ==>
              (r[k].caption == "Currently selected" <==> Metrics[k].value == selectedMetric)
  {
    seq(|Metrics|, k requires 0 <= k < |Metrics| =>
      Card(Metrics[k], Metrics[k].value == selectedMetric,
           if Metrics[k].value == selectedMetric then "Currently selected" else "Click to view trend"))
  }

  /** Clicking card `k` emits its metric, after which exactly that card is
      highlighted. */
  lemma ClickSelectsOnlyThatCard(k: int)
    requires 0 <= k < |Metrics|
    ensures var r := Cards(Metrics[k].value);
            r[k].highlighted && forall j :: 0 <= j < |r| && j != k ==> !r[j].highlighted
  {
    var r := Cards(Metrics[k].value);
    forall j | 0 <= j < |r| && j != k
      ensures !r[j].highlighted
    {
      assert Metrics[j].value[0] != Metrics[k].value[0];
    }
  }

  // ---------------------------------------------------------------------------
  // Series
  // ---------------------------------------------------------------------------

  const ForecastSuffix: string := "Forecast"

  /** The data keys the chart plots: the selected metric, then
      `${selectedMetric}Forecast` when the forecast is on. */
  function SeriesKeys(selectedMetric: string, forecastEnabled: bool): (r: seq<string>)
    ensures |r| >= 1 && r[0] == selectedMetric
    ensures |r| == 2 <==> forecastEnabled
    ensures |r| <= 2
    ensures forecastEnabled ==> r[1] == selectedMetric + ForecastSuffix
  {
    [selectedMetric] + (if forecastEnabled then [selectedMetric + ForecastSuffix] else [])
  }

  /** The panel opens with the volume series alone. */
  lemma InitialSeries()
    ensures SeriesKeys(InitialMetric, InitialForecast) == ["volume"]
  {
  }

  /** The tooltip unit of a series AS WRITTEN: `getMetricUnit(entry.dataKey)`.
      A forecast key is not a metric name, so it gets no unit at all. */
  function TooltipUnit(dataKey: string): (unit: string)
    ensures dataKey in MetricUnits ==> unit == MetricUnits[dataKey]
    ensures dataKey !in MetricUnits ==> unit == ""
  {
    MetricUnit(dataKey)
  }

  /** With the forecast on, hovering shows the historical value with its unit
      and the forecast value of the same metric without one. */
  lemma ForecastTooltipLosesUnit(k: int)
    requires 0 <= k < |Metrics|
    ensures var keys := SeriesKeys(Metrics[k].value, true);
            TooltipUnit(keys[0]) != "" && TooltipUnit(keys[1]) == ""
  {
    var m := Metrics[k].value;
    assert |m + ForecastSuffix| > 10;
    assert forall key :: key in MetricUnits ==> |key| <= 10;
  }

  /** The metric a data key belongs to: the key itself, or the key with its
      `Forecast` suffix removed. */
  function BaseMetric(dataKey: string): (m: string)
    ensures dataKey == m || dataKey == m + ForecastSuffix
    ensures forall base :: dataKey == base + ForecastSuffix ==> m == base
  {
    var n := |ForecastSuffix|;
    if |dataKey| >= n && dataKey[|dataKey| - n..] == ForecastSuffix then
      assert dataKey == dataKey[..|dataKey| - n] + ForecastSuffix;
      dataKey[..|dataKey| - n]
    else
      dataKey
  }

  /** The evidently intended tooltip unit: that of the key's metric, so a
      forecast is shown in the same unit as its history. */
  function TooltipUnitCorrected(dataKey: string): (unit: string)
    ensures forall base :: dataKey == base + ForecastSuffix ==> unit == MetricUnit(base)
  {
    MetricUnit(BaseMetric(dataKey))
  }

  /** With the correction both series of every metric carry the metric's
      unit, and the historical series keeps the unit it had before. */
  lemma CorrectedForecastKeepsUnit(k: int)
    requires 0 <= k < |Metrics|
    ensures var keys := SeriesKeys(Metrics[k].value, true);
            TooltipUnitCorrected(keys[1]) == TooltipUnitCorrected(keys[0]) == TooltipUnit(keys[0]) != ""
  {
    var m := Metrics[k].value;
    assert BaseMetric(m) == m by {
      assert |m| < |ForecastSuffix| || m[|m| - |ForecastSuffix|..] != ForecastSuffix;
    }
  }
}
