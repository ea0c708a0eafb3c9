# Road intelligence dashboard — a Dafny model of its view logic

The road intelligence dashboard is a React application with four pages:
emergency response coordination, infrastructure asset management, real-time
network operations, and traffic analytics and performance. It has no
server. Each page shows fixed sample records through components, and what a
component shows is decided by small pieces of plain logic:

- list pipelines that filter a table by a status or type, sort it by a
  clickable column, and count rows;
- lookup tables from a status, severity or type to a colour or icon, each
  with a fallback for unknown values;
- threshold classifiers that map a score, confidence or congestion level to
  a band;
- small state machines: header-click sort state, membership toggles,
  select/deselect, and the alert-level button;
- derived numbers such as durations, "time ago" captions, marker positions,
  KPI counts and budget sums.

This project models that logic as pure Dafny functions over immutable
datatypes and sequences, and proves what the components promise about
them.

Layout:

- `wrappers.dfy` (`Option`, `Result`), `text.dfy` (the JavaScript string
  operations used: `includes`, `trim`, `replace`, number rendering and
  parsing), `list_pipeline.dfy` (filter, find, slice, the two-way sort
  comparator, the sort outcome relation, the header-click sort state) and
  `toggles.dfy` (membership and single-selection toggles) are shared.
- Each other file models one component, in a module named after it:
  `IncidentManagementTable`, `IncidentTable`, `MaintenancePriorityQueue`,
  `ResourceAllocation`, `AssetDashboard` (the KPI block of the asset page),
  `AssetConditionMatrix`, `AssetMap`, `LiveAlertFeed`,
  `CommunicationCenter`, `FilterControls`, `NetworkHeatMap`,
  `RoadDetection`, `MaintenanceGanttChart`, `CongestionHotspots`,
  `NetworkKpiCard`, `ResponseAnalytics`, `EmergencyHeader`,
  `CostTrackingSection`, `IncidentMap`, `CommandPanel`,
  `ComparativeAnalysis` and `HistoricalTrends`.

Modelling conventions:

- JavaScript `null`/`undefined` becomes `Option`. A render that would throw
  becomes a `Result` failure.
- Dates are carried as the millisecond instant that `new Date(...)` yields.
  `Date.now()` becomes a parameter.
- `Math.round`, `Math.ceil`, `Math.floor` and `Math.min` on the integer
  inputs the components use are written out with Dafny's integer division.
  A `||` fallback is written as an explicit test for the falsy value.

**Sorting.** The sortable tables compare with JavaScript `<`/`>` and a
comparator that answers 1 or -1 and never 0. The model therefore
specifies a sort only as a relation:

- the output is a permutation of the input;
- no element is strictly preceded, in the chosen direction, by a later one.

No tie order and no stability are claimed. Severity is sorted as text,
not by urgency: the strings order lexically ('critical' < 'high' < 'low' <
'medium'), and `IncidentManagementTable.SeverityAscendingIsLexical` states
the consequence.

## Model

| member | source | states |
|---|---|---|
| EmergencyHeader.AlertLevelColor | src/pages/emergency-response-coordination-dashboard/components/EmergencyHeader.jsx:23-30 | low, moderate and high get their own chip tone; every other level, and only such a level, gets the muted tone |
| EmergencyHeader.AlertLevelIcon | src/pages/emergency-response-coordination-dashboard/components/EmergencyHeader.jsx:32-39 | each known level has its icon; the Info icon exactly for unknown levels |
| EmergencyHeader.ToggleLevel | src/pages/emergency-response-coordination-dashboard/components/EmergencyHeader.jsx:118 | the level button yields 'low' exactly from 'high', and 'high' from every other level |
| EmergencyHeader.NeverModerateAgain | src/pages/emergency-response-coordination-dashboard/components/EmergencyHeader.jsx:118 | after at least one press the level is 'high' or 'low', whatever it was before: 'moderate' is never shown again |
| EmergencyHeader.Alternates | src/pages/emergency-response-coordination-dashboard/components/EmergencyHeader.jsx:118 | after the first press every press changes the level and two presses restore it |
| EmergencyHeader.LevelAfterPresses | src/pages/emergency-response-coordination-dashboard/components/EmergencyHeader.jsx:6-118 | from the initial 'moderate', an odd number of presses shows 'high' and a positive even number shows 'low' |
| RoadDetection.SeverityColor | src/pages/emergency-response-coordination-dashboard/components/RoadDetection.jsx:60-67 | high, medium and low map to their chips; the muted chip exactly for any other severity |
| RoadDetection.DetectionIcon | src/pages/emergency-response-coordination-dashboard/components/RoadDetection.jsx:69-77 | the five known detection types map to their icons; Search exactly for any other type |
| RoadDetection.StatusColor | src/pages/emergency-response-coordination-dashboard/components/RoadDetection.jsx:79-87 | verified, pending, monitoring and resolved map to their tones; the muted tone exactly for any other status |
| RoadDetection.ConfidenceColor | src/pages/emergency-response-coordination-dashboard/components/RoadDetection.jsx:89-93 | green exactly from 90 up, amber exactly on 70..89, red exactly below 70 |
| RoadDetection.ConfidenceColorMonotone | src/pages/emergency-response-coordination-dashboard/components/RoadDetection.jsx:89-93 | a higher confidence never gets a worse tone |
| RoadDetection.TypeCaption | src/pages/emergency-response-coordination-dashboard/components/RoadDetection.jsx:240 | `replace('_', ' ')` keeps the length, replaces only the first underscore by a space and leaves every other character alone |
| RoadDetection.BadgeDigit | src/pages/emergency-response-coordination-dashboard/components/RoadDetection.jsx:218 | the marker badge is the confidence in tens rounded to the nearest, within five of ten times the badge |
| RoadDetection.BadgeDigitIsJsRound | src/pages/emergency-response-coordination-dashboard/components/RoadDetection.jsx:218 | the integer formula equals `Math.round(confidence / 10)` (halves round up) for every integer confidence |
| RoadDetection.BadgeAgreesWithColor | src/pages/emergency-response-coordination-dashboard/components/RoadDetection.jsx:216-218 | on 0..100 a green badge reads 9 or 10, an amber one 7..9, a red one at most 7 |
| RoadDetection.MarkerPosition | src/pages/emergency-response-coordination-dashboard/components/RoadDetection.jsx:205-208 | marker i sits at (15 + 28i, 25 + 12i) percent, so each later marker is strictly right of and below every earlier one |
| RoadDetection.PopupOpen | src/pages/emergency-response-coordination-dashboard/components/RoadDetection.jsx:223 | with no selection no popup is open; with one, exactly the markers sharing its id open theirs |
| RoadDetection.ClickMarker | src/pages/emergency-response-coordination-dashboard/components/RoadDetection.jsx:210 | clicking a marker opens that detection's popup |
| RoadDetection.AtMostOnePopup | src/pages/emergency-response-coordination-dashboard/components/RoadDetection.jsx:223 | among detections with distinct ids at most one popup is open |
| RoadDetection.ShippedIdsDistinct | src/pages/emergency-response-coordination-dashboard/components/RoadDetection.jsx:9-49 | the three shipped detections have distinct ids, so the popup test singles out one |
| RoadDetection.ScanStep | src/pages/emergency-response-coordination-dashboard/components/RoadDetection.jsx:95-101 | a click on the enabled button starts a scan and arms one timer; a click while disabled does nothing; a firing timer ends the scan |
| RoadDetection.ButtonDisabled | src/pages/emergency-response-coordination-dashboard/components/RoadDetection.jsx:144 | in every reachable state the scan button is disabled exactly while a scan timer is pending |
| RoadDetection.ScansNeverOverlap | src/pages/emergency-response-coordination-dashboard/components/RoadDetection.jsx:95-144 | whatever clicks and timer firings occur, at most one timer is pending and the scan indicator is on exactly while one is |
| MaintenanceGanttChart.ProjectColor | src/pages/infrastructure-asset-management-dashboard/components/MaintenanceGanttChart.jsx:15-23 | completed, in-progress, scheduled and delayed get their bar colours; bg-muted exactly for any other status |
| MaintenanceGanttChart.Duration | src/pages/infrastructure-asset-management-dashboard/components/MaintenanceGanttChart.jsx:43-49 | the duration in days is the least whole number of days covering the absolute gap between the two instants |
| MaintenanceGanttChart.DurationProperties | src/pages/infrastructure-asset-management-dashboard/components/MaintenanceGanttChart.jsx:43-49 | the duration ignores the order of the dates, is 0 exactly when they coincide and at least 1 otherwise |
| MaintenanceGanttChart.DurationIsCeiling | src/pages/infrastructure-asset-management-dashboard/components/MaintenanceGanttChart.jsx:46-47 | the integer duration equals `Math.ceil` of the gap divided by a day, computed in reals |
| MaintenanceGanttChart.TimelineHeaders | src/pages/infrastructure-asset-management-dashboard/components/MaintenanceGanttChart.jsx:51-61 | twelve headers, the i-th being the month i months after the current one, with the year carried |
| MaintenanceGanttChart.HeadersDistinct | src/pages/infrastructure-asset-management-dashboard/components/MaintenanceGanttChart.jsx:51-61 | no month appears twice among the headers |
| MaintenanceGanttChart.BarColumns | src/pages/infrastructure-asset-management-dashboard/components/MaintenanceGanttChart.jsx:158-161 | of the twelve columns exactly the four with index 1..4 draw a bar, whatever the project's dates |
| MaintenanceGanttChart.BarWidth | src/pages/infrastructure-asset-management-dashboard/components/MaintenanceGanttChart.jsx:166 | the bar width is the progress capped at 100, a missing progress reads as 0, and it is full exactly when progress reaches 100 |
| MaintenanceGanttChart.ClickRow | src/pages/infrastructure-asset-management-dashboard/components/MaintenanceGanttChart.jsx:138 | clicking the selected row deselects it; clicking any other row selects that row |
| MaintenanceGanttChart.ClickRowTwice | src/pages/infrastructure-asset-management-dashboard/components/MaintenanceGanttChart.jsx:138 | from no selection, or with this row selected, two clicks on the row give back the selection it started from |
| MaintenanceGanttChart.CloseDetails | src/pages/infrastructure-asset-management-dashboard/components/MaintenanceGanttChart.jsx:199 | the close button clears the selection |
| MaintenanceGanttChart.Details | src/pages/infrastructure-asset-management-dashboard/components/MaintenanceGanttChart.jsx:190-193 | the details panel is hidden exactly for no selection or an empty id; otherwise it shows the first project with the selected id, and an empty panel exactly when none has it |
| MaintenanceGanttChart.ClickOpensDetails | src/pages/infrastructure-asset-management-dashboard/components/MaintenanceGanttChart.jsx:138-193 | clicking a row with a non-empty id, from no selection, opens details of a project carrying that id |
| CongestionHotspots.SeverityColor | src/pages/traffic-analytics-and-performance-dashboard/components/CongestionHotspots.jsx:5-13 | critical, high, medium and low get their text tones; the muted tone exactly for any other severity |
| CongestionHotspots.SeverityBg | src/pages/traffic-analytics-and-performance-dashboard/components/CongestionHotspots.jsx:15-23 | the same four severities get their tinted backgrounds; bg-muted/10 exactly for any other |
| CongestionHotspots.SeverityIcon | src/pages/traffic-analytics-and-performance-dashboard/components/CongestionHotspots.jsx:25-33 | the four severities get their icons; Circle exactly for any other |
| CongestionHotspots.ChipTonesAgree | src/pages/traffic-analytics-and-performance-dashboard/components/CongestionHotspots.jsx:5-23 | the text and background tables know the same severities, and for each the background is the text colour at one tenth |
| CongestionHotspots.BarColor | src/pages/traffic-analytics-and-performance-dashboard/components/CongestionHotspots.jsx:71-75 | red exactly from 80, amber on 60..79, accent on 40..59, green below 40 |
| CongestionHotspots.BarColorMonotone | src/pages/traffic-analytics-and-performance-dashboard/components/CongestionHotspots.jsx:71-75 | more congestion never gets a milder bar |
| CongestionHotspots.Rows | src/pages/traffic-analytics-and-performance-dashboard/components/CongestionHotspots.jsx:45-77 | one row per hotspot in the given order, ranked i+1, with the bar width equal to the congestion level |
| CongestionHotspots.RanksAreOneToN | src/pages/traffic-analytics-and-performance-dashboard/components/CongestionHotspots.jsx:45-48 | the ranks are exactly 1..n, each once |
| CongestionHotspots.RankIgnoresCongestion | src/pages/traffic-analytics-and-performance-dashboard/components/CongestionHotspots.jsx:45-48 | the rank is the position in the list, so a less congested hotspot listed first is ranked 1 |
| NetworkKpiCard.StatusColor | src/pages/real-time-network-operations-dashboard/components/NetworkKPICard.jsx:5-13 | excellent, good, warning and critical get their tones; the muted tone exactly for any other status |
| NetworkKpiCard.StatusBgColor | src/pages/real-time-network-operations-dashboard/components/NetworkKPICard.jsx:15-23 | the same four statuses get their tinted backgrounds; bg-muted/10 exactly for any other |
| NetworkKpiCard.StatusTonesAgree | src/pages/real-time-network-operations-dashboard/components/NetworkKPICard.jsx:5-23 | both tables know the same statuses and each background is its text colour at one tenth |
| NetworkKpiCard.TrendIcon | src/pages/real-time-network-operations-dashboard/components/NetworkKPICard.jsx:25-29 | up arrow exactly for 'up', down arrow exactly for 'down', a dash for anything else |
| NetworkKpiCard.TrendColor | src/pages/real-time-network-operations-dashboard/components/NetworkKPICard.jsx:31-37 | muted exactly when the trend is neither up nor down; a rise is green exactly for Score/Flow titles; a fall is green exactly for Incidents/Response titles; otherwise red |
| NetworkKpiCard.UnclassifiedTitleAlwaysRed | src/pages/real-time-network-operations-dashboard/components/NetworkKPICard.jsx:31-37 | a title naming none of the four words shows every rise and fall in red |
| NetworkKpiCard.RisingScoreIsGood | src/pages/real-time-network-operations-dashboard/components/NetworkKPICard.jsx:32 | a rising "Network Score" is green |
| NetworkKpiCard.TitleMatchIsCaseSensitive | src/pages/real-time-network-operations-dashboard/components/NetworkKPICard.jsx:34-35 | the title test is case-sensitive: a falling "open incidents" is red |
| NetworkKpiCard.ShowsUnit | src/pages/real-time-network-operations-dashboard/components/NetworkKPICard.jsx:62 | `unit && ...`: the unit renders exactly when it is present and non-empty |
| NetworkKpiCard.OnlyActiveIncidentsHasNoUnit | src/pages/real-time-network-operations-dashboard/index.jsx:21-71 | of the six KPI cards of the page, all but "Active Incidents" show a unit |
| ResponseAnalytics.TrendIcon | src/pages/emergency-response-coordination-dashboard/components/ResponseAnalytics.jsx:71-73 | the up arrow exactly for 'up'; every other trend, even an unknown one, gets the down arrow |
| ResponseAnalytics.TrendColor | src/pages/emergency-response-coordination-dashboard/components/ResponseAnalytics.jsx:75-81 | for 'up' green exactly when the change starts with '+', for every other trend green exactly when it starts with '-'; a missing change is red |
| ResponseAnalytics.ChangeStartsWith | src/pages/emergency-response-coordination-dashboard/components/ResponseAnalytics.jsx:77-79 | `change?.startsWith(sign)`: false for a missing change, otherwise true exactly when the text begins with the sign |
| ResponseAnalytics.ColorIsSignAgreement | src/pages/emergency-response-coordination-dashboard/components/ResponseAnalytics.jsx:71-81 | for a signed change, green means the arrow and the sign agree, not that the metric improved |
| ResponseAnalytics.ShippedMetricsAreGreen | src/pages/emergency-response-coordination-dashboard/components/ResponseAnalytics.jsx:32-69 | all four shipped performance cards show a green trend |
| ResponseAnalytics.Charts | src/pages/emergency-response-coordination-dashboard/components/ResponseAnalytics.jsx:155-240 | each known selector value renders exactly its own chart block and an unknown value renders none |
| ResponseAnalytics.ChartsDistinct | src/pages/emergency-response-coordination-dashboard/components/ResponseAnalytics.jsx:155-240 | two different selector values never render the same block |
| ResponseAnalytics.InitialChart | src/pages/emergency-response-coordination-dashboard/components/ResponseAnalytics.jsx:6 | the panel opens on the response-time chart |
| HistoricalTrends.MetricUnit | src/pages/traffic-analytics-and-performance-dashboard/components/HistoricalTrends.jsx:29-37 | the four metrics get their units; the empty unit exactly for any other key |
| HistoricalTrends.EveryMetricHasUnit | src/pages/traffic-analytics-and-performance-dashboard/components/HistoricalTrends.jsx:6-37 | every metric of the selector has a non-empty unit |
| HistoricalTrends.SelectedMetricData | src/pages/traffic-analytics-and-performance-dashboard/components/HistoricalTrends.jsx:39 | the selected metric's record is found exactly when some metric has that value, and it is that metric |
| HistoricalTrends.FoundIffHasUnit | src/pages/traffic-analytics-and-performance-dashboard/components/HistoricalTrends.jsx:6-39 | a selection is found among the metrics exactly when it has a unit |
| HistoricalTrends.Cards | src/pages/traffic-analytics-and-performance-dashboard/components/HistoricalTrends.jsx:124-151 | one card per metric in order, highlighted and captioned 'Currently selected' exactly when it is the selection |
| HistoricalTrends.ClickSelectsOnlyThatCard | src/pages/traffic-analytics-and-performance-dashboard/components/HistoricalTrends.jsx:128-131 | after a click on a card, that card and no other is highlighted |
| HistoricalTrends.SeriesKeys | src/pages/traffic-analytics-and-performance-dashboard/components/HistoricalTrends.jsx:99-111 | the chart plots the selected metric, and its forecast key second exactly when the forecast is on |
| HistoricalTrends.InitialSeries | src/pages/traffic-analytics-and-performance-dashboard/index.jsx:17-18 | with the initial volume metric and the forecast off, only the volume series is plotted |
| HistoricalTrends.TooltipUnit | src/pages/traffic-analytics-and-performance-dashboard/components/HistoricalTrends.jsx:20 | as written, the tooltip unit of a series is looked up with its raw data key: the table's unit for a metric name, nothing for any other key |
| HistoricalTrends.ForecastTooltipLosesUnit | src/pages/traffic-analytics-and-performance-dashboard/components/HistoricalTrends.jsx:20 | as written, for every metric the historical value shows its unit and the forecast value shows none |
| HistoricalTrends.BaseMetric | src/pages/traffic-analytics-and-performance-dashboard/components/HistoricalTrends.jsx:111 | a data key is its metric, or its metric followed by 'Forecast', and that metric is the unique such prefix |
| HistoricalTrends.TooltipUnitCorrected | src/pages/traffic-analytics-and-performance-dashboard/components/HistoricalTrends.jsx:20 | corrected: a key ending in 'Forecast' gets the unit of the metric it forecasts |
| HistoricalTrends.CorrectedForecastKeepsUnit | src/pages/traffic-analytics-and-performance-dashboard/components/HistoricalTrends.jsx:99-111 | corrected: both series of every metric carry the same non-empty unit, the one the historical series already had |
| ComparativeAnalysis.HighlightedButtons | src/pages/traffic-analytics-and-performance-dashboard/components/ComparativeAnalysis.jsx:33-44 | each mode button is highlighted exactly when the current mode is its value |
| ComparativeAnalysis.ClickHighlightsOnlyThatButton | src/pages/traffic-analytics-and-performance-dashboard/components/ComparativeAnalysis.jsx:33-44 | after a click on a mode button, that button and no other is highlighted |
| ComparativeAnalysis.TooltipUnit | src/pages/traffic-analytics-and-performance-dashboard/components/ComparativeAnalysis.jsx:13 | as written, '%' exactly for a present key containing lower-case 'efficiency', ' vehicles' for every other key, including a missing one |
| ComparativeAnalysis.EfficiencyTooltipSaysVehicles | src/pages/traffic-analytics-and-performance-dashboard/components/ComparativeAnalysis.jsx:110-116 | as written, both efficiency series are labelled ' vehicles' |
| ComparativeAnalysis.TooltipUnitCorrected | src/pages/traffic-analytics-and-performance-dashboard/components/ComparativeAnalysis.jsx:13 | corrected: '%' exactly for a present key mentioning efficiency in either capitalisation, ' vehicles' otherwise |
| ComparativeAnalysis.CorrectedEfficiencyIsPercent | src/pages/traffic-analytics-and-performance-dashboard/components/ComparativeAnalysis.jsx:110-116 | corrected: both efficiency series read as percentages |
| ComparativeAnalysis.CorrectedVolumeIsVehicles | src/pages/traffic-analytics-and-performance-dashboard/components/ComparativeAnalysis.jsx:73-79 | corrected: both volume series still read as vehicles |
| ComparativeAnalysis.VolumeKeyUnit | src/pages/traffic-analytics-and-performance-dashboard/components/ComparativeAnalysis.jsx:13 | corrected: a key in which no 'e' or 'E' is followed by 'f' reads as vehicles |
| ComparativeAnalysis.CorrectionOnlyAddsCapitalized | src/pages/traffic-analytics-and-performance-dashboard/components/ComparativeAnalysis.jsx:13 | the correction keeps every '%' the written test gives, and differs from it only on keys with 'Efficiency' but no 'efficiency' |
| ComparativeAnalysis.Badge | src/pages/traffic-analytics-and-performance-dashboard/components/ComparativeAnalysis.jsx:133-136 | a change gets a '+' and the green tone exactly when it is positive; otherwise no sign and red |
| ComparativeAnalysis.SignAndColorAgree | src/pages/traffic-analytics-and-performance-dashboard/components/ComparativeAnalysis.jsx:133-144 | the sign and the colour always agree, and a zero change is red and unsigned |
| ComparativeAnalysis.Cards | src/pages/traffic-analytics-and-performance-dashboard/components/ComparativeAnalysis.jsx:127-144 | cards for the first three segments only, in order, each with the badges of its two changes |
| ComparativeAnalysis.LaterSegmentsIgnored | src/pages/traffic-analytics-and-performance-dashboard/components/ComparativeAnalysis.jsx:127 | segments after the third never change the cards |
| CostTrackingSection.RenderActiveChart | src/pages/infrastructure-asset-management-dashboard/components/CostTrackingSection.jsx:127-138 | each chart id draws its own chart; any other id falls back to the budget chart, which is drawn exactly then or for 'budget' |
| CostTrackingSection.EveryChartReachable | src/pages/infrastructure-asset-management-dashboard/components/CostTrackingSection.jsx:8-138 | every chart has an id that draws it, and the section opens on the budget chart |
| CostTrackingSection.CellColor | src/pages/infrastructure-asset-management-dashboard/components/CostTrackingSection.jsx:119 | every pie cell gets a palette colour, and the first five cells get the palette in order |
| CostTrackingSection.CellColorsCycle | src/pages/infrastructure-asset-management-dashboard/components/CostTrackingSection.jsx:22-119 | the fill repeats every five cells and neighbouring cells never share a colour |
| CostTrackingSection.RemainingIsSumOfSavings | src/pages/infrastructure-asset-management-dashboard/components/CostTrackingSection.jsx:251-255 | the remaining figure, total budget less total spent, equals the sum of the months' own savings |
| CostTrackingSection.TotalBudgeted | src/pages/infrastructure-asset-management-dashboard/components/CostTrackingSection.jsx:241 | with non-negative budgets the total is non-negative and no single month exceeds it |
| CostTrackingSection.TotalSpent | src/pages/infrastructure-asset-management-dashboard/components/CostTrackingSection.jsx:247 | with non-negative spending the total is non-negative and no single month exceeds it |
| CostTrackingSection.Remaining | src/pages/infrastructure-asset-management-dashboard/components/CostTrackingSection.jsx:251-255 | the remaining figure equals the months' savings added up |
| CostTrackingSection.TotalsSplitFirst | src/pages/infrastructure-asset-management-dashboard/components/CostTrackingSection.jsx:241-247 | both reduce totals equal the first month's amount plus the total of the rest |
| CostTrackingSection.UnderBudgetMonthsKeepRemainingNonNegative | src/pages/infrastructure-asset-management-dashboard/components/CostTrackingSection.jsx:251-255 | when no month is over budget the remaining figure is not negative |
| CostTrackingSection.PageRemaining | src/pages/infrastructure-asset-management-dashboard/index.jsx:286-293 | on the page's budget series $30,000 remain although two months ran over budget |
| CostTrackingSection.TopRoiProjects | src/pages/infrastructure-asset-management-dashboard/components/CostTrackingSection.jsx:274 | the "Top ROI Projects" list is the first three entries as given, or all of them when fewer |
| CostTrackingSection.TopRoiIsNotTheBest | src/pages/infrastructure-asset-management-dashboard/index.jsx:295-301 | on the page's ROI series the best project is left out of the top list while a worse one is shown |
| IncidentMap.SeverityColor | src/pages/emergency-response-coordination-dashboard/components/IncidentMap.jsx:47-54 | high, medium and low get their chips; the muted chip exactly for any other severity |
| IncidentMap.IncidentIcon | src/pages/emergency-response-coordination-dashboard/components/IncidentMap.jsx:56-63 | accident, roadwork and weather get their icons; AlertTriangle exactly for any other type |
| IncidentMap.UnitIcon | src/pages/emergency-response-coordination-dashboard/components/IncidentMap.jsx:65-72 | police, fire and medical get their icons; Truck exactly for any other type |
| IncidentMap.UnitColor | src/pages/emergency-response-coordination-dashboard/components/IncidentMap.jsx:74-81 | available, en-route and on-scene get their tones; the muted tone exactly for any other status |
| IncidentMap.IncidentPosition | src/pages/emergency-response-coordination-dashboard/components/IncidentMap.jsx:137-140 | incident marker i sits at (20 + 25i, 30 + 15i) percent, so each later one is strictly right of and below every earlier one |
| IncidentMap.UnitPosition | src/pages/emergency-response-coordination-dashboard/components/IncidentMap.jsx:170-173 | unit marker i sits at (25 + 20i, 40 + 10i) percent, so each later one is strictly right of and below every earlier one |
| IncidentMap.Overlay | src/pages/emergency-response-coordination-dashboard/components/IncidentMap.jsx:133-166 | the incidents view draws one marker per incident in order, the units view one per unit, and any other view, 'traffic' included, draws none |
| IncidentMap.OneKindAtATime | src/pages/emergency-response-coordination-dashboard/components/IncidentMap.jsx:133-166 | incident and unit markers never share the map |
| IncidentMap.ClickIncident | src/pages/emergency-response-coordination-dashboard/components/IncidentMap.jsx:142-147 | clicking a marker opens that incident's popup |
| IncidentMap.PopupOpen | src/pages/emergency-response-coordination-dashboard/components/IncidentMap.jsx:147 | `selectedIncident?.id === incident?.id`: with a selection, open exactly for incidents sharing its id; with none, exactly for incidents without an id |
| IncidentMap.PopupTargets | src/pages/emergency-response-coordination-dashboard/components/IncidentMap.jsx:147 | with a selection, popups open exactly on incidents sharing its id; with none, exactly on incidents without an id |
| IncidentMap.NoPopupInitially | src/pages/emergency-response-coordination-dashboard/components/IncidentMap.jsx:5-40 | with the shipped incidents, which all have ids, no popup is open at first |
| CommandPanel.CurrentIncident | src/pages/emergency-response-coordination-dashboard/components/CommandPanel.jsx:35 | the current record exists exactly for an id in the detail table, and it is the record of that id |
| CommandPanel.DanglingOptions | src/pages/emergency-response-coordination-dashboard/components/CommandPanel.jsx:8-81 | INC-001 has a record while INC-002 and INC-003, offered by the selector, have none |
| CommandPanel.StatusColor | src/pages/emergency-response-coordination-dashboard/components/CommandPanel.jsx:37-45 | on-scene, en-route, dispatched and available get their tones; the muted tone exactly for any other status |
| CommandPanel.StatusIcon | src/pages/emergency-response-coordination-dashboard/components/CommandPanel.jsx:47-55 | the four statuses get their icons; Clock exactly for any other |
| CommandPanel.StatusIconAgreesWithResourceCards | src/pages/emergency-response-coordination-dashboard/components/CommandPanel.jsx:47-55 | the panel and the resource allocation cards give every status the same icon |
| CommandPanel.SeverityColor | src/pages/emergency-response-coordination-dashboard/components/CommandPanel.jsx:57-64 | high, medium and low get their chips; the muted chip exactly for any other severity |
| CommandPanel.TabLabel | src/pages/emergency-response-coordination-dashboard/components/CommandPanel.jsx:96 | 'comms' is captioned 'Communications', every other tab by its id |
| CommandPanel.TabLabelsDistinct | src/pages/emergency-response-coordination-dashboard/components/CommandPanel.jsx:87-96 | the four tab buttons carry four different captions |
| CommandPanel.UnitRows | src/pages/emergency-response-coordination-dashboard/components/CommandPanel.jsx:146-175 | one row per assigned unit, in order, toned and iconed by the unit's status |
| CommandPanel.ListTab | src/pages/emergency-response-coordination-dashboard/components/CommandPanel.jsx:146-205 | the units, timeline and comms tabs guard every access and show an empty list when there is no record |
| CommandPanel.RenderAsWritten | src/pages/emergency-response-coordination-dashboard/components/CommandPanel.jsx:102-205 | as written, a render throws exactly when the details tab is open on an incident without a record |
| CommandPanel.DetailsTabThrowsForInc002 | src/pages/emergency-response-coordination-dashboard/components/CommandPanel.jsx:125 | as written, choosing INC-002 with the details tab open, as it is initially, throws |
| CommandPanel.Render | src/pages/emergency-response-coordination-dashboard/components/CommandPanel.jsx:102-205 | corrected: the details tab always shows a details view; without a record the id and status are empty, the chip is muted and the date passed to `new Date` is undefined (it reads "Invalid Date"); the other tabs are unchanged |
| CommandPanel.RenderAgreesWhereAsWrittenWorks | src/pages/emergency-response-coordination-dashboard/components/CommandPanel.jsx:102-205 | the corrected render agrees with the written one wherever that one does not throw, in particular on every incident with a record |
| CommandPanel.DetailsOfDanglingOption | src/pages/emergency-response-coordination-dashboard/components/CommandPanel.jsx:81-131 | corrected: INC-003 on the details tab shows no record values: empty id and status, the muted chip, and an undefined date that reads "Invalid Date" |
| ResourceAllocation.FilteredResources | src/pages/emergency-response-coordination-dashboard/components/ResourceAllocation.jsx:87-89 | 'all' keeps the list as it is; any other type keeps, in order, exactly the units of that type, as many as there are |
| ResourceAllocation.StatOf | src/pages/emergency-response-coordination-dashboard/components/ResourceAllocation.jsx:92-96 | a type's total counts its units in the whole list and its available count the available ones among them, never more than the total |
| ResourceAllocation.StatsFor | src/pages/emergency-response-coordination-dashboard/components/ResourceAllocation.jsx:92-97 | one statistics entry per given type, in order |
| ResourceAllocation.ResourceStats | src/pages/emergency-response-coordination-dashboard/components/ResourceAllocation.jsx:91-99 | one entry per declared type in declared order, counted over the whole list, whatever filter is chosen |
| ResourceAllocation.SumOverTypes | src/pages/emergency-response-coordination-dashboard/components/ResourceAllocation.jsx:91-99 | over distinct type ids the per-type totals add up to the units of those types, and the available counts to the available ones |
| ResourceAllocation.StatsCoverListedTypes | src/pages/emergency-response-coordination-dashboard/components/ResourceAllocation.jsx:91-99 | the statistics add up to the units, and the available units, whose type is a declared one |
| ResourceAllocation.StatusColor | src/pages/emergency-response-coordination-dashboard/components/ResourceAllocation.jsx:67-75 | available, dispatched, en-route and on-scene get their chips; the muted chip exactly for any other status |
| ResourceAllocation.StatusIcon | src/pages/emergency-response-coordination-dashboard/components/ResourceAllocation.jsx:77-85 | the four statuses get their icons; Clock exactly for any other |
| ResourceAllocation.TypeIcon | src/pages/emergency-response-coordination-dashboard/components/ResourceAllocation.jsx:143-149 | a unit of a declared type shows that type's icon; Truck exactly for a unit of an undeclared type |
| ResourceAllocation.IncidentLine | src/pages/emergency-response-coordination-dashboard/components/ResourceAllocation.jsx:166-169 | the incident line appears exactly for a present, non-empty incident id, and shows that id |
| ResourceAllocation.DispatchButtonsMatchStats | src/pages/emergency-response-coordination-dashboard/components/ResourceAllocation.jsx:184-187 | when every unit has a declared type, the Dispatch buttons of the 'all' view are as many as the available counts add up to |
| AssetDashboard.PredictedFailures | src/pages/infrastructure-asset-management-dashboard/index.jsx:340 | the predicted failures never exceed the assets, and are zero exactly when no score is below the threshold |
| AssetDashboard.ComputeKpis | src/pages/infrastructure-asset-management-dashboard/index.jsx:337-340 | the total is the number of assets, the backlog counts the overdue and scheduled tasks, and the predicted failures never exceed the total |
| AssetDashboard.BacklogIsOverduePlusScheduled | src/pages/infrastructure-asset-management-dashboard/index.jsx:338 | the backlog equals the overdue tab's count plus the scheduled tab's count of the maintenance queue |
| AssetDashboard.PredictedFailuresMonotone | src/pages/infrastructure-asset-management-dashboard/index.jsx:340 | raising the threshold never lowers the predicted failures |
| AssetDashboard.PredictedFailuresExtremes | src/pages/infrastructure-asset-management-dashboard/index.jsx:340 | for scores in 0..100, threshold 0 predicts no failure and a threshold above 100 predicts every asset |
| AssetDashboard.InitialPredictedFailures | src/pages/infrastructure-asset-management-dashboard/index.jsx:16-103 | the page's eight assets at the initial threshold 60 give two predicted failures |
| AssetDashboard.ThresholdFromSlider | src/pages/infrastructure-asset-management-dashboard/index.jsx:418-421 | parsing the decimal text of a slider position gives that position back, inside the slider's 0..100 range |
| AssetConditionMatrix.ConditionColor | src/pages/infrastructure-asset-management-dashboard/components/AssetConditionMatrix.jsx:25-30 | four bands: 80 and up, 60..79, 40..59, below 40, each score in exactly one |
| AssetConditionMatrix.ConditionColorMonotone | src/pages/infrastructure-asset-management-dashboard/components/AssetConditionMatrix.jsx:25-30 | a higher score never lands in a worse band |
| AssetConditionMatrix.Cells | src/pages/infrastructure-asset-management-dashboard/components/AssetConditionMatrix.jsx:127-133 | one cell per monthly score of each asset, in its score's band |
| AssetConditionMatrix.PredictiveRecommendation | src/pages/infrastructure-asset-management-dashboard/components/AssetConditionMatrix.jsx:37-57 | declining asks for preventive maintenance, critical for immediate attention, and exactly every other trend is reported stable |
| AssetConditionMatrix.Recommendations | src/pages/infrastructure-asset-management-dashboard/components/AssetConditionMatrix.jsx:183 | recommendations for the first three assets only, in input order |
| AssetMap.ConditionColor | src/pages/infrastructure-asset-management-dashboard/components/AssetMap.jsx:19-23 | three bands: 80 and up, 60..79, below 60, each exactly |
| AssetMap.AgreesWithMatrixFrom40 | src/pages/infrastructure-asset-management-dashboard/components/AssetMap.jsx:19-23 | the map and the matrix colour a score alike exactly when it is at least 40 |
| AssetMap.Markers | src/pages/infrastructure-asset-management-dashboard/components/AssetMap.jsx:74-81 | at most eight markers, for the first assets in order; marker i sits at left 20 + 20·(i mod 4) and top 30 + 30·(i div 4), inside the 4-by-2 grid |
| AssetMap.MarkersDistinct | src/pages/infrastructure-asset-management-dashboard/components/AssetMap.jsx:74-80 | no two markers share a position |
| AssetMap.ClickAsset | src/pages/infrastructure-asset-management-dashboard/components/AssetMap.jsx:14-17 | a click shows the clicked asset and hands the same asset to the page |
| AssetMap.CloseInfo | src/pages/infrastructure-asset-management-dashboard/components/AssetMap.jsx:126 | the close button empties the panel |
| MaintenancePriorityQueue.Tabs | src/pages/infrastructure-asset-management-dashboard/components/MaintenancePriorityQueue.jsx:9-14 | four tabs in order; 'all' counts every task and each status tab counts the tasks with its status, over the whole list |
| MaintenancePriorityQueue.FilteredTasks | src/pages/infrastructure-asset-management-dashboard/components/MaintenancePriorityQueue.jsx:16-18 | 'all' shows the list as it is; any other filter shows, in order, exactly the tasks with that status |
| MaintenancePriorityQueue.TabCountMatchesList | src/pages/infrastructure-asset-management-dashboard/components/MaintenancePriorityQueue.jsx:9-18 | every tab's number is the length of the list it shows |
| MaintenancePriorityQueue.StatusTabsWithinAll | src/pages/infrastructure-asset-management-dashboard/components/MaintenancePriorityQueue.jsx:9-14 | the three status tabs together never count more than the 'all' tab |
| MaintenancePriorityQueue.EmptyStateIffNoMatch | src/pages/infrastructure-asset-management-dashboard/components/MaintenancePriorityQueue.jsx:101-104 | the empty state appears exactly when no task has the selected status, or under 'all' when there are no tasks |
| MaintenancePriorityQueue.PriorityColor | src/pages/infrastructure-asset-management-dashboard/components/MaintenancePriorityQueue.jsx:20-28 | the four priorities get their tones; the muted tone exactly for any other |
| MaintenancePriorityQueue.PriorityIcon | src/pages/infrastructure-asset-management-dashboard/components/MaintenancePriorityQueue.jsx:30-38 | the four priorities get their icons; Circle exactly for any other |
| MaintenancePriorityQueue.StatusBadge | src/pages/infrastructure-asset-management-dashboard/components/MaintenancePriorityQueue.jsx:40-54 | a known status gets its badge; every other status is shown as Scheduled, and the Scheduled text appears exactly then or for 'scheduled' |
| MaintenancePriorityQueue.ToggleExpand | src/pages/infrastructure-asset-management-dashboard/components/MaintenancePriorityQueue.jsx:167 | clicking the expanded task collapses it; clicking any other expands that one alone |
| MaintenancePriorityQueue.ChevronFollowsExpand | src/pages/infrastructure-asset-management-dashboard/components/MaintenancePriorityQueue.jsx:140-168 | a click flips the chevron of the clicked task and leaves every other task collapsed |
| NetworkHeatMap.ToggleLayer | src/pages/real-time-network-operations-dashboard/components/NetworkHeatMap.jsx:24-30 | an active layer is removed, every occurrence of it, with the rest kept in order; an inactive one is appended at the end |
| NetworkHeatMap.LegendEntry | src/pages/real-time-network-operations-dashboard/components/NetworkHeatMap.jsx:108 | a legend entry is the option with that id, and missing exactly when no option has it |
| NetworkHeatMap.Legend | src/pages/real-time-network-operations-dashboard/components/NetworkHeatMap.jsx:107-108 | one legend entry per active layer, in the order the layers were turned on |
| NetworkHeatMap.InitialLegend | src/pages/real-time-network-operations-dashboard/components/NetworkHeatMap.jsx:6-16 | the map opens with a legend of traffic then incidents |
| NetworkHeatMap.LegendFollowsToggle | src/pages/real-time-network-operations-dashboard/components/NetworkHeatMap.jsx:24-108 | turning a layer on adds its entry at the end of the legend; turning it off removes every entry of it |
| FilterControls.HandleSegmentToggle | src/pages/traffic-analytics-and-performance-dashboard/components/FilterControls.jsx:37-42 | the toggled segment's membership flips, every other segment keeps its own, and a new segment is appended at the end |
| FilterControls.SelectAll | src/pages/traffic-analytics-and-performance-dashboard/components/FilterControls.jsx:138 | Select All chooses the six declared segments, once each, in declared order |
| FilterControls.ClearAll | src/pages/traffic-analytics-and-performance-dashboard/components/FilterControls.jsx:145 | Clear All leaves no segment selected |
| FilterControls.ToggleAfterBulkActions | src/pages/traffic-analytics-and-performance-dashboard/components/FilterControls.jsx:37-145 | after Select All a toggle leaves five segments; after Clear All it selects just the toggled one |
| FilterControls.InitialSelectionDeclared | src/pages/traffic-analytics-and-performance-dashboard/index.jsx:13 | the initial selection names three distinct declared segments |
| LiveAlertFeed.FilteredAlerts | src/pages/real-time-network-operations-dashboard/components/LiveAlertFeed.jsx:118-120 | 'all' keeps every alert; any other filter keeps, in order, exactly the alerts of that severity |
| LiveAlertFeed.EmptyStateIffNoMatch | src/pages/real-time-network-operations-dashboard/components/LiveAlertFeed.jsx:159-162 | the empty state appears exactly when no alert has the chosen severity, or under 'all' when there are no alerts |
| LiveAlertFeed.Footer | src/pages/real-time-network-operations-dashboard/components/LiveAlertFeed.jsx:235 | "Showing N of M": M is every alert; N is the number of alerts of the chosen severity, or M under 'all', so never more than M |
| LiveAlertFeed.FormatTimeAgo | src/pages/real-time-network-operations-dashboard/components/LiveAlertFeed.jsx:122-128 | "Just now" exactly under a minute (and for future instants), whole minutes under an hour, whole hours after that |
| LiveAlertFeed.MinutesThenHours | src/pages/real-time-network-operations-dashboard/components/LiveAlertFeed.jsx:123-126 | flooring to minutes and then to hours is flooring straight to hours |
| LiveAlertFeed.TimeAgoReadsBack | src/pages/real-time-network-operations-dashboard/components/LiveAlertFeed.jsx:122-128 | the digits in front of the unit are a decimal numeral of the whole minutes or hours elapsed |
| LiveAlertFeed.SeverityColor | src/pages/real-time-network-operations-dashboard/components/LiveAlertFeed.jsx:77-85 | the four severities get their tones; the muted tone exactly for any other |
| LiveAlertFeed.SeverityBg | src/pages/real-time-network-operations-dashboard/components/LiveAlertFeed.jsx:87-95 | the four severities get their backgrounds; the muted one exactly for any other |
| LiveAlertFeed.FilterButtonsStyled | src/pages/real-time-network-operations-dashboard/components/LiveAlertFeed.jsx:144 | every filter button other than 'all' names a severity both styling tables know |
| LiveAlertFeed.TypeIcon | src/pages/real-time-network-operations-dashboard/components/LiveAlertFeed.jsx:97-106 | the five alert types get their icons; AlertTriangle exactly for any other |
| LiveAlertFeed.StatusIcon | src/pages/real-time-network-operations-dashboard/components/LiveAlertFeed.jsx:108-116 | the four statuses get their icons; Info exactly for any other |
| CommunicationCenter.Initial | src/pages/emergency-response-coordination-dashboard/components/CommunicationCenter.jsx:5-7 | the panel opens on the dispatch channel with an empty input |
| CommunicationCenter.Visible | src/pages/emergency-response-coordination-dashboard/components/CommunicationCenter.jsx:94 | the view shows, in order, exactly the messages of the active channel |
| CommunicationCenter.SendMessage | src/pages/emergency-response-coordination-dashboard/components/CommunicationCenter.jsx:96-110 | a blank input changes nothing; otherwise one message with the next id, the active channel and the untrimmed text is appended after the old ones and the input is cleared |
| CommunicationCenter.Outgoing | src/pages/emergency-response-coordination-dashboard/components/CommunicationCenter.jsx:99-107 | the new message takes id length + 1, the active channel, the typed text, the send instant, 'normal' priority and type 'broadcast'; with sequential ids its id is new |
| CommunicationCenter.SendDisabled | src/pages/emergency-response-coordination-dashboard/components/CommunicationCenter.jsx:229 | `!newMessage.trim()`: the button is disabled exactly when the input is empty or only whitespace |
| CommunicationCenter.SendDisabledIffNoOp | src/pages/emergency-response-coordination-dashboard/components/CommunicationCenter.jsx:229 | the send button is disabled exactly when sending would change nothing |
| CommunicationCenter.SendKeepsSequentialIds | src/pages/emergency-response-coordination-dashboard/components/CommunicationCenter.jsx:99 | if the ids are 1..n in order, sending keeps them so, and no two messages share an id |
| CommunicationCenter.SendShowsInActiveChannel | src/pages/emergency-response-coordination-dashboard/components/CommunicationCenter.jsx:94-107 | after a send the active channel's view gains the new message last and every other view is unchanged |
| CommunicationCenter.TimeAgo | src/pages/emergency-response-coordination-dashboard/components/CommunicationCenter.jsx:119-125 | "Just now" exactly under a minute, "1 min ago" exactly for one whole minute, otherwise the whole minutes |
| CommunicationCenter.TimeAgoReadsBack | src/pages/emergency-response-coordination-dashboard/components/CommunicationCenter.jsx:119-125 | the number in the label reads back as the whole minutes elapsed |
| CommunicationCenter.ChannelIcon | src/pages/emergency-response-coordination-dashboard/components/CommunicationCenter.jsx:69-72 | a known channel shows its icon and an unknown one the Radio icon, which is also dispatch's |
| CommunicationCenter.Footer | src/pages/emergency-response-coordination-dashboard/components/CommunicationCenter.jsx:239 | the footer counts the active channel's messages; it names the channel exactly when it is a known one, and then with that channel's name |
| CommunicationCenter.PriorityColor | src/pages/emergency-response-coordination-dashboard/components/CommunicationCenter.jsx:74-81 | the three priorities get their tones; an unknown priority looks like a normal one |
| CommunicationCenter.MessageTypeIcon | src/pages/emergency-response-coordination-dashboard/components/CommunicationCenter.jsx:83-92 | the five message types get their icons; an unknown type looks like a response |
| IncidentManagementTable.Filtered | src/pages/real-time-network-operations-dashboard/components/IncidentManagementTable.jsx:152-154 | 'all' keeps every incident; any other status keeps, in order, exactly the incidents with that status, as many as there are |
| IncidentManagementTable.Displayed | src/pages/real-time-network-operations-dashboard/components/IncidentManagementTable.jsx:156-170 | the shown rows are a reordering of the filtered ones in which no row is strictly preceded, in the chosen direction, by a later one |
| IncidentManagementTable.DisplayedContents | src/pages/real-time-network-operations-dashboard/components/IncidentManagementTable.jsx:152-170 | a row is shown exactly when it is an incident the status filter lets through |
| IncidentManagementTable.DisplayedStrict | src/pages/real-time-network-operations-dashboard/components/IncidentManagementTable.jsx:156-170 | with distinct keys in the sorted column the rows strictly increase ('asc') or strictly decrease ('desc') |
| IncidentManagementTable.TimestampComparedAsInstant | src/pages/real-time-network-operations-dashboard/components/IncidentManagementTable.jsx:160-169 | timestamps are compared as instants: the comparator answers 1 exactly when a belongs after b |
| IncidentManagementTable.SeverityAscendingIsLexical | src/pages/real-time-network-operations-dashboard/components/IncidentManagementTable.jsx:156-170 | severity sorts as text, not by urgency: ascending never puts 'low' after 'medium' nor 'critical' after 'high' |
| IncidentManagementTable.InitialViewNewestFirst | src/pages/real-time-network-operations-dashboard/components/IncidentManagementTable.jsx:7-9 | on opening every incident is shown, newest first, for distinct instants |
| IncidentManagementTable.ClickHeader | src/pages/real-time-network-operations-dashboard/components/IncidentManagementTable.jsx:172-179 | clicking the sorted column flips its direction; clicking another column sorts by it descending |
| IncidentManagementTable.UrgentCount | src/pages/real-time-network-operations-dashboard/components/IncidentManagementTable.jsx:368-370 | the urgent count never exceeds the number of incidents |
| IncidentManagementTable.IsUrgent | src/pages/real-time-network-operations-dashboard/components/IncidentManagementTable.jsx:370 | an incident is urgent exactly when its priority is 1 or 2 and it is not resolved |
| IncidentManagementTable.UrgentCountIgnoresFilter | src/pages/real-time-network-operations-dashboard/components/IncidentManagementTable.jsx:365-370 | the urgent rows among those shown never exceed the footer's count, which is taken over the whole list, and under 'resolved' there are none |
| IncidentManagementTable.ResolvedNeverUrgent | src/pages/real-time-network-operations-dashboard/components/IncidentManagementTable.jsx:370 | a list of resolved incidents has no urgent one |
| IncidentManagementTable.Footer | src/pages/real-time-network-operations-dashboard/components/IncidentManagementTable.jsx:365 | "Showing N of M": M is every incident; N is the number of incidents with the chosen status, or M under 'all', so never more than M |
| IncidentManagementTable.SeverityColor | src/pages/real-time-network-operations-dashboard/components/IncidentManagementTable.jsx:99-107 | the four severities get their tones; any other gets the muted tone |
| IncidentManagementTable.SeverityBg | src/pages/real-time-network-operations-dashboard/components/IncidentManagementTable.jsx:109-117 | the four severities get their backgrounds; any other gets bg-muted/10 |
| IncidentManagementTable.SeverityToneAgrees | src/pages/real-time-network-operations-dashboard/components/IncidentManagementTable.jsx:99-117 | both tables know the same severities and each background is its text colour at one tenth |
| IncidentManagementTable.StatusColor | src/pages/real-time-network-operations-dashboard/components/IncidentManagementTable.jsx:119-128 | the five statuses get their tones; any other gets the muted tone |
| IncidentManagementTable.StatusOptionsColored | src/pages/real-time-network-operations-dashboard/components/IncidentManagementTable.jsx:90-128 | every status the filter offers has a colour of its own, none of them muted |
| IncidentManagementTable.TypeIcon | src/pages/real-time-network-operations-dashboard/components/IncidentManagementTable.jsx:130-139 | the five types get their icons; AlertTriangle exactly for any other |
| IncidentManagementTable.TrafficImpactColor | src/pages/real-time-network-operations-dashboard/components/IncidentManagementTable.jsx:141-150 | the five impacts get their tones; the muted tone exactly for 'Minimal' or an unknown impact |
| IncidentTable.Shown | src/pages/emergency-response-coordination-dashboard/components/IncidentTable.jsx:107-121 | the shown rows are a reordering of the kept ones in which no row is strictly preceded, in the chosen direction, by a later one |
| IncidentTable.KeptIncidents | src/pages/emergency-response-coordination-dashboard/components/IncidentTable.jsx:107 | an incident is kept exactly when the filter is 'all' or names its status, kept incidents keep their order, and 'all' drops nothing |
| IncidentTable.Keep | src/pages/emergency-response-coordination-dashboard/components/IncidentTable.jsx:107 | under 'all' every incident passes; under any other filter exactly those with that status |
| IncidentTable.KeepAllCount | src/pages/emergency-response-coordination-dashboard/components/IncidentTable.jsx:107 | under 'all' every incident passes the filter |
| IncidentTable.ShownStrict | src/pages/emergency-response-coordination-dashboard/components/IncidentTable.jsx:107-121 | with distinct keys in the sorted column the rows strictly increase ('asc') or strictly decrease ('desc') |
| IncidentTable.ReportedAtAscendingIsChronological | src/pages/emergency-response-coordination-dashboard/components/IncidentTable.jsx:111-118 | report times sort as instants: ascending is earliest first |
| IncidentTable.InitialViewLargestPriorityFirst | src/pages/emergency-response-coordination-dashboard/components/IncidentTable.jsx:5-7 | on opening every incident is shown with the largest priority number, the least urgent, first |
| IncidentTable.ClickHeader | src/pages/emergency-response-coordination-dashboard/components/IncidentTable.jsx:98-105 | clicking the sorted column flips its direction; clicking another column sorts by it descending |
| IncidentTable.Footer | src/pages/emergency-response-coordination-dashboard/components/IncidentTable.jsx:278 | "Showing N of M": M is every incident; N is the number of incidents the status filter keeps, M under 'all', so never more than M |
| IncidentTable.PriorityIcon | src/pages/emergency-response-coordination-dashboard/components/IncidentTable.jsx:92-96 | the warning icon exactly for priority up to 2, the alert icon exactly for 3..4, information exactly above 4 |
| IncidentTable.PriorityIconMonotone | src/pages/emergency-response-coordination-dashboard/components/IncidentTable.jsx:92-96 | a larger priority number never gets a louder icon |
| IncidentTable.StatusColor | src/pages/emergency-response-coordination-dashboard/components/IncidentTable.jsx:72-81 | the five statuses get their chips; the muted chip exactly for any other |
| IncidentTable.SeverityColor | src/pages/emergency-response-coordination-dashboard/components/IncidentTable.jsx:83-90 | high, medium and low get their tones; the muted tone exactly for any other |
| ListPipeline.Filter | src/pages/infrastructure-asset-management-dashboard/components/MaintenancePriorityQueue.jsx:18 | `Array.prototype.filter`: exactly the elements satisfying the predicate, in their original order |
| ListPipeline.Select | src/pages/emergency-response-coordination-dashboard/components/ResourceAllocation.jsx:87-89 | the `x === 'all' ? list : list.filter(...)` idiom: 'all' keeps the list, any other choice keeps exactly the matching elements in order |
| ListPipeline.SelectIdempotent | src/pages/infrastructure-asset-management-dashboard/components/MaintenancePriorityQueue.jsx:16-18 | filtering an already filtered list by the same choice changes nothing |
| ListPipeline.Find | src/pages/real-time-network-operations-dashboard/components/NetworkHeatMap.jsx:108 | `Array.prototype.find`: missing exactly when no element matches, otherwise the first matching element |
| ListPipeline.Take | src/pages/traffic-analytics-and-performance-dashboard/components/ComparativeAnalysis.jsx:127 | `slice(0, n)`: the first n elements, or all of them when there are fewer |
| ListPipeline.Compare | src/pages/real-time-network-operations-dashboard/components/IncidentManagementTable.jsx:165-169 | the comparator answers 1 exactly when b must come strictly before a in the chosen direction, and -1 otherwise, never 0 |
| ListPipeline.SortBy | src/pages/real-time-network-operations-dashboard/components/IncidentManagementTable.jsx:156-170 | one engine's outcome of sorting with that comparator: a permutation in which no element is strictly preceded by a later one |
| ListPipeline.DistinctKeysSortStrict | src/pages/real-time-network-operations-dashboard/components/IncidentManagementTable.jsx:156-170 | with pairwise distinct keys every permitted sort outcome is strictly ordered |
| ListPipeline.HandleSort | src/pages/real-time-network-operations-dashboard/components/IncidentManagementTable.jsx:172-179 | clicking the active header flips its direction; another header becomes active, descending |
| ListPipeline.HandleSortInvolution | src/pages/emergency-response-coordination-dashboard/components/IncidentTable.jsx:98-105 | two clicks on the active header restore the sort state |
| ListPipeline.HandleSortNewFieldTwice | src/pages/emergency-response-coordination-dashboard/components/IncidentTable.jsx:98-105 | two clicks on a new header leave it active and ascending |
| Toggles.ToggleMember | src/pages/real-time-network-operations-dashboard/components/NetworkHeatMap.jsx:24-30 | the toggled id's membership flips, every other id keeps its own; a present id loses every occurrence, an absent one is appended |
| Toggles.ToggleLength | src/pages/traffic-analytics-and-performance-dashboard/components/FilterControls.jsx:37-42 | on a duplicate-free list a toggle changes the length by exactly one and keeps it duplicate-free |
| Toggles.ToggleTwice | src/pages/traffic-analytics-and-performance-dashboard/components/FilterControls.jsx:37-42 | toggling twice restores the members; an absent id leaves the list as it was, a present one moves to the end |
| Toggles.ToggleSelection | src/pages/infrastructure-asset-management-dashboard/components/MaintenancePriorityQueue.jsx:167 | clicking the open item closes it; clicking any other opens that one |
| Toggles.ToggleSelectionTwice | src/pages/infrastructure-asset-management-dashboard/components/MaintenanceGanttChart.jsx:138 | two clicks on the same item: from no selection or that item the state is restored; with another item open the result is no selection |
| Text.Contains | src/pages/real-time-network-operations-dashboard/components/NetworkKPICard.jsx:32-34 | `includes`: true exactly when the text occurs at some position, with case respected |
| Text.ReplaceFirst | src/pages/emergency-response-coordination-dashboard/components/RoadDetection.jsx:240 | `replace` with a one-character pattern: only the first occurrence changes, the length and every other character are kept |
| Text.TrimStart | src/pages/emergency-response-coordination-dashboard/components/CommunicationCenter.jsx:97 | the leading whitespace, and only it, is dropped |
| Text.TrimEnd | src/pages/emergency-response-coordination-dashboard/components/CommunicationCenter.jsx:97 | the trailing whitespace, and only it, is dropped |
| Text.TrimEmptyIffBlank | src/pages/emergency-response-coordination-dashboard/components/CommunicationCenter.jsx:97 | `trim()` is empty exactly when the text is only whitespace |
| Text.NatToString | src/pages/real-time-network-operations-dashboard/components/LiveAlertFeed.jsx:125 | a whole number renders as its shortest decimal digits |
| Text.ParseNatToString | src/pages/infrastructure-asset-management-dashboard/index.jsx:421 | parsing the decimal rendering of a number gives the number back |
| Text.NatToStringInjective | src/pages/real-time-network-operations-dashboard/components/LiveAlertFeed.jsx:125-127 | different numbers render differently |

## Left out

- Rendering: JSX layout, CSS classes other than the tone a lookup
  returns, Recharts charts, and the map iframes. The model keeps which
  block, row or marker appears, and with which lookup result.
- Timers and clocks: the `setInterval` scan simulation and its logging in
  the road detection panel, and the live clocks. The current time is a
  parameter of every "time ago" function.
- Date parsing: records carry the millisecond instant of their date text.
  `new Date(text)` itself is host behaviour.
- Locale formatting: `toLocaleString`, `toLocaleTimeString`,
  `toLocaleDateString` and currency formatting.
- Upper-casing and CSS `capitalize` of captions. Among them is the
  `.replace('-', ' ').toUpperCase()` status caption of the resource cards.
  There are no case-mapping tables in the model.
- Floating-point results are left out: budget utilization, average ROI,
  percent labels, and the cell opacity of the condition matrix. Changes
  and scores that are only compared stay as `real`s or integers.
- AssetConditionMatrix.Cells: states each cell's colour band, not its
  opacity, because the opacity is a floating-point ratio.
- Keys inherited from `Object.prototype` (`constructor`, `toString`, ...)
  in the object-literal lookups and `incidentDetails?.[id]`. The model
  treats the lookup tables as plain maps.
- Select boxes whose value only gets logged or stored, with no other
  effect on the logic:
  - the road detection mode;
  - the Gantt view mode;
  - the cost tracking period (its initial value is stated);
  - the time ranges;
  - the condition matrix timeframe and asset type.
- Sorting on a field that no column offers.
- String order: text keys are compared by Unicode scalar value, while
  JavaScript `<` compares UTF-16 code units. The two differ only for
  characters outside the Basic Multilingual Plane; every key in the data
  is ASCII.
- The text of a thrown TypeError: only the fact that the render throws
  is modelled.
- Fixture fields that are only displayed: titles, locations, crews,
  descriptions, coordinates. Constant statistic blocks that no logic
  reads are left out too.
- The JSON export download, routing, page composition, the network
  control bar, the traffic volume chart and the styling configuration.
  They are I/O or wiring with no logic of their own.
- The sort algorithm of the JavaScript engine. Sorting is stated as a
  relation that the outcome of any comparison sort acting on the
  comparator's answers satisfies, with no tie order.

## Findings

| source | as written | input that shows it | evidently intended | confidence | as-written member | corrected member |
|---|---|---|---|---|---|---|
| src/pages/emergency-response-coordination-dashboard/components/CommandPanel.jsx:125 | the details tab reads `currentIncident.reportedAt` without `?.`, while only INC-001 has a record (lines 8-35) and the selector offers INC-001, INC-002 and INC-003 (lines 79-81) | choose INC-002 while the details tab is open: the render throws a TypeError | guard it like the other fields (`currentIncident?.reportedAt`) so a missing record shows a details view with empty fields except Reported At, which reads 'Invalid Date' | not executed | CommandPanel.RenderAsWritten, CommandPanel.DetailsTabThrowsForInc002 | CommandPanel.Render, CommandPanel.RenderAgreesWhereAsWrittenWorks |
| src/pages/traffic-analytics-and-performance-dashboard/components/ComparativeAnalysis.jsx:13 | the tooltip writes '%' when the series key includes 'efficiency', case-sensitively, but the efficiency series are keyed 'currentEfficiency' and 'previousEfficiency' (lines 110, 116) | hover the efficiency chart: the values are labelled ' vehicles' | efficiency values read as percentages | not executed | ComparativeAnalysis.TooltipUnit, ComparativeAnalysis.EfficiencyTooltipSaysVehicles | ComparativeAnalysis.TooltipUnitCorrected, ComparativeAnalysis.CorrectedEfficiencyIsPercent |
| src/pages/traffic-analytics-and-performance-dashboard/components/HistoricalTrends.jsx:20 | the tooltip unit is `getMetricUnit(entry.dataKey)` (lines 29-37), but the forecast series is keyed `${selectedMetric}Forecast` (line 111), which no case of the switch matches | turn the forecast on for 'volume': the 'volumeForecast' value has no unit while the historical value says ' vehicles' | the forecast carries the unit of its metric | not executed | HistoricalTrends.TooltipUnit, HistoricalTrends.ForecastTooltipLosesUnit | HistoricalTrends.TooltipUnitCorrected, HistoricalTrends.CorrectedForecastKeepsUnit |
