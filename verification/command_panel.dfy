/** The command panel of the emergency page: an incident selector, four tabs,
    and the content of the active tab for the selected incident. The detail
    records hold only one of the three incidents the selector offers, and the
    details tab reads one field of the record without a null guard. */
module CommandPanel {
  import opened Wrappers
  import ResourceAllocation

  /** A unit assigned to an incident. Its type and arrival estimate are display-only. */
  datatype AssignedUnit = AssignedUnit(id: string, status: string)

  /** The detail record of an incident. `kind` is the source's `type`;
      `reportedAt` is the raw date text. */
  datatype IncidentDetail = IncidentDetail(
    id: string, kind: string, severity: string, reportedAt: string, status: string,
    assignedUnits: seq<AssignedUnit>, timeline: seq<string>, communications: seq<string>)

  /** `incidentDetails`: a record for INC-001 only. */
  const IncidentDetails: map<string, IncidentDetail> := map[
    "INC-001" := IncidentDetail(
      "INC-001", "Multi-Vehicle Accident", "high", "2025-09-01T16:08:30", "active",
      [AssignedUnit("POLICE-01", "on-scene"), AssignedUnit("FIRE-03", "en-route"), AssignedUnit("MED-07", "dispatched")],
      ["Incident reported via 911 call", "Police unit POLICE-01 dispatched", "Fire rescue FIRE-03 dispatched",
       "Police unit arrived on scene", "Traffic diversion activated"],
      ["Two vehicles involved, requesting tow trucks", "Tow trucks dispatched, ETA 10 minutes"])
  ]

  /** The selector's options, the tab ids, and what the panel opens with. */
  const IncidentOptions: seq<string> := ["INC-001", "INC-002", "INC-003"]
  const Tabs: seq<string> := ["details", "units", "timeline", "comms"]
  const InitialIncident: string := "INC-001"
  const InitialTab: string := "details"

  /** `incidentDetails?.[selectedIncident]`: the record, or `undefined`. */
  function CurrentIncident(selected: string): (r: Option<IncidentDetail>)
    ensures r.Some? <==> selected in IncidentDetails
    ensures r.Some? ==> r.value == IncidentDetails[selected] && r.value.id == selected
  {
    if selected in IncidentDetails then Some(IncidentDetails[selected]) else None
  }

  /** Two of the three options have no record behind them. */
  lemma DanglingOptions()
    ensures CurrentIncident(IncidentOptions[0]).Some?
    ensures CurrentIncident(IncidentOptions[1]).None? && CurrentIncident(IncidentOptions[2]).None?
  {
    assert IncidentOptions[1] != "INC-001" by { assert IncidentOptions[1][6] != "INC-001"[6]; }
    assert IncidentOptions[2] != "INC-001" by { assert IncidentOptions[2][6] != "INC-001"[6]; }
  }

  // ---------------------------------------------------------------------------
  // Lookups
  // ---------------------------------------------------------------------------

  const StatusColors: map<string, string> :=
    map["on-scene" := "text-error", "en-route" := "text-warning", "dispatched" := "text-primary",
        "available" := "text-success"]

  /** `getStatusColor`: the tone of a unit row. */
  function StatusColor(status: string): (c: string)
    ensures status in StatusColors ==> c == StatusColors[status]
    ensures status !in StatusColors <==> c == "text-muted-foreground"
  {
    if status == "on-scene" then "text-error"
    else if status == "en-route" then "text-warning"
    else if status == "dispatched" then "text-primary"
    else if status == "available" then "text-success"
    else "text-muted-foreground"
  }

  const StatusIcons: map<string, string> :=
    map["on-scene" := "MapPin", "en-route" := "Navigation", "dispatched" := "Send", "available" := "CheckCircle"]

  /** `getStatusIcon`: the icon of a unit row. */
  function StatusIcon(status: string): (icon: string)
    ensures status in StatusIcons ==> icon == StatusIcons[status]
    ensures status !in StatusIcons <==> icon == "Clock"
  {
    if status == "on-scene" then "MapPin"
    else if status == "en-route" then "Navigation"
    else if status == "dispatched" then "Send"
    else if status == "available" then "CheckCircle"
    else "Clock"
  }

  /** The panel and the resource allocation cards show a unit status with
      the same icon, for every status. */
  lemma StatusIconAgreesWithResourceCards(status: string)
    ensures StatusIcon(status) == ResourceAllocation.StatusIcon(status)
  {
  }

  const SeverityColors: map<string, string> :=
    map["high" := "bg-error text-error-foreground", "medium" := "bg-warning text-warning-foreground",
        "low" := "bg-success text-success-foreground"]

  /** `getSeverityColor`: the severity chip of the details tab. */
  function SeverityColor(severity: string): (c: string)
    ensures severity in SeverityColors ==> c == SeverityColors[severity]
    ensures severity !in SeverityColors <==> c == "bg-muted text-muted-foreground"
  {
    if severity == "high" then "bg-error text-error-foreground"
    else if severity == "medium" then "bg-warning text-warning-foreground"
    else if severity == "low" then "bg-success text-success-foreground"
    else "bg-muted text-muted-foreground"
  }

  /** The caption of a tab button: 'comms' is spelled out, the others show their id. */
  function TabLabel(tab: string): (caption: string)
    ensures tab == "comms" ==> caption == "Communications"
    ensures tab != "comms" ==> caption == tab
  {
    if tab == "comms" then "Communications" else tab
  }

  /** The four tab buttons carry four different captions. */
  lemma TabLabelsDistinct()
    ensures forall i, j :: 0 <= i < j < |Tabs| ==> TabLabel(Tabs[i]) != TabLabel(Tabs[j])
  {
    assert TabLabel(Tabs[0])[0] == 'd' && TabLabel(Tabs[1])[0] == 'u';
    assert TabLabel(Tabs[2])[0] == 't' && TabLabel(Tabs[3])[0] == 'C';
  }

  // ---------------------------------------------------------------------------
  // Tab content
  // ---------------------------------------------------------------------------

  /** A row of the units tab: the unit, its tone and its icon. */
  datatype UnitRow = UnitRow(id: string, color: string, icon: string)

  /** What the active tab shows. Each field of the details view is `None`
      where the source evaluates to `undefined`. `reportedAt` is the raw date
      text handed to `new Date`: with `None` the panel reads "Invalid Date". */
  datatype View =
    | Details(id: Option<string>, severityColor: string, reportedAt: Option<string>, status: Option<string>)
    | Units(rows: seq<UnitRow>)
    | Timeline(events: seq<string>)
    | Comms(messages: seq<string>)
    | Blank

  /** The thrown error of a render. */
  datatype RenderError = TypeError(message: string)

  /** The rows of the units tab for a record. */
  function UnitRows(d: IncidentDetail): (rows: seq<UnitRow>)
    ensures |rows| == |d.assignedUnits|
    ensures forall k :: 0 <= k < |rows| ==> rows[k].id == d.assignedUnits[k].id
    ensures forall k :: 0 <= k < |rows| ==>
              rows[k].color == StatusColor(d.assignedUnits[k].status) && rows[k].icon == StatusIcon(d.assignedUnits[k].status)
  {
    seq(|d.assignedUnits|, k requires 0 <= k < |d.assignedUnits| =>
      UnitRow(d.assignedUnits[k].id, StatusColor(d.assignedUnits[k].status), StatusIcon(d.assignedUnits[k].status)))
  }

  /** The units, timeline and communications tabs, which guard every access
      with `?.` and so show an empty list when there is no record. */
  function ListTab(current: Option<IncidentDetail>, tab: string): (v: View)
    requires tab in {"units", "timeline", "comms"}
    ensures current.None? ==> v in {Units([]), Timeline([]), Comms([])}
  {
    if tab == "units" then Units(if current.Some? then UnitRows(current.value) else [])
    else if tab == "timeline" then Timeline(if current.Some? then current.value.timeline else [])
    else Comms(if current.Some? then current.value.communications else [])
  }

  /** The tab content AS WRITTEN: the details tab evaluates
      `currentIncident.reportedAt` without `?.`, which throws a TypeError when
      the selected incident has no record. */
  function RenderAsWritten(selected: string, tab: string): (r: Result<View, RenderError>)
    ensures r.Failure? <==> tab == "details" && selected !in IncidentDetails
  {
    var current := CurrentIncident(selected);
    if tab == "details" then
      if current.None? then Failure(TypeError("Cannot read properties of undefined (reading 'reportedAt')"))
      else
        var d := current.value;
        Success(Details(Some(d.id), SeverityColor(d.severity), Some(d.reportedAt), Some(d.status)))
    else if tab in {"units", "timeline", "comms"} then Success(ListTab(current, tab))
    else Success(Blank)
  }

  /** Choosing INC-002 in the selector while the details tab is open (as it is
      initially) makes the render throw. */
  lemma DetailsTabThrowsForInc002()
    ensures RenderAsWritten(IncidentOptions[1], InitialTab).Failure?
  {
    DanglingOptions();
  }

  /** The tab content with the evidently intended guard, `currentIncident?.reportedAt`:
      a missing record shows a details view with empty id and status, a muted
      chip, and "Invalid Date" as its reported time. */
  function Render(selected: string, tab: string): (r: View)
    ensures tab == "details" ==> r.Details?
    ensures tab == "details" && selected !in IncidentDetails ==>
              r == Details(None, "bg-muted text-muted-foreground", None, None)
    ensures tab in {"units", "timeline", "comms"} ==> r == ListTab(CurrentIncident(selected), tab)
    ensures tab !in Tabs ==> r == Blank
  {
    var current := CurrentIncident(selected);
    if tab == "details" then
      if current.None? then Details(None, SeverityColor(""), None, None)
      else
        var d := current.value;
        Details(Some(d.id), SeverityColor(d.severity), Some(d.reportedAt), Some(d.status))
    else if tab in {"units", "timeline", "comms"} then ListTab(current, tab)
    else Blank
  }

  /** The guarded render never throws and changes nothing where the written
      one already worked: wherever `RenderAsWritten` succeeds the two agree. */
  lemma RenderAgreesWhereAsWrittenWorks(selected: string, tab: string)
    ensures RenderAsWritten(selected, tab).Success? ==> RenderAsWritten(selected, tab).value == Render(selected, tab)
    ensures selected in IncidentDetails ==> RenderAsWritten(selected, tab) == Success(Render(selected, tab))
  {
  }

  /** On the dangling options the guarded details tab shows no record values:
      empty id and status, the muted chip, and an undefined date. */
  lemma DetailsOfDanglingOption()
    ensures Render(IncidentOptions[2], "details") == Details(None, "bg-muted text-muted-foreground", None, None)
  {
    DanglingOptions();
  }
}
