/** The incident map of the emergency page: the view switch that decides which
    markers are drawn, where each marker sits, the styling lookups of incidents
    and units, and the popup of the selected incident. */
module IncidentMap {
  import opened Wrappers

  /** An incident on the map. `id` is `None` for a record without one, which
      matters to the popup test; `kind` is the source's `type`. */
  datatype MapIncident = MapIncident(id: Option<string>, kind: string, severity: string)

  /** A response unit on the map. `kind` is the source's `type`. */
  datatype Unit = Unit(id: string, kind: string, status: string)

  /** The view and selection the map opens with. */
  const InitialView: string := "incidents"
  const InitialSelection: Option<MapIncident> := None

  // ---------------------------------------------------------------------------
  // Styling lookups
  // ---------------------------------------------------------------------------

  const SeverityColors: map<string, string> :=
    map["high" := "bg-error text-error-foreground", "medium" := "bg-warning text-warning-foreground",
        "low" := "bg-success text-success-foreground"]

  /** `getSeverityColor`. */
  function SeverityColor(severity: string): (c: string)
    ensures severity in SeverityColors ==> c == SeverityColors[severity]
    ensures severity !in SeverityColors <==> c == "bg-muted text-muted-foreground"
  {
    if severity == "high" then "bg-error text-error-foreground"
    else if severity == "medium" then "bg-warning text-warning-foreground"
    else if severity == "low" then "bg-success text-success-foreground"
    else "bg-muted text-muted-foreground"
  }

  const IncidentIcons: map<string, string> :=
    map["accident" := "Car", "roadwork" := "Construction", "weather" := "Cloud"]

  /** `getIncidentIcon`. */
  function IncidentIcon(kind: string): (icon: string)
    ensures kind in IncidentIcons ==> icon == IncidentIcons[kind]
    ensures kind !in IncidentIcons <==> icon == "AlertTriangle"
  {
    if kind == "accident" then "Car"
    else if kind == "roadwork" then "Construction"
    else if kind == "weather" then "Cloud"
    else "AlertTriangle"
  }

  const UnitIcons: map<string, string> :=
    map["police" := "Shield", "fire" := "Flame", "medical" := "Heart"]

  /** `getUnitIcon`. */
  function UnitIcon(kind: string): (icon: string)
    ensures kind in UnitIcons ==> icon == UnitIcons[kind]
    ensures kind !in UnitIcons <==> icon == "Truck"
  {
    if kind == "police" then "Shield"
    else if kind == "fire" then "Flame"
    else if kind == "medical" then "Heart"
    else "Truck"
  }

  const UnitColors: map<string, string> :=
    map["available" := "text-success", "en-route" := "text-warning", "on-scene" := "text-error"]

  /** `getUnitColor`: the ring of a unit marker by the unit's status. */
  function UnitColor(status: string): (c: string)
    ensures status in UnitColors ==> c == UnitColors[status]
    ensures status !in UnitColors <==> c == "text-muted-foreground"
  {
    if status == "available" then "text-success"
    else if status == "en-route" then "text-warning"
    else if status == "on-scene" then "text-error"
    else "text-muted-foreground"
  }

  // ---------------------------------------------------------------------------
  // Markers
  // ---------------------------------------------------------------------------

  /** Incident marker positions, in percent: the first at (20, 30), each
      next one 25 further right and 15 further down. */
  function IncidentPosition(index: nat): (p: (int, int))
    ensures p == (20 + 25 * index, 30 + 15 * index)
    ensures forall j: nat :: j < index ==> IncidentPosition(j).0 < p.0 && IncidentPosition(j).1 < p.1
    decreases index
  {
    if index == 0 then (20, 30)
    else
      var q := IncidentPosition(index - 1);
      (q.0 + 25, q.1 + 15)
  }

  /** Unit marker positions, in percent: the first at (25, 40), each next
      one 20 further right and 10 further down. */
  function UnitPosition(index: nat): (p: (int, int))
    ensures p == (25 + 20 * index, 40 + 10 * index)
    ensures forall j: nat :: j < index ==> UnitPosition(j).0 < p.0 && UnitPosition(j).1 < p.1
    decreases index
  {
    if index == 0 then (25, 40)
    else
      var q := UnitPosition(index - 1);
      (q.0 + 20, q.1 + 10)
  }

  /** A drawn marker: what it stands for and where it sits. */
  datatype Marker = IncidentMarker(incident: MapIncident, at: (int, int)) | UnitMarker(unit: Unit, at: (int, int))

  /** The overlay: incident markers only in the 'incidents' view, unit markers
      only in the 'units' view, and none at all in 'traffic' or any other view. */
  function Overlay(view: string, incidents: seq<MapIncident>, units: seq<Unit>): (r: seq<Marker>)
    ensures view == "incidents" ==> |r| == |incidents|
    ensures view == "incidents" ==> forall i :: 0 <= i < |r| ==> r[i] == IncidentMarker(incidents[i], IncidentPosition(i))
    ensures view == "units" ==> |r| == |units|
    ensures view == "units" ==> forall i :: 0 <= i < |r| ==> r[i] == UnitMarker(units[i], UnitPosition(i))
    ensures view != "incidents" && view != "units" ==> r == []
  {
    if view == "incidents" then
      seq(|incidents|, i requires 0 <= i < |incidents| => IncidentMarker(incidents[i], IncidentPosition(i)))
    else if view == "units" then
      seq(|units|, i requires 0 <= i < |units| => UnitMarker(units[i], UnitPosition(i)))
    else []
  }

  /** The two kinds of marker never share the map. */
  lemma OneKindAtATime(view: string, incidents: seq<MapIncident>, units: seq<Unit>)
    ensures var r := Overlay(view, incidents, units);
            (forall i :: 0 <= i < |r| ==> r[i].IncidentMarker?) || (forall i :: 0 <= i < |r| ==> r[i].UnitMarker?)
  {
  }

  // ---------------------------------------------------------------------------
  // Popup
  // ---------------------------------------------------------------------------

  /** `selectedIncident?.id === incident?.id`: with no selection the left side
      is `undefined`, and so is the id of a record without one. */
  function PopupOpen(selected: Option<MapIncident>, incident: MapIncident): (open: bool)
    ensures selected.Some? ==> (open <==> incident.id == selected.value.id)
    ensures selected.None? ==> (open <==> incident.id.None?)
  {
    (if selected.Some? then selected.value.id else None) == incident.id
  }

  /** Clicking a marker selects its incident, whose popup then opens. */
  function ClickIncident(incident: MapIncident): (selected: Option<MapIncident>)
    ensures PopupOpen(selected, incident)
  {
    Some(incident)
  }

  /** With an incident selected, popups open exactly on the incidents sharing
      its id; with none selected, exactly on the incidents that have no id. */
  lemma PopupTargets(selected: Option<MapIncident>, incident: MapIncident)
    ensures selected.Some? ==> (PopupOpen(selected, incident) <==> incident.id == selected.value.id)
    ensures selected.None? ==> (PopupOpen(selected, incident) <==> incident.id.None?)
  {
  }

  /** The incidents the map ships with. */
  const MapIncidents: seq<MapIncident> := [
    MapIncident(Some("INC-001"), "accident", "high"),
    MapIncident(Some("INC-002"), "roadwork", "medium"),
    MapIncident(Some("INC-003"), "weather", "low")
  ]

  /** Since every shipped incident has an id, the map opens with no popup. */
  lemma NoPopupInitially()
    ensures forall i :: 0 <= i < |MapIncidents| ==> !PopupOpen(InitialSelection, MapIncidents[i])
  {
  }
}
