/** The incident table of the network operations page: a status filter, a
    sort on a copy of the filtered list driven by clickable headers, the
    styling lookups of each row, and the footer counts. */
module IncidentManagementTable {
  import opened ListPipeline
  import opened Text

  /** One incident row. `timestamp` is the instant of the row's `Date`, in
      milliseconds; `kind` is the source's `type`. Display-only fields
      (title, location, reporter, team, resolution estimate, lanes) are not
      modelled. */
  datatype Incident = Incident(
    id: string,
    kind: string,
    severity: string,
    timestamp: int,
    status: string,
    priority: int,
    trafficImpact: string)

  /** The columns with a sort header. */
  datatype Field = Id | Type | Severity | Timestamp

  /** The table opens sorted by timestamp, newest first, with no status filter. */
  const InitialSort: SortState<Field> := SortState(Timestamp, Desc)
  const InitialFilter: string := All

  /** The values the status filter offers, `'all'` first. */
  const StatusOptions: seq<string> := [All, "active", "in-progress", "monitoring", "investigating", "resolved"]

  /** `a?.[sortField]`, with a timestamp read through `getTime()`: dates
      compare as numbers, every other column as a string. */
  function SortKey(i: Incident, f: Field): Key {
    match f
    case Id => Str(i.id)
    case Type => Str(i.kind)
    case Severity => Str(i.severity)
    case Timestamp => Num(i.timestamp)
  }

  /** `statusFilter === 'all' ? incidents : incidents.filter(i => i.status === statusFilter)`. */
  function Filtered(incidents: seq<Incident>, statusFilter: string): (r: seq<Incident>)
    ensures IsSubsequence(r, incidents) && |r| <= |incidents|
    ensures statusFilter == All ==> r == incidents
    ensures statusFilter != All ==>
      && (forall k :: 0 <= k < |r| ==> r[k].status == statusFilter)
      && IsSubsequence(r, incidents)
      && (forall k :: 0 <= k < |incidents| && incidents[k].status == statusFilter ==> incidents[k] in r)
      && |r| == Count(incidents, (i: Incident) => i.status == statusFilter)
  {
    var r := Select(incidents, (i: Incident) => i.status, statusFilter);
    assert statusFilter != All ==> Count(incidents, Matches((i: Incident) => i.status, statusFilter)) == |r|;
    CountCongruent(incidents, Matches((i: Incident) => i.status, statusFilter), (i: Incident) => i.status == statusFilter);
    r
  }

  /** `[...filteredIncidents].sort(comparator)`: a reordering of the filtered
      rows in which no row is strictly preceded, in the chosen direction, by
      a later one. The incoming list is not touched. */
  function Displayed(incidents: seq<Incident>, statusFilter: string, sort: SortState<Field>): (r: seq<Incident>)
    ensures IsSortOutcome(Filtered(incidents, statusFilter), r, (i: Incident) => SortKey(i, sort.field), sort.direction)
    ensures |r| == |Filtered(incidents, statusFilter)| <= |incidents|
  {
    var f := Filtered(incidents, statusFilter);
    var r := SortBy(f, (i: Incident) => SortKey(i, sort.field), sort.direction);
    assert |multiset(r)| == |multiset(f)|;
    r
  }

  /** A row is displayed exactly when it is an incident the filter lets through. */
  lemma DisplayedContents(incidents: seq<Incident>, statusFilter: string, sort: SortState<Field>, x: Incident)
    ensures x in Displayed(incidents, statusFilter, sort) <==>
            x in incidents && (statusFilter == All || x.status == statusFilter)
  {
    var f := Filtered(incidents, statusFilter);
    var r := Displayed(incidents, statusFilter, sort);
    assert x in r <==> x in multiset(f);
    if statusFilter != All {
      Selection(incidents, statusFilter);
      if x in f {
        var k :| 0 <= k < |f| && f[k] == x;
        assert x.status == statusFilter;
      }
    }
  }

  lemma Selection(incidents: seq<Incident>, statusFilter: string)
    requires statusFilter != All
    ensures multiset(Filtered(incidents, statusFilter)) <= multiset(incidents)
  {
  }

  /** With pairwise distinct keys in the sorted column, 'asc' output strictly
      increases and 'desc' output strictly decreases. */
  lemma DisplayedStrict(incidents: seq<Incident>, statusFilter: string, sort: SortState<Field>)
    requires DistinctKeys(Filtered(incidents, statusFilter), (i: Incident) => SortKey(i, sort.field))
    ensures var r := Displayed(incidents, statusFilter, sort);
            forall i, j :: 0 <= i < j < |r| ==>
              Precedes(SortKey(r[i], sort.field), SortKey(r[j], sort.field), sort.direction)
  {
    var key := (i: Incident) => SortKey(i, sort.field);
    DistinctKeysSortStrict(Filtered(incidents, statusFilter), Displayed(incidents, statusFilter, sort), key, sort.direction);
  }

  /** The timestamp column compares instants numerically: the comparator
      answers 1 exactly when `a` belongs after `b`. */
  lemma TimestampComparedAsInstant(a: Incident, b: Incident, dir: Direction)
    ensures Compare(SortKey(a, Timestamp), SortKey(b, Timestamp), dir) == 1 <==>
            (if dir == Asc then a.timestamp > b.timestamp else a.timestamp < b.timestamp)
  {
  }

  /** Severity sorts as a string, not by urgency: ascending puts "critical"
      before "high" before "low" before "medium", so a "medium" row is never
      followed by a "low" one and a "high" row never by a "critical" one. */
  lemma SeverityAscendingIsLexical(incidents: seq<Incident>, statusFilter: string)
    ensures var r := Displayed(incidents, statusFilter, SortState(Severity, Asc));
            forall i, j :: 0 <= i < j < |r| ==>
              && (r[i].severity == "medium" ==> r[j].severity != "low")
              && (r[i].severity == "high" ==> r[j].severity != "critical")
  {
    var r := Displayed(incidents, statusFilter, SortState(Severity, Asc));
    assert LexLess("low", "medium");
    assert LexLess("critical", "high");
    forall i, j | 0 <= i < j < |r|
      ensures r[i].severity == "medium" ==> r[j].severity != "low"
      ensures r[i].severity == "high" ==> r[j].severity != "critical"
    {
      assert !Precedes(SortKey(r[j], Severity), SortKey(r[i], Severity), Asc);
    }
  }

  /** On opening, every incident is shown, newest first (for distinct instants). */
  lemma InitialViewNewestFirst(incidents: seq<Incident>)
    requires DistinctKeys(incidents, (i: Incident) => SortKey(i, Timestamp))
    ensures var r := Displayed(incidents, InitialFilter, InitialSort);
            && multiset(r) == multiset(incidents)
            && forall i, j :: 0 <= i < j < |r| ==> r[i].timestamp > r[j].timestamp
  {
    DisplayedStrict(incidents, InitialFilter, InitialSort);
  }

  /** A header click: see `HandleSort`. */
  function ClickHeader(sort: SortState<Field>, f: Field): (t: SortState<Field>)
    ensures t.field == f
    ensures sort.field == f ==> t.direction != sort.direction
    ensures sort.field != f ==> t.direction == Desc
  {
    HandleSort(sort, f)
  }

  /** Priority incidents requiring immediate attention: priority 1 or 2, not resolved. */
  function IsUrgent(i: Incident): (urgent: bool)
    ensures i.status == "resolved" ==> !urgent
    ensures i.priority > 2 ==> !urgent
    ensures i.priority <= 2 && i.status != "resolved" ==> urgent
  {
    i.priority <= 2 && i.status != "resolved"
  }

  /** The urgent count of the footer, over the full list. */
  function UrgentCount(incidents: seq<Incident>): (n: nat)
    ensures n <= |incidents|
  {
    Count(incidents, IsUrgent)
  }

  /** The urgent count ignores the status filter: whatever is selected, the
      urgent rows among the shown ones are never more than the footer says,
      and under the 'resolved' filter there are none at all. */
  lemma UrgentCountIgnoresFilter(incidents: seq<Incident>, statusFilter: string)
    ensures Count(Filtered(incidents, statusFilter), IsUrgent) <= UrgentCount(incidents)
    ensures Count(Filtered(incidents, "resolved"), IsUrgent) == 0
  {
    CountSubsequence(Filtered(incidents, statusFilter), incidents, IsUrgent);
    ResolvedNeverUrgent(Filtered(incidents, "resolved"));
  }

  lemma {:induction false} ResolvedNeverUrgent(xs: seq<Incident>)
    requires forall k :: 0 <= k < |xs| ==> xs[k].status == "resolved"
    ensures Count(xs, IsUrgent) == 0
    decreases |xs|
  {
    if |xs| > 0 {
      ResolvedNeverUrgent(xs[1..]);
    }
  }

  /** "Showing N of M incidents": N counts the rows shown, M the whole list. */
  function Footer(incidents: seq<Incident>, statusFilter: string, sort: SortState<Field>): (r: (nat, nat))
    ensures r.1 == |incidents|
    ensures r.0 <= r.1
    ensures statusFilter == All ==> r.0 == r.1
    ensures statusFilter != All ==> r.0 == Count(incidents, (i: Incident) => i.status == statusFilter)
  {
    (|Displayed(incidents, statusFilter, sort)|, |incidents|)
  }

  // ---------------------------------------------------------------------------
  // Row styling
  // ---------------------------------------------------------------------------

  const SeverityColors: map<string, string> :=
    map["critical" := "text-error", "high" := "text-warning", "medium" := "text-primary", "low" := "text-success"]

  /** `getSeverityColor`. */
  function SeverityColor(severity: string): (c: string)
    ensures severity in SeverityColors ==> c == SeverityColors[severity]
    ensures severity !in SeverityColors ==> c == "text-muted-foreground"
  {
    if severity == "critical" then "text-error"
    else if severity == "high" then "text-warning"
    else if severity == "medium" then "text-primary"
    else if severity == "low" then "text-success"
    else "text-muted-foreground"
  }

  const SeverityBackgrounds: map<string, string> :=
    map["critical" := "bg-error/10", "high" := "bg-warning/10", "medium" := "bg-primary/10", "low" := "bg-success/10"]

  /** `getSeverityBg`. */
  function SeverityBg(severity: string): (c: string)
    ensures severity in SeverityBackgrounds ==> c == SeverityBackgrounds[severity]
    ensures severity !in SeverityBackgrounds ==> c == "bg-muted/10"
  {
    if severity == "critical" then "bg-error/10"
    else if severity == "high" then "bg-warning/10"
    else if severity == "medium" then "bg-primary/10"
    else if severity == "low" then "bg-success/10"
    else "bg-muted/10"
  }

  /** A row's severity text and badge background always use the same tone:
      the text token is `text-T` exactly when the background is `bg-T/10`. */
  lemma SeverityToneAgrees(severity: string)
    ensures severity in SeverityColors <==> severity in SeverityBackgrounds
    ensures severity in SeverityColors ==>
      SeverityColor(severity)[5..] + "/10" == SeverityBg(severity)[3..]
  {
  }

  const StatusColors: map<string, string> :=
    map["active" := "text-error", "in-progress" := "text-warning", "monitoring" := "text-primary",
        "investigating" := "text-primary", "resolved" := "text-success"]

  /** `getStatusColor`. */
  function StatusColor(status: string): (c: string)
    ensures status in StatusColors ==> c == StatusColors[status]
    ensures status !in StatusColors ==> c == "text-muted-foreground"
  {
    if status == "active" then "text-error"
    else if status == "in-progress" then "text-warning"
    else if status == "monitoring" then "text-primary"
    else if status == "investigating" then "text-primary"
    else if status == "resolved" then "text-success"
    else "text-muted-foreground"
  }

  /** Every status the filter offers has its own colour; only values outside
      the options fall back to muted. */
  lemma StatusOptionsColored()
    ensures forall k :: 1 <= k < |StatusOptions| ==> StatusOptions[k] in StatusColors
    ensures forall s :: s in StatusColors ==> StatusColor(s) != "text-muted-foreground"
  {
  }

  const TypeIcons: map<string, string> :=
    map["accident" := "Car", "maintenance" := "Construction", "weather" := "Cloud",
        "traffic" := "Traffic", "infrastructure" := "Settings"]

  /** `getTypeIcon`. */
  function TypeIcon(kind: string): (icon: string)
    ensures kind in TypeIcons ==> icon == TypeIcons[kind]
    ensures kind !in TypeIcons <==> icon == "AlertTriangle"
  {
    if kind == "accident" then "Car"
    else if kind == "maintenance" then "Construction"
    else if kind == "weather" then "Cloud"
    else if kind == "traffic" then "Traffic"
    else if kind == "infrastructure" then "Settings"
    else "AlertTriangle"
  }

  const ImpactColors: map<string, string> :=
    map["Severe" := "text-error", "High" := "text-warning", "Moderate" := "text-primary",
        "Low" := "text-success", "Minimal" := "text-muted-foreground"]

  /** `getTrafficImpactColor`. The listed "Minimal" impact gets the same muted
      token as an unknown value, so the muted token alone does not tell the
      two apart. */
  function TrafficImpactColor(impact: string): (c: string)
    ensures impact in ImpactColors ==> c == ImpactColors[impact]
    ensures impact !in ImpactColors ==> c == "text-muted-foreground"
    ensures c == "text-muted-foreground" <==> (impact == "Minimal" || impact !in ImpactColors)
  {
    if impact == "Severe" then "text-error"
    else if impact == "High" then "text-warning"
    else if impact == "Moderate" then "text-primary"
    else if impact == "Low" then "text-success"
    else if impact == "Minimal" then "text-muted-foreground"
    else "text-muted-foreground"
  }
}
