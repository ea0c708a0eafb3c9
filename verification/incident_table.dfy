/** The incident table of the emergency response page: one filter-then-sort
    pipeline over the incident list, header clicks that choose the sort, the
    priority icon bands and the status and severity lookups. */
module IncidentTable {
  import opened ListPipeline

  /** One incident. `reportedAt` is the instant `new Date(reportedAt)` yields
      for the row's ISO string, in milliseconds. Display-only fields
      (type, location, response time, units, clearance) are not modelled. */
  datatype Incident = Incident(
    id: string,
    priority: int,
    status: string,
    reportedAt: int,
    severity: string)

  /** The columns with a sort header. */
  datatype Field = Priority | Id | Status | ReportedAt

  /** The table opens sorted by priority, descending, with no status filter. */
  const InitialSort: SortState<Field> := SortState(Priority, Desc)
  const InitialFilter: string := All

  /** `a?.[sortField]`; a report time is compared as a `Date`, that is, as its
      instant, never as its string. */
  function SortKey(i: Incident, f: Field): Key {
    match f
    case Priority => Num(i.priority)
    case Id => Str(i.id)
    case Status => Str(i.status)
    case ReportedAt => Num(i.reportedAt)
  }

  /** `incident => filterStatus === 'all' || incident.status === filterStatus`. */
  function Keep(filterStatus: string): (keep: Incident -> bool)
    ensures filterStatus == All ==> forall i :: keep(i)
    ensures filterStatus != All ==> forall i :: keep(i) <==> i.status == filterStatus
  {
    (i: Incident) => filterStatus == All || i.status == filterStatus
  }

  /** `incidents.filter(keep).sort(comparator)`: the kept incidents, in an
      order where no row is strictly preceded by a later one. */
  function Shown(incidents: seq<Incident>, filterStatus: string, sort: SortState<Field>): (r: seq<Incident>)
    ensures IsSortOutcome(Filter(incidents, Keep(filterStatus)), r, (i: Incident) => SortKey(i, sort.field), sort.direction)
    ensures |r| <= |incidents|
  {
    var kept := Filter(incidents, Keep(filterStatus));
    var r := SortBy(kept, (i: Incident) => SortKey(i, sort.field), sort.direction);
    assert |multiset(r)| == |multiset(kept)|;
    r
  }

  /** An incident is kept exactly when the filter is 'all' or names its
      status, and the kept incidents keep their source order; under 'all'
      nothing is dropped. */
  lemma KeptIncidents(incidents: seq<Incident>, filterStatus: string)
    ensures var kept := Filter(incidents, Keep(filterStatus));
            && IsSubsequence(kept, incidents)
            && (forall k :: 0 <= k < |kept| ==> filterStatus == All || kept[k].status == filterStatus)
            && (forall k :: 0 <= k < |incidents| && (filterStatus == All || incidents[k].status == filterStatus) ==>
                  incidents[k] in kept)
            && (filterStatus == All ==> kept == incidents)
  {
    var kept := Filter(incidents, Keep(filterStatus));
    assert forall k :: 0 <= k < |kept| ==> Keep(filterStatus)(kept[k]);
    if filterStatus == All {
      ExactSelectionUnique(incidents, incidents, Keep(filterStatus));
      KeepAllCount(incidents, filterStatus);
    }
  }

  lemma {:induction false} KeepAllCount(incidents: seq<Incident>, filterStatus: string)
    requires filterStatus == All
    ensures Count(incidents, Keep(filterStatus)) == |incidents|
    ensures IsSubsequence(incidents, incidents)
    decreases |incidents|
  {
    SubsequenceReflexive(incidents);
    if |incidents| > 0 {
      KeepAllCount(incidents[1..], filterStatus);
    }
  }

  /** With pairwise distinct keys in the sorted column, 'asc' output strictly
      increases and 'desc' output strictly decreases. */
  lemma ShownStrict(incidents: seq<Incident>, filterStatus: string, sort: SortState<Field>)
    requires DistinctKeys(Filter(incidents, Keep(filterStatus)), (i: Incident) => SortKey(i, sort.field))
    ensures var r := Shown(incidents, filterStatus, sort);
            forall i, j :: 0 <= i < j < |r| ==>
              Precedes(SortKey(r[i], sort.field), SortKey(r[j], sort.field), sort.direction)
  {
    DistinctKeysSortStrict(Filter(incidents, Keep(filterStatus)), Shown(incidents, filterStatus, sort),
                           (i: Incident) => SortKey(i, sort.field), sort.direction);
  }

  /** Report times sort as instants: ascending means earliest first, whatever
      the strings look like. */
  lemma ReportedAtAscendingIsChronological(incidents: seq<Incident>, filterStatus: string)
    ensures var r := Shown(incidents, filterStatus, SortState(ReportedAt, Asc));
            forall i, j :: 0 <= i < j < |r| ==> r[i].reportedAt <= r[j].reportedAt
  {
    var r := Shown(incidents, filterStatus, SortState(ReportedAt, Asc));
    forall i, j | 0 <= i < j < |r|
      ensures r[i].reportedAt <= r[j].reportedAt
    {
      assert !Precedes(SortKey(r[j], ReportedAt), SortKey(r[i], ReportedAt), Asc);
    }
  }

  /** On opening, the largest priority number comes first: the order puts the
      least urgent incidents (priority 5) at the top. */
  lemma InitialViewLargestPriorityFirst(incidents: seq<Incident>)
    ensures var r := Shown(incidents, InitialFilter, InitialSort);
            && multiset(r) == multiset(incidents)
            && forall i, j :: 0 <= i < j < |r| ==> r[i].priority >= r[j].priority
  {
    KeptIncidents(incidents, InitialFilter);
    var r := Shown(incidents, InitialFilter, InitialSort);
    forall i, j | 0 <= i < j < |r|
      ensures r[i].priority >= r[j].priority
    {
      assert !Precedes(SortKey(r[j], Priority), SortKey(r[i], Priority), Desc);
    }
  }

  /** A header click: see `HandleSort`. */
  function ClickHeader(sort: SortState<Field>, f: Field): (t: SortState<Field>)
    ensures t.field == f
    ensures sort.field == f ==> t.direction != sort.direction
    ensures sort.field != f ==> t.direction == Desc
  {
    HandleSort(sort, f)
  }

  /** "Showing N of M incidents". */
  function Footer(incidents: seq<Incident>, filterStatus: string, sort: SortState<Field>): (r: (nat, nat))
    ensures r.1 == |incidents|
    ensures r.0 <= r.1
    ensures filterStatus == All ==> r.0 == r.1
    ensures r.0 == Count(incidents, Keep(filterStatus))
  {
    KeptIncidents(incidents, filterStatus);
    (|Shown(incidents, filterStatus, sort)|, |incidents|)
  }

  // ---------------------------------------------------------------------------
  // Row styling
  // ---------------------------------------------------------------------------

  /** `getPriorityIcon`: priorities 1-2 warn, 3-4 alert, the rest inform. */
  function PriorityIcon(priority: int): (icon: string)
    ensures icon == "AlertTriangle" <==> priority <= 2
    ensures icon == "AlertCircle" <==> 2 < priority <= 4
    ensures icon == "Info" <==> priority > 4
  {
    if priority <= 2 then "AlertTriangle"
    else if priority <= 4 then "AlertCircle"
    else "Info"
  }

  /** How loud an icon is: warning 2, alert 1, information 0. */
  function IconUrgency(icon: string): nat {
    if icon == "AlertTriangle" then 2 else if icon == "AlertCircle" then 1 else 0
  }

  /** A larger priority number never gets a louder icon. */
  lemma PriorityIconMonotone(p: int, q: int)
    requires p <= q
    ensures IconUrgency(PriorityIcon(p)) >= IconUrgency(PriorityIcon(q))
  {
  }

  const StatusColors: map<string, string> :=
    map["active" := "bg-error text-error-foreground", "responding" := "bg-warning text-warning-foreground",
        "en-route" := "bg-primary text-primary-foreground", "monitoring" := "bg-secondary text-secondary-foreground",
        "resolved" := "bg-success text-success-foreground"]

  /** `getStatusColor`: the five statuses, muted for anything else. */
  function StatusColor(status: string): (c: string)
    ensures status in StatusColors ==> c == StatusColors[status]
    ensures status !in StatusColors <==> c == "bg-muted text-muted-foreground"
  {
    if status == "active" then "bg-error text-error-foreground"
    else if status == "responding" then "bg-warning text-warning-foreground"
    else if status == "en-route" then "bg-primary text-primary-foreground"
    else if status == "monitoring" then "bg-secondary text-secondary-foreground"
    else if status == "resolved" then "bg-success text-success-foreground"
    else "bg-muted text-muted-foreground"
  }

  const SeverityColors: map<string, string> :=
    map["high" := "text-error", "medium" := "text-warning", "low" := "text-success"]

  /** `getSeverityColor`. */
  function SeverityColor(severity: string): (c: string)
    ensures severity in SeverityColors ==> c == SeverityColors[severity]
    ensures severity !in SeverityColors <==> c == "text-muted-foreground"
  {
    if severity == "high" then "text-error"
    else if severity == "medium" then "text-warning"
    else if severity == "low" then "text-success"
    else "text-muted-foreground"
  }
}
