/** The resource panel of the emergency response page: a type filter over the
    response units, per-type availability statistics, the status styling and
    the parts of a unit's card that appear only under a condition. */
module ResourceAllocation {
  import opened ListPipeline
  import opened Toggles
  import opened Wrappers

  /** A kind of response unit with its icon and colour. */
  datatype ResourceType = ResourceType(id: string, name: string, icon: string, color: string)

  const ResourceTypes: seq<ResourceType> := [
    ResourceType("police", "Police", "Shield", "text-blue-400"),
    ResourceType("fire", "Fire", "Flame", "text-red-400"),
    ResourceType("medical", "Medical", "Heart", "text-green-400"),
    ResourceType("maintenance", "Maintenance", "Wrench", "text-yellow-400")
  ]

  function TypeIds(types: seq<ResourceType>): (ids: seq<string>)
    ensures |ids| == |types| && forall k :: 0 <= k < |types| ==> ids[k] == types[k].id
  {
    seq(|types|, k requires 0 <= k < |types| => types[k].id)
  }

  /** One response unit. `assignedIncident` is `null` as `None`; `kind` is
      the source's `type`. Location, ETA and update time are display-only. */
  datatype Resource = Resource(id: string, kind: string, status: string, assignedIncident: Option<string>)

  /** `selectedResourceType === 'all' ? resources : resources.filter(r => r.type === selectedResourceType)`. */
  function FilteredResources(resources: seq<Resource>, selectedType: string): (r: seq<Resource>)
    ensures selectedType == All ==> r == resources
    ensures selectedType != All ==>
      && (forall k :: 0 <= k < |r| ==> r[k].kind == selectedType)
      && IsSubsequence(r, resources)
      && (forall k :: 0 <= k < |resources| && resources[k].kind == selectedType ==> resources[k] in r)
      && |r| == Count(resources, (x: Resource) => x.kind == selectedType)
  {
    var r := Select(resources, (x: Resource) => x.kind, selectedType);
    assert selectedType != All ==> Count(resources, Matches((x: Resource) => x.kind, selectedType)) == |r|;
    CountCongruent(resources, Matches((x: Resource) => x.kind, selectedType), (x: Resource) => x.kind == selectedType);
    r
  }

  // ---------------------------------------------------------------------------
  // Statistics
  // ---------------------------------------------------------------------------

  /** One entry of `getResourceStats()`: the type spread with its counts. */
  datatype Stat = Stat(kind: ResourceType, available: nat, total: nat)

  function OfType(id: string): Resource -> bool {
    (x: Resource) => x.kind == id
  }

  const IsAvailable: Resource -> bool := (x: Resource) => x.status == "available"

  function AvailableOfType(id: string): Resource -> bool {
    (x: Resource) => x.kind == id && x.status == "available"
  }

  /** The counts for one type, taken from the whole resource list: `total`
      units of that type, `available` of them available. */
  function StatOf(t: ResourceType, resources: seq<Resource>): (s: Stat)
    ensures s.kind == t
    ensures s.total == Count(resources, OfType(t.id))
    ensures s.available == Count(resources, AvailableOfType(t.id))
    ensures s.available <= s.total
  {
    var typeResources := Filter(resources, OfType(t.id));
    var available := Filter(typeResources, IsAvailable);
    CountFilter(resources, OfType(t.id), IsAvailable, AvailableOfType(t.id));
    Stat(t, |available|, |typeResources|)
  }

  /** `types.map(type => ...)` of `getResourceStats`. */
  function StatsFor(types: seq<ResourceType>, resources: seq<Resource>): (r: seq<Stat>)
    ensures |r| == |types|
    ensures forall k :: 0 <= k < |r| ==> r[k] == StatOf(types[k], resources)
    decreases |types|
  {
    if |types| == 0 then [] else [StatOf(types[0], resources)] + StatsFor(types[1..], resources)
  }

  /** `getResourceStats()`: one entry per declared type, in declared order,
      counted over the whole resource list, never more available than in all. */
  function ResourceStats(resources: seq<Resource>): (r: seq<Stat>)
    ensures |r| == |ResourceTypes|
    ensures forall k :: 0 <= k < |r| ==>
      && r[k].kind == ResourceTypes[k]
      && r[k].total == Count(resources, OfType(ResourceTypes[k].id))
      && r[k].available == Count(resources, AvailableOfType(ResourceTypes[k].id))
      && r[k].available <= r[k].total
  {
    StatsFor(ResourceTypes, resources)
  }

  function SumTotals(stats: seq<Stat>): nat
    decreases |stats|
  {
    if |stats| == 0 then 0 else stats[0].total + SumTotals(stats[1..])
  }

  function SumAvailable(stats: seq<Stat>): nat
    decreases |stats|
  {
    if |stats| == 0 then 0 else stats[0].available + SumAvailable(stats[1..])
  }

  /** The resource's type is one of `ids`. */
  function InTypes(ids: seq<string>): Resource -> bool {
    (x: Resource) => x.kind in ids
  }

  /** The resource's type is one of `ids`, and it is available. */
  function AvailableInTypes(ids: seq<string>): Resource -> bool {
    (x: Resource) => x.kind in ids && x.status == "available"
  }

  /** Summing per-type counts over distinct type ids counts, once each, the
      resources whose type is among them (all of them, and the available ones). */
  lemma {:induction false} SumOverTypes(resources: seq<Resource>, types: seq<ResourceType>)
    requires NoDup(TypeIds(types))
    ensures SumTotals(StatsFor(types, resources)) == Count(resources, InTypes(TypeIds(types)))
    ensures SumAvailable(StatsFor(types, resources)) == Count(resources, AvailableInTypes(TypeIds(types)))
    decreases |types|
  {
    var ids := TypeIds(types);
    if |types| == 0 {
      CountNone(resources, InTypes(ids));
      CountNone(resources, AvailableInTypes(ids));
    } else {
      var rest := types[1..];
      var restIds := TypeIds(rest);
      assert restIds == ids[1..];
      assert ids == [ids[0]] + restIds;
      SumOverTypes(resources, rest);
      assert forall x: Resource :: x.kind in ids <==> x.kind == ids[0] || x.kind in restIds;
      CountDisjointUnion(resources, OfType(types[0].id), InTypes(restIds), InTypes(ids));
      CountDisjointUnion(resources, AvailableOfType(types[0].id), AvailableInTypes(restIds), AvailableInTypes(ids));
    }
  }

  /** The statistics come from the whole list: their totals add up to the
      number of units whose type is a declared one, whatever is filtered, and
      their available counts to the available units among those. */
  lemma StatsCoverListedTypes(resources: seq<Resource>)
    ensures SumTotals(ResourceStats(resources)) == Count(resources, InTypes(TypeIds(ResourceTypes)))
    ensures SumAvailable(ResourceStats(resources)) == Count(resources, AvailableInTypes(TypeIds(ResourceTypes)))
  {
    var ids := TypeIds(ResourceTypes);
    assert ids == ["police", "fire", "medical", "maintenance"];
    assert NoDup(ids[3..]) && NoDup(ids[2..]) && NoDup(ids[1..]);
    SumOverTypes(resources, ResourceTypes);
  }

  // ---------------------------------------------------------------------------
  // A unit's card
  // ---------------------------------------------------------------------------

  const StatusColors: map<string, string> :=
    map["available" := "bg-success text-success-foreground", "dispatched" := "bg-primary text-primary-foreground",
        "en-route" := "bg-warning text-warning-foreground", "on-scene" := "bg-error text-error-foreground"]

  /** `getStatusColor`. */
  function StatusColor(status: string): (c: string)
    ensures status in StatusColors ==> c == StatusColors[status]
    ensures status !in StatusColors <==> c == "bg-muted text-muted-foreground"
  {
    if status == "available" then "bg-success text-success-foreground"
    else if status == "dispatched" then "bg-primary text-primary-foreground"
    else if status == "en-route" then "bg-warning text-warning-foreground"
    else if status == "on-scene" then "bg-error text-error-foreground"
    else "bg-muted text-muted-foreground"
  }

  const StatusIcons: map<string, string> :=
    map["available" := "CheckCircle", "dispatched" := "Send", "en-route" := "Navigation", "on-scene" := "MapPin"]

  /** `getStatusIcon`. */
  function StatusIcon(status: string): (icon: string)
    ensures status in StatusIcons ==> icon == StatusIcons[status]
    ensures status !in StatusIcons <==> icon == "Clock"
  {
    if status == "available" then "CheckCircle"
    else if status == "dispatched" then "Send"
    else if status == "en-route" then "Navigation"
    else if status == "on-scene" then "MapPin"
    else "Clock"
  }

  /** `resourceTypes.find(t => t.id === resource.type)?.icon || 'Truck'`. */
  function TypeIcon(x: Resource): (icon: string)
    ensures x.kind in TypeIds(ResourceTypes) ==> exists k :: 0 <= k < |ResourceTypes| && ResourceTypes[k].id == x.kind && icon == ResourceTypes[k].icon
    ensures icon == "Truck" <==> x.kind !in TypeIds(ResourceTypes)
  {
    var ids := TypeIds(ResourceTypes);
    match Find(ResourceTypes, (t: ResourceType) => t.id == x.kind)
    case Some(t) => if t.icon != "" then t.icon else "Truck"
    case None => "Truck"
  }

  /** The "Incident:" line: `resource.assignedIncident && ...` shows it only
      for a non-null, non-empty incident id. */
  function IncidentLine(x: Resource): (line: Option<string>)
    ensures line.Some? <==> x.assignedIncident.Some? && x.assignedIncident.value != ""
    ensures line.Some? ==> line == x.assignedIncident
  {
    if x.assignedIncident.Some? && x.assignedIncident.value != "" then x.assignedIncident else None
  }

  /** The Dispatch button is offered to available units only. */
  predicate ShowsDispatch(x: Resource) {
    x.status == "available"
  }

  /** When every unit has a declared type, the Dispatch buttons of the 'all'
      view are exactly as many as the statistics' available counts add up to. */
  lemma DispatchButtonsMatchStats(resources: seq<Resource>)
    requires forall k :: 0 <= k < |resources| ==> resources[k].kind in TypeIds(ResourceTypes)
    ensures Count(FilteredResources(resources, All), ShowsDispatch) == SumAvailable(ResourceStats(resources))
  {
    StatsCoverListedTypes(resources);
    CountCongruent(resources, AvailableInTypes(TypeIds(ResourceTypes)), ShowsDispatch);
  }
}
