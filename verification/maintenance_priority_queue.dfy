/** The maintenance queue of the asset page: filter tabs that count tasks per
    status, the filtered task list with its empty state, the priority and
    status styling, and the one-at-a-time expand toggle. */
module MaintenancePriorityQueue {
  import opened ListPipeline
  import opened Toggles
  import opened Wrappers

  /** One task; display-only fields (title, asset, dates, crew, cost) are not modelled. */
  datatype Task = Task(id: string, status: string, priority: string)

  /** A filter tab: its id, its title and the number shown beside it. */
  datatype FilterTab = FilterTab(id: string, title: string, count: nat)

  function HasStatus(status: string): Task -> bool {
    (t: Task) => t.status == status
  }

  /** The four tabs. Every count is taken over the whole task list, so the
      selected tab never changes them. */
  function Tabs(tasks: seq<Task>): (r: seq<FilterTab>)
    ensures |r| == 4
    ensures r[0] == FilterTab(All, "All Tasks", |tasks|)
    ensures r[1].id == "overdue" && r[2].id == "scheduled" && r[3].id == "in-progress"
    ensures forall k :: 1 <= k < 4 ==> r[k].count == Count(tasks, HasStatus(r[k].id)) <= |tasks|
  {
    [ FilterTab(All, "All Tasks", |tasks|),
      FilterTab("overdue", "Overdue", Count(tasks, HasStatus("overdue"))),
      FilterTab("scheduled", "Scheduled", Count(tasks, HasStatus("scheduled"))),
      FilterTab("in-progress", "In Progress", Count(tasks, HasStatus("in-progress"))) ]
  }

  /** `filter === 'all' ? tasks : tasks.filter(task => task.status === filter)`. */
  function FilteredTasks(tasks: seq<Task>, filter: string): (r: seq<Task>)
    ensures filter == All ==> r == tasks
    ensures filter != All ==> IsExactSelection(r, tasks, HasStatus(filter))
  {
    if filter == All then tasks else Filter(tasks, HasStatus(filter))
  }

  /** Every tab's number is the length of the list that tab shows. */
  lemma TabCountMatchesList(tasks: seq<Task>)
    ensures forall k :: 0 <= k < 4 ==> |FilteredTasks(tasks, Tabs(tasks)[k].id)| == Tabs(tasks)[k].count
  {
  }

  /** The three status tabs together never count more than the 'all' tab. */
  lemma StatusTabsWithinAll(tasks: seq<Task>)
    ensures var r := Tabs(tasks); r[1].count + r[2].count + r[3].count <= r[0].count
  {
    CountDisjoint3(tasks, HasStatus("overdue"), HasStatus("scheduled"), HasStatus("in-progress"));
  }

  /** `filteredTasks.length === 0`: "No tasks found for the selected filter." */
  predicate ShowsEmptyState(tasks: seq<Task>, filter: string) {
    |FilteredTasks(tasks, filter)| == 0
  }

  /** The empty state appears exactly when no task has the selected status
      (under 'all': when there are no tasks). */
  lemma EmptyStateIffNoMatch(tasks: seq<Task>, filter: string)
    ensures filter == All ==> (ShowsEmptyState(tasks, filter) <==> |tasks| == 0)
    ensures filter != All ==>
      (ShowsEmptyState(tasks, filter) <==> forall k :: 0 <= k < |tasks| ==> tasks[k].status != filter)
  {
    CountZeroIff(tasks, HasStatus(filter));
  }

  // ---------------------------------------------------------------------------
  // Styling
  // ---------------------------------------------------------------------------

  const PriorityColors: map<string, string> :=
    map["critical" := "text-error", "high" := "text-warning", "medium" := "text-primary", "low" := "text-success"]

  /** `getPriorityColor`. */
  function PriorityColor(priority: string): (c: string)
    ensures priority in PriorityColors ==> c == PriorityColors[priority]
    ensures priority !in PriorityColors <==> c == "text-muted-foreground"
  {
    if priority == "critical" then "text-error"
    else if priority == "high" then "text-warning"
    else if priority == "medium" then "text-primary"
    else if priority == "low" then "text-success"
    else "text-muted-foreground"
  }

  const PriorityIcons: map<string, string> :=
    map["critical" := "AlertTriangle", "high" := "AlertCircle", "medium" := "Clock", "low" := "CheckCircle"]

  /** `getPriorityIcon`. */
  function PriorityIcon(priority: string): (icon: string)
    ensures priority in PriorityIcons ==> icon == PriorityIcons[priority]
    ensures priority !in PriorityIcons <==> icon == "Circle"
  {
    if priority == "critical" then "AlertTriangle"
    else if priority == "high" then "AlertCircle"
    else if priority == "medium" then "Clock"
    else if priority == "low" then "CheckCircle"
    else "Circle"
  }

  /** The colour and the text of a status badge. */
  datatype Badge = Badge(color: string, text: string)

  const StatusConfig: map<string, Badge> :=
    map["overdue" := Badge("bg-error text-error-foreground", "Overdue"),
        "scheduled" := Badge("bg-primary text-primary-foreground", "Scheduled"),
        "in-progress" := Badge("bg-warning text-warning-foreground", "In Progress"),
        "completed" := Badge("bg-success text-success-foreground", "Completed")]

  /** `statusConfig[status] || statusConfig.scheduled`: a known status gets
      its own badge, any other is shown as scheduled. */
  function StatusBadge(status: string): (b: Badge)
    ensures status in StatusConfig ==> b == StatusConfig[status]
    ensures status !in StatusConfig ==> b == StatusConfig["scheduled"]
    ensures b.text == "Scheduled" <==> (status == "scheduled" || status !in StatusConfig)
  {
    if status in StatusConfig then StatusConfig[status] else StatusConfig["scheduled"]
  }

  // ---------------------------------------------------------------------------
  // Expanding a task
  // ---------------------------------------------------------------------------

  /** The expanded task is held by its id, so the id is its own key. */
  function Identity(id: string): string { id }

  /** `setExpandedTask(expandedTask === task.id ? null : task.id)`: the id of
      the expanded task, if any, so at most one task is open at a time. */
  function ToggleExpand(expanded: Option<string>, taskId: string): (r: Option<string>)
    ensures r == None <==> expanded == Some(taskId)
    ensures r != None ==> r == Some(taskId)
  {
    ToggleSelection(expanded, taskId, Identity)
  }

  /** The chevron points up on the expanded task only; a click flips it on
      that task and puts every other task's chevron down. */
  lemma ChevronFollowsExpand(expanded: Option<string>, taskId: string, other: string)
    requires other != taskId
    ensures (ToggleExpand(expanded, taskId) == Some(taskId)) != (expanded == Some(taskId))
    ensures ToggleExpand(expanded, taskId) != Some(other)
  {
  }
}
