/** The maintenance schedule timeline of the asset page: the status colour of a
    project, the day count between two dates, the twelve month columns, the
    clamped progress bar and the row selection with its details panel. */
module MaintenanceGanttChart {
  import opened Wrappers
  import opened ListPipeline
  import Toggles

  /** One scheduled project. Dates are instants in milliseconds; `progress` is
      `None` when the record has none. Name, location, budget and team lead are
      display-only. */
  datatype Project = Project(id: string, status: string, startDate: int, endDate: int,
                             progress: Option<int>, hasResourceConflict: bool)

  // ---------------------------------------------------------------------------
  // Colour and duration
  // ---------------------------------------------------------------------------

  const ProjectColors: map<string, string> :=
    map["completed" := "bg-success", "in-progress" := "bg-primary", "scheduled" := "bg-warning",
        "delayed" := "bg-error"]

  /** `getProjectColor`: the status dot and the bar of a project. */
  function ProjectColor(status: string): (c: string)
    ensures status in ProjectColors ==> c == ProjectColors[status]
    ensures status !in ProjectColors <==> c == "bg-muted"
  {
    if status == "completed" then "bg-success"
    else if status == "in-progress" then "bg-primary"
    else if status == "scheduled" then "bg-warning"
    else if status == "delayed" then "bg-error"
    else "bg-muted"
  }

  const MsPerDay: int := 86400000

  /** `calculateDuration`: `Math.ceil(Math.abs(end - start) / 86400000)`, the
      number of started days between the two instants. */
  function Duration(start: int, end: int): (days: nat)
    ensures var gap := if end >= start then end - start else start - end;
            (days - 1) * MsPerDay < gap <= days * MsPerDay
  {
    var gap := if end >= start then end - start else start - end;
    (gap + MsPerDay - 1) / MsPerDay
  }

  /** The order of the two dates does not matter, equal dates are zero days
      apart and any gap at all counts as at least one day. */
  lemma DurationProperties(start: int, end: int)
    ensures Duration(start, end) == Duration(end, start)
    ensures Duration(start, end) == 0 <==> start == end
    ensures start != end ==> Duration(start, end) >= 1
  {
  }

  /** The duration is the real-valued `Math.ceil` of the gap in days. */
  lemma DurationIsCeiling(start: int, end: int)
    ensures var gap := if end >= start then end - start else start - end;
            var q := (gap as real) / (MsPerDay as real);
            (Duration(start, end) as real) - 1.0 < q <= Duration(start, end) as real
  {
    var gap := if end >= start then end - start else start - end;
    var d := Duration(start, end);
    assert ((d - 1) * MsPerDay) as real < gap as real <= (d * MsPerDay) as real;
  }

  // ---------------------------------------------------------------------------
  // Timeline
  // ---------------------------------------------------------------------------

  /** A calendar month: a year and a zero-based month number. */
  datatype Month = Month(year: int, month: int)

  /** `new Date(year, month + i, 1)` for `i` in `0..11`: JavaScript carries a
      month number past 11 into the next year. */
  function TimelineHeaders(now: Month): (r: seq<Month>)
    requires 0 <= now.month < 12
    ensures |r| == 12
    ensures forall i :: 0 <= i < 12 ==> 0 <= r[i].month < 12 && r[i].year * 12 + r[i].month == now.year * 12 + now.month + i
  {
    seq(12, i requires 0 <= i < 12 => Month(now.year + (now.month + i) / 12, (now.month + i) % 12))
  }

  /** The twelve headers are twelve different months: no month is shown twice. */
  lemma HeadersDistinct(now: Month)
    requires 0 <= now.month < 12
    ensures var r := TimelineHeaders(now);
            forall i, j :: 0 <= i < j < 12 ==> r[i] != r[j]
  {
    var r := TimelineHeaders(now);
    forall i, j | 0 <= i < j < 12
      ensures r[i] != r[j]
    {
      assert r[i].year * 12 + r[i].month != r[j].year * 12 + r[j].month;
    }
  }

  /** A project's bar is drawn in the columns with index 1 to 4 only. */
  predicate HasBar(column: int) {
    1 <= column <= 4
  }

  /** The columns of the timeline that carry a bar. */
  function BarColumns(): (r: seq<int>)
    ensures forall c :: 0 <= c < 12 ==> (HasBar(c) <==> c in r)
    ensures |r| == 4
  {
    [1, 2, 3, 4]
  }

  /** `Math.min(100, project.progress || 0)`: the bar width in percent. A
      missing progress draws an empty bar; nothing draws a bar wider than 100. */
  function BarWidth(p: Project): (w: int)
    ensures w <= 100
    ensures p.progress.None? ==> w == 0
    ensures p.progress.Some? ==> (w == 100 <==> p.progress.value >= 100)
    ensures p.progress.Some? && p.progress.value <= 100 ==> w == p.progress.value
  {
    var progress := p.progress.GetOr(0);
    if progress < 100 then progress else 100
  }

  // ---------------------------------------------------------------------------
  // Selection
  // ---------------------------------------------------------------------------

  /** The row click: `selectedProject === project.id ? null : project.id`. */
  function ClickRow(selected: Option<string>, id: string): (r: Option<string>)
    ensures r.None? <==> selected == Some(id)
    ensures r.Some? ==> r.value == id
  {
    Toggles.ToggleSelection(selected, id, (s: string) => s)
  }

  /** Clicking the same row twice gives back the selection it started from
      when that selection was empty or was this row. */
  lemma ClickRowTwice(selected: Option<string>, id: string)
    requires selected.None? || selected == Some(id)
    ensures ClickRow(ClickRow(selected, id), id) == selected
  {
  }

  /** The close button of the details panel: `setSelectedProject(null)`. */
  function CloseDetails(selected: Option<string>): (r: Option<string>)
    ensures r.None?
  {
    None
  }

  /** The details panel, which renders only for a truthy (non-empty) selected
      id; it shows the first project with that id, or blank fields when none
      has it. `None` means no panel; `Some(None)` a panel with no project. */
  function Details(schedule: seq<Project>, selected: Option<string>): (r: Option<Option<Project>>)
    ensures r.None? <==> selected.None? || selected.value == ""
    ensures r.Some? && r.value.Some? ==> r.value.value in schedule && r.value.value.id == selected.value
    ensures r.Some? && r.value.Some? ==>
              exists k :: 0 <= k < |schedule| && schedule[k] == r.value.value &&
                          forall j :: 0 <= j < k ==> schedule[j].id != selected.value
    ensures r.Some? ==> (r.value.None? <==> forall k :: 0 <= k < |schedule| ==> schedule[k].id != selected.value)
  {
    if selected.None? || selected.value == "" then None
    else Some(Find(schedule, (p: Project) => p.id == selected.value))
  }

  /** Selecting a row opens the panel on that row's project when the ids are
      non-empty. */
  lemma ClickOpensDetails(schedule: seq<Project>, k: int)
    requires 0 <= k < |schedule| && schedule[k].id != ""
    ensures var r := Details(schedule, ClickRow(None, schedule[k].id));
            r.Some? && r.value.Some? && r.value.value.id == schedule[k].id
  {
  }
}
