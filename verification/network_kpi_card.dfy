/** A key-performance-indicator card of the network operations page: the
    status tone of the card and the direction and colour of its trend, where
    whether "up" is good depends on what the title measures. */
module NetworkKpiCard {
  import opened Wrappers
  import opened Text

  // ---------------------------------------------------------------------------
  // Status tone
  // ---------------------------------------------------------------------------

  const StatusColors: map<string, string> :=
    map["excellent" := "text-success", "good" := "text-primary", "warning" := "text-warning", "critical" := "text-error"]

  /** `getStatusColor`: the icon, value and status chip text. */
  function StatusColor(status: string): (c: string)
    ensures status in StatusColors ==> c == StatusColors[status]
    ensures status !in StatusColors <==> c == "text-muted-foreground"
  {
    if status == "excellent" then "text-success"
    else if status == "good" then "text-primary"
    else if status == "warning" then "text-warning"
    else if status == "critical" then "text-error"
    else "text-muted-foreground"
  }

  const StatusBgColors: map<string, string> :=
    map["excellent" := "bg-success/10", "good" := "bg-primary/10", "warning" := "bg-warning/10", "critical" := "bg-error/10"]

  /** `getStatusBgColor`: the card and icon backgrounds. */
  function StatusBgColor(status: string): (c: string)
    ensures status in StatusBgColors ==> c == StatusBgColors[status]
    ensures status !in StatusBgColors <==> c == "bg-muted/10"
  {
    if status == "excellent" then "bg-success/10"
    else if status == "good" then "bg-primary/10"
    else if status == "warning" then "bg-warning/10"
    else if status == "critical" then "bg-error/10"
    else "bg-muted/10"
  }

  /** The text tone and the background of the four statuses name the same colour. */
  lemma StatusTonesAgree(status: string)
    ensures status in StatusColors <==> status in StatusBgColors
    ensures status in StatusColors ==> StatusColor(status)[5..] + "/10" == StatusBgColor(status)[3..]
  {
    if status == "excellent" {
      assert "text-success"[5..] + "/10" == "bg-success/10"[3..];
    } else if status == "good" {
      assert "text-primary"[5..] + "/10" == "bg-primary/10"[3..];
    } else if status == "warning" {
      assert "text-warning"[5..] + "/10" == "bg-warning/10"[3..];
    } else if status == "critical" {
      assert "text-error"[5..] + "/10" == "bg-error/10"[3..];
    }
  }

  // ---------------------------------------------------------------------------
  // Trend
  // ---------------------------------------------------------------------------

  /** `getTrendIcon`. */
  function TrendIcon(trend: string): (icon: string)
    ensures icon == "TrendingUp" <==> trend == "up"
    ensures icon == "TrendingDown" <==> trend == "down"
    ensures icon == "Minus" <==> trend != "up" && trend != "down"
  {
    if trend == "up" then "TrendingUp"
    else if trend == "down" then "TrendingDown"
    else "Minus"
  }

  /** Titles whose value should rise: a score or a flow. */
  predicate HigherIsBetter(title: string) {
    Contains(title, "Score") || Contains(title, "Flow")
  }

  /** Titles whose value should fall: incident counts and response times. */
  predicate LowerIsBetter(title: string) {
    Contains(title, "Incidents") || Contains(title, "Response")
  }

  /** `getTrendColor`: a rise is good for a score or a flow and bad for
      anything else; a fall is good for incidents or response and bad for
      anything else; no trend is muted. */
  function TrendColor(trend: string, title: string): (c: string)
    ensures c == "text-muted-foreground" <==> trend != "up" && trend != "down"
    ensures trend == "up" ==> (c == "text-success" <==> HigherIsBetter(title))
    ensures trend == "down" ==> (c == "text-success" <==> LowerIsBetter(title))
    ensures c in {"text-success", "text-error", "text-muted-foreground"}
  {
    if trend == "up" && (Contains(title, "Score") || Contains(title, "Flow")) then "text-success"
    else if trend == "up" then "text-error"
    else if trend == "down" && (Contains(title, "Incidents") || Contains(title, "Response")) then "text-success"
    else if trend == "down" then "text-error"
    else "text-muted-foreground"
  }

  /** A title that names neither kind of measure is read as "lower is better"
      for nothing and "higher is better" for nothing: any movement is red. */
  lemma UnclassifiedTitleAlwaysRed(trend: string, title: string)
    requires !HigherIsBetter(title) && !LowerIsBetter(title)
    requires trend == "up" || trend == "down"
    ensures TrendColor(trend, title) == "text-error"
  {
  }

  /** A rise of "Network Score" is good. */
  lemma RisingScoreIsGood()
    ensures TrendColor("up", "Network Score") == "text-success"
  {
    var score := "Network Score";
    assert StartsWith(score[8..], "Score");
  }

  /** The title is read literally: "incidents" in lower case is not
      "Incidents", so a fall of "open incidents" is shown as bad. */
  lemma TitleMatchIsCaseSensitive(title: string)
    requires title == "open incidents"
    ensures TrendColor("down", title) == "text-error"
  {
    MissingFirstCharNotContained(title, "Incidents");
    MissingFirstCharNotContained(title, "Response");
    assert !LowerIsBetter(title);
  }

  /** `{unit && ...}`: the unit beside the value renders only when it is
      present and not the empty string. */
  function ShowsUnit(unit: Option<string>): (shown: bool)
    ensures shown ==> unit.Some?
    ensures unit.Some? ==> (shown <==> |unit.value| > 0)
  {
    unit.Some? && unit.value != ""
  }

  /** The units of the six KPI cards of the network operations page. */
  const PageUnits: seq<string> := ["%", "", "min", "%", "%", "/10"]

  /** Every card but the second, "Active Incidents", shows a unit. */
  lemma OnlyActiveIncidentsHasNoUnit(k: int)
    requires 0 <= k < |PageUnits|
    ensures ShowsUnit(Some(PageUnits[k])) <==> k != 1
  {
  }
}
