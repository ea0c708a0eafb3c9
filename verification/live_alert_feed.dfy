/** The live alert feed of the network operations page: a severity filter,
    the empty state, the footer count, the relative-time label and the
    styling lookups of an alert. */
module LiveAlertFeed {
  import opened ListPipeline
  import opened Text

  /** One alert. `timestamp` is its instant in milliseconds; `kind` is the
      source's `type`. Title, location, assignee and description are display-only. */
  datatype Alert = Alert(id: string, severity: string, kind: string, timestamp: int, status: string)

  /** The filter buttons, in the order shown. */
  const FilterButtons: seq<string> := [All, "critical", "high", "medium", "low"]

  /** `filter === 'all' ? alerts : alerts.filter(alert => alert.severity === filter)`. */
  function FilteredAlerts(alerts: seq<Alert>, filter: string): (r: seq<Alert>)
    ensures filter == All ==> r == alerts
    ensures filter != All ==>
      && (forall k :: 0 <= k < |r| ==> r[k].severity == filter)
      && IsSubsequence(r, alerts)
      && |r| == Count(alerts, (a: Alert) => a.severity == filter)
    ensures |r| <= |alerts|
  {
    var r := Select(alerts, (a: Alert) => a.severity, filter);
    assert filter != All ==> Count(alerts, Matches((a: Alert) => a.severity, filter)) == |r|;
    CountCongruent(alerts, Matches((a: Alert) => a.severity, filter), (a: Alert) => a.severity == filter);
    r
  }

  /** "No alerts matching current filter" shows exactly when no alert has the
      chosen severity (under 'all': when there are no alerts). */
  lemma EmptyStateIffNoMatch(alerts: seq<Alert>, filter: string)
    ensures filter == All ==> (|FilteredAlerts(alerts, filter)| == 0 <==> |alerts| == 0)
    ensures filter != All ==>
      (|FilteredAlerts(alerts, filter)| == 0 <==> forall k :: 0 <= k < |alerts| ==> alerts[k].severity != filter)
  {
    CountZeroIff(alerts, (a: Alert) => a.severity == filter);
  }

  /** "Showing N of M alerts". */
  function Footer(alerts: seq<Alert>, filter: string): (r: (nat, nat))
    ensures r.1 == |alerts| && r.0 <= r.1
    ensures filter == All ==> r.0 == r.1
    ensures filter != All ==> r.0 == Count(alerts, (a: Alert) => a.severity == filter)
  {
    (|FilteredAlerts(alerts, filter)|, |alerts|)
  }

  // ---------------------------------------------------------------------------
  // Relative time
  // ---------------------------------------------------------------------------

  const MsPerMinute: int := 60000
  const MsPerHour: int := 3600000

  /** `formatTimeAgo(timestamp)` at instant `now`: whole minutes elapsed
      (`Math.floor`, also for a timestamp in the future), "Just now" under a
      minute, minutes under an hour, whole hours after that. */
  function FormatTimeAgo(now: int, timestamp: int): (r: string)
    ensures r == "Just now" <==> now - timestamp < MsPerMinute
    ensures MsPerMinute <= now - timestamp < MsPerHour ==>
              r == NatToString((now - timestamp) / MsPerMinute) + "m ago"
    ensures now - timestamp >= MsPerHour ==>
              r == NatToString((now - timestamp) / MsPerHour) + "h ago"
  {
    var minutes := (now - timestamp) / 60000;
    if minutes < 1 then "Just now"
    else if minutes < 60 then
      var r := NatToString(minutes) + "m ago";
      assert IsDigit(r[0]) && !IsDigit("Just now"[0]);
      r
    else
      MinutesThenHours(now - timestamp);
      var r := NatToString(minutes / 60) + "h ago";
      assert IsDigit(r[0]) && !IsDigit("Just now"[0]);
      r
  }

  /** Flooring to minutes and then to hours is flooring to hours. */
  lemma MinutesThenHours(d: int)
    requires d >= 0
    ensures (d / 60000) / 60 == d / 3600000
  {
    var m := d / 60000;
    var h := m / 60;
    assert d == m * 60000 + d % 60000;
    assert m == h * 60 + m % 60;
    assert d == h * 3600000 + (m % 60) * 60000 + d % 60000;
  }

  /** The label loses nothing it shows: the digits in front of the unit read
      back as the whole minutes (or whole hours) elapsed. */
  lemma TimeAgoReadsBack(now: int, timestamp: int)
    requires now - timestamp >= MsPerMinute
    ensures var r := FormatTimeAgo(now, timestamp);
            var digits := r[..|r| - 5];
            (forall i :: 0 <= i < |digits| ==> IsDigit(digits[i]))
            && ParseNat(digits) == if now - timestamp < MsPerHour then (now - timestamp) / MsPerMinute
                                   else (now - timestamp) / MsPerHour
  {
    var r := FormatTimeAgo(now, timestamp);
    var n: nat := if now - timestamp < MsPerHour then (now - timestamp) / MsPerMinute else (now - timestamp) / MsPerHour;
    assert r == NatToString(n) + (if now - timestamp < MsPerHour then "m ago" else "h ago");
    assert r[..|r| - 5] == NatToString(n);
    ParseNatToString(n);
  }

  // ---------------------------------------------------------------------------
  // Styling
  // ---------------------------------------------------------------------------

  const SeverityColors: map<string, string> :=
    map["critical" := "text-error", "high" := "text-warning", "medium" := "text-primary", "low" := "text-success"]

  /** `getSeverityColor`. */
  function SeverityColor(severity: string): (c: string)
    ensures severity in SeverityColors ==> c == SeverityColors[severity]
    ensures severity !in SeverityColors <==> c == "text-muted-foreground"
  {
    if severity == "critical" then "text-error"
    else if severity == "high" then "text-warning"
    else if severity == "medium" then "text-primary"
    else if severity == "low" then "text-success"
    else "text-muted-foreground"
  }

  const SeverityBackgrounds: map<string, string> :=
    map["critical" := "bg-error/10 border-error/20", "high" := "bg-warning/10 border-warning/20",
        "medium" := "bg-primary/10 border-primary/20", "low" := "bg-success/10 border-success/20"]

  /** `getSeverityBg`. */
  function SeverityBg(severity: string): (c: string)
    ensures severity in SeverityBackgrounds ==> c == SeverityBackgrounds[severity]
    ensures severity !in SeverityBackgrounds <==> c == "bg-muted/10 border-border"
  {
    if severity == "critical" then "bg-error/10 border-error/20"
    else if severity == "high" then "bg-warning/10 border-warning/20"
    else if severity == "medium" then "bg-primary/10 border-primary/20"
    else if severity == "low" then "bg-success/10 border-success/20"
    else "bg-muted/10 border-border"
  }

  /** Every severity filter button other than 'all' names a styled severity. */
  lemma FilterButtonsStyled()
    ensures forall k :: 1 <= k < |FilterButtons| ==>
              FilterButtons[k] in SeverityColors && FilterButtons[k] in SeverityBackgrounds
  {
  }

  const TypeIcons: map<string, string> :=
    map["accident" := "Car", "construction" := "Construction", "weather" := "Cloud",
        "maintenance" := "Settings", "traffic" := "Traffic"]

  /** `getTypeIcon`. */
  function TypeIcon(kind: string): (icon: string)
    ensures kind in TypeIcons ==> icon == TypeIcons[kind]
    ensures kind !in TypeIcons <==> icon == "AlertTriangle"
  {
    if kind == "accident" then "Car"
    else if kind == "construction" then "Construction"
    else if kind == "weather" then "Cloud"
    else if kind == "maintenance" then "Settings"
    else if kind == "traffic" then "Traffic"
    else "AlertTriangle"
  }

  const StatusIcons: map<string, string> :=
    map["active" := "AlertCircle", "in-progress" := "Clock", "monitoring" := "Eye", "scheduled" := "Calendar"]

  /** `getStatusIcon`. */
  function StatusIcon(status: string): (icon: string)
    ensures status in StatusIcons ==> icon == StatusIcons[status]
    ensures status !in StatusIcons <==> icon == "Info"
  {
    if status == "active" then "AlertCircle"
    else if status == "in-progress" then "Clock"
    else if status == "monitoring" then "Eye"
    else if status == "scheduled" then "Calendar"
    else "Info"
  }
}
