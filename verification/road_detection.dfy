/** The road detection panel of the emergency page: the styling lookups of a
    detection, the rounded confidence badge, the marker layout with its
    single open popup, and the scan button that cannot be pressed twice. */
module RoadDetection {
  import opened Wrappers
  import opened Text

  /** One detection. `kind` is the source's `type`; `confidence` is a whole
      percentage. Location, dimensions and description are display-only. */
  datatype Detection = Detection(id: string, kind: string, severity: string, confidence: int, status: string)

  /** The three detections the panel ships with. */
  const RoadDetections: seq<Detection> := [
    Detection("RD-001", "pothole", "high", 95, "verified"),
    Detection("RD-002", "crack", "medium", 87, "pending"),
    Detection("RD-003", "surface_wear", "low", 78, "monitoring")
  ]

  // ---------------------------------------------------------------------------
  // Styling lookups
  // ---------------------------------------------------------------------------

  const SeverityColors: map<string, string> :=
    map["high" := "bg-error text-error-foreground", "medium" := "bg-warning text-warning-foreground",
        "low" := "bg-success text-success-foreground"]

  /** `getSeverityColor`: the marker and popup chip of a severity. */
  function SeverityColor(severity: string): (c: string)
    ensures severity in SeverityColors ==> c == SeverityColors[severity]
    ensures severity !in SeverityColors <==> c == "bg-muted text-muted-foreground"
  {
    if severity == "high" then "bg-error text-error-foreground"
    else if severity == "medium" then "bg-warning text-warning-foreground"
    else if severity == "low" then "bg-success text-success-foreground"
    else "bg-muted text-muted-foreground"
  }

  const DetectionIcons: map<string, string> :=
    map["pothole" := "AlertTriangle", "crack" := "Zap", "surface_wear" := "Layers", "debris" := "Trash2"]

  /** `getDetectionIcon`: the marker icon of a detection type. */
  function DetectionIcon(kind: string): (icon: string)
    ensures kind in DetectionIcons ==> icon == DetectionIcons[kind]
    ensures kind !in DetectionIcons <==> icon == "Search"
  {
    if kind == "pothole" then "AlertTriangle"
    else if kind == "crack" then "Zap"
    else if kind == "surface_wear" then "Layers"
    else if kind == "debris" then "Trash2"
    else "Search"
  }

  const StatusColors: map<string, string> :=
    map["verified" := "text-error", "pending" := "text-warning", "monitoring" := "text-primary",
        "resolved" := "text-success"]

  /** `getStatusColor`: the status line of the popup. */
  function StatusColor(status: string): (c: string)
    ensures status in StatusColors ==> c == StatusColors[status]
    ensures status !in StatusColors <==> c == "text-muted-foreground"
  {
    if status == "verified" then "text-error"
    else if status == "pending" then "text-warning"
    else if status == "monitoring" then "text-primary"
    else if status == "resolved" then "text-success"
    else "text-muted-foreground"
  }

  /** `getConfidenceColor`: 90 and up is good, 70-89 is a warning, below is an error. */
  function ConfidenceColor(confidence: int): (c: string)
    ensures c == "text-success" <==> confidence >= 90
    ensures c == "text-warning" <==> 70 <= confidence < 90
    ensures c == "text-error" <==> confidence < 70
  {
    if confidence >= 90 then "text-success"
    else if confidence >= 70 then "text-warning"
    else "text-error"
  }

  /** The rank of a confidence colour, worst first. */
  function ConfidenceRank(c: string): nat {
    if c == "text-error" then 0 else if c == "text-warning" then 1 else 2
  }

  /** A more confident detection never gets a worse confidence colour. */
  lemma ConfidenceColorMonotone(a: int, b: int)
    requires a <= b
    ensures ConfidenceRank(ConfidenceColor(a)) <= ConfidenceRank(ConfidenceColor(b))
  {
  }

  /** The popup's type line: `type.replace('_', ' ')`, which replaces only the
      first underscore. */
  function TypeCaption(kind: string): (caption: string)
    ensures |caption| == |kind|
    ensures '_' !in kind ==> caption == kind
    ensures '_' in kind ==> caption[IndexOf(kind, '_')] == ' '
    ensures forall k :: 0 <= k < |kind| && k != IndexOf(kind, '_') ==> caption[k] == kind[k]
  {
    var r := ReplaceFirst(kind, '_', ' ');
    assert forall k :: 0 <= k < |kind| && k != IndexOf(kind, '_') ==> r[k] == kind[k];
    r
  }

  // ---------------------------------------------------------------------------
  // Confidence badge
  // ---------------------------------------------------------------------------

  /** `Math.round(confidence / 10)`: the badge digit. JavaScript rounds halves
      up, towards positive infinity, so this is `floor(confidence / 10 + 1/2)`. */
  function BadgeDigit(confidence: int): (d: int)
    ensures d * 10 - 5 <= confidence < d * 10 + 5
  {
    (confidence + 5) / 10
  }

  /** The badge digit is `Math.round` of the exact quotient, taken over the reals. */
  lemma BadgeDigitIsJsRound(confidence: int)
    ensures BadgeDigit(confidence) == ((confidence as real) / 10.0 + 0.5).Floor
  {
    var d := BadgeDigit(confidence);
    var x := (confidence as real) / 10.0 + 0.5;
    assert x == ((confidence + 5) as real) / 10.0;
    assert (d as real) <= x < (d as real) + 1.0 by {
      assert d * 10 <= confidence + 5 < d * 10 + 10;
      assert (d * 10) as real <= (confidence + 5) as real < (d * 10 + 10) as real;
    }
  }

  /** The badge never contradicts the colour: a green badge reads 9 or 10, an
      amber one 7 to 9, a red one at most 7. */
  lemma BadgeAgreesWithColor(confidence: int)
    requires 0 <= confidence <= 100
    ensures ConfidenceColor(confidence) == "text-success" ==> 9 <= BadgeDigit(confidence) <= 10
    ensures ConfidenceColor(confidence) == "text-warning" ==> 7 <= BadgeDigit(confidence) <= 9
    ensures ConfidenceColor(confidence) == "text-error" ==> 0 <= BadgeDigit(confidence) <= 7
  {
  }

  // ---------------------------------------------------------------------------
  // Markers and the popup
  // ---------------------------------------------------------------------------

  /** Marker positions, in percent: the first marker at (15, 25) and each
      next one 28 further right and 12 further down. */
  function MarkerPosition(index: nat): (p: (int, int))
    ensures p == (15 + 28 * index, 25 + 12 * index)
    ensures forall j: nat :: j < index ==> MarkerPosition(j).0 < p.0 && MarkerPosition(j).1 < p.1
    decreases index
  {
    if index == 0 then (15, 25)
    else
      var q := MarkerPosition(index - 1);
      (q.0 + 28, q.1 + 12)
  }

  /** The popup of a marker is open when the selected detection has its id. */
  function PopupOpen(selected: Option<Detection>, d: Detection): (open: bool)
    ensures selected.None? ==> !open
    ensures selected.Some? ==> (open <==> selected.value.id == d.id)
  {
    selected.Some? && selected.value.id == d.id
  }

  /** Clicking a marker selects its detection, so its popup opens. */
  function ClickMarker(d: Detection): (selected: Option<Detection>)
    ensures PopupOpen(selected, d)
  {
    Some(d)
  }

  /** With distinct ids, at most one popup is open at a time. */
  lemma AtMostOnePopup(detections: seq<Detection>, selected: Option<Detection>)
    requires forall a, b :: 0 <= a < b < |detections| ==> detections[a].id != detections[b].id
    ensures forall i, j ::
              (0 <= i < |detections| && 0 <= j < |detections| &&
               PopupOpen(selected, detections[i]) && PopupOpen(selected, detections[j])) ==> i == j
  {
  }

  /** The shipped detections have distinct ids. */
  lemma ShippedIdsDistinct()
    ensures forall a, b :: 0 <= a < b < |RoadDetections| ==> RoadDetections[a].id != RoadDetections[b].id
  {
    assert RoadDetections[0].id[5] == '1' && RoadDetections[1].id[5] == '2' && RoadDetections[2].id[5] == '3';
  }

  // ---------------------------------------------------------------------------
  // Scanning
  // ---------------------------------------------------------------------------

  /** `isScanning` together with the number of 3-second timers still pending. */
  datatype ScanState = ScanState(scanning: bool, pendingTimers: nat)

  const InitialScan := ScanState(false, 0)

  /** The button is `disabled={isScanning}`. */
  function ButtonDisabled(s: ScanState): (disabled: bool)
    ensures ScanInvariant(s) ==> (disabled <==> s.pendingTimers == 1)
  {
    s.scanning
  }

  /** What can happen: a click on the button, or a pending timer firing. */
  datatype ScanEvent = Click | TimerFires

  /** `startScanning` on an enabled click (a disabled button ignores it);
      a firing timer sets `isScanning` back to false. */
  function ScanStep(s: ScanState, e: ScanEvent): (t: ScanState)
    ensures e == Click && !ButtonDisabled(s) ==> t.scanning && t.pendingTimers == s.pendingTimers + 1
    ensures e == Click && ButtonDisabled(s) ==> t == s
    ensures e == TimerFires && s.pendingTimers > 0 ==> !t.scanning && t.pendingTimers == s.pendingTimers - 1
    ensures e == TimerFires && s.pendingTimers == 0 ==> t == s
  {
    match e
    case Click => if s.scanning then s else ScanState(true, s.pendingTimers + 1)
    case TimerFires => if s.pendingTimers == 0 then s else ScanState(false, s.pendingTimers - 1)
  }

  /** The panel shows "Scanning..." exactly while a timer is pending, and there
      is never more than one: the disabled button keeps scans from overlapping. */
  predicate ScanInvariant(s: ScanState) {
    s.pendingTimers <= 1 && (s.scanning <==> s.pendingTimers == 1)
  }

  function Run(s: ScanState, events: seq<ScanEvent>): ScanState
    decreases |events|
  {
    if |events| == 0 then s else Run(ScanStep(s, events[0]), events[1..])
  }

  /** From the initial state, any sequence of clicks and timers keeps the invariant. */
  lemma {:induction false} ScansNeverOverlap(s: ScanState, events: seq<ScanEvent>)
    requires ScanInvariant(s)
    ensures ScanInvariant(Run(s, events))
    decreases |events|
  {
    if |events| > 0 {
      ScansNeverOverlap(ScanStep(s, events[0]), events[1..]);
    }
  }
}
