/** The congestion hotspot list of the traffic analytics page: the severity
    chip of a hotspot, its congestion bar, and the rank shown beside it. */
module CongestionHotspots {

  /** One hotspot. `congestionLevel` is a whole percentage; location, delay,
      speed and volume are display-only. */
  datatype Hotspot = Hotspot(id: string, severity: string, congestionLevel: int)

  // ---------------------------------------------------------------------------
  // Severity chip
  // ---------------------------------------------------------------------------

  const SeverityColors: map<string, string> :=
    map["critical" := "text-error", "high" := "text-warning", "medium" := "text-accent", "low" := "text-success"]

  /** `getSeverityColor`. */
  function SeverityColor(severity: string): (c: string)
    ensures severity in SeverityColors ==> c == SeverityColors[severity]
    ensures severity !in SeverityColors <==> c == "text-muted-foreground"
  {
    if severity == "critical" then "text-error"
    else if severity == "high" then "text-warning"
    else if severity == "medium" then "text-accent"
    else if severity == "low" then "text-success"
    else "text-muted-foreground"
  }

  const SeverityBgs: map<string, string> :=
    map["critical" := "bg-error/10", "high" := "bg-warning/10", "medium" := "bg-accent/10", "low" := "bg-success/10"]

  /** `getSeverityBg`. */
  function SeverityBg(severity: string): (c: string)
    ensures severity in SeverityBgs ==> c == SeverityBgs[severity]
    ensures severity !in SeverityBgs <==> c == "bg-muted/10"
  {
    if severity == "critical" then "bg-error/10"
    else if severity == "high" then "bg-warning/10"
    else if severity == "medium" then "bg-accent/10"
    else if severity == "low" then "bg-success/10"
    else "bg-muted/10"
  }

  const SeverityIcons: map<string, string> :=
    map["critical" := "AlertTriangle", "high" := "AlertCircle", "medium" := "Clock", "low" := "CheckCircle"]

  /** `getSeverityIcon`. */
  function SeverityIcon(severity: string): (icon: string)
    ensures severity in SeverityIcons ==> icon == SeverityIcons[severity]
    ensures severity !in SeverityIcons <==> icon == "Circle"
  {
    if severity == "critical" then "AlertTriangle"
    else if severity == "high" then "AlertCircle"
    else if severity == "medium" then "Clock"
    else if severity == "low" then "CheckCircle"
    else "Circle"
  }

  /** For a known severity the chip's text tone and its background name the
      same colour: the background is the text colour's `bg-…/10` variant. (The
      fallbacks differ: `text-muted-foreground` against `bg-muted/10`.) */
  lemma ChipTonesAgree(severity: string)
    ensures severity in SeverityColors <==> severity in SeverityBgs
    ensures severity in SeverityColors ==> SeverityColor(severity)[5..] + "/10" == SeverityBg(severity)[3..]
  {
    if severity == "critical" {
      assert "text-error"[5..] + "/10" == "bg-error/10"[3..];
    } else if severity == "high" {
      assert "text-warning"[5..] + "/10" == "bg-warning/10"[3..];
    } else if severity == "medium" {
      assert "text-accent"[5..] + "/10" == "bg-accent/10"[3..];
    } else if severity == "low" {
      assert "text-success"[5..] + "/10" == "bg-success/10"[3..];
    }
  }

  // ---------------------------------------------------------------------------
  // Congestion bar
  // ---------------------------------------------------------------------------

  /** The bar colour of a congestion level: 80 and up, 60-79, 40-59, below 40. */
  function BarColor(level: int): (c: string)
    ensures c == "bg-error" <==> level >= 80
    ensures c == "bg-warning" <==> 60 <= level < 80
    ensures c == "bg-accent" <==> 40 <= level < 60
    ensures c == "bg-success" <==> level < 40
  {
    if level >= 80 then "bg-error"
    else if level >= 60 then "bg-warning"
    else if level >= 40 then "bg-accent"
    else "bg-success"
  }

  /** The rank of a bar colour, calmest first. */
  function BarRank(c: string): nat {
    if c == "bg-success" then 0 else if c == "bg-accent" then 1 else if c == "bg-warning" then 2 else 3
  }

  /** More congestion never draws a calmer bar. */
  lemma BarColorMonotone(a: int, b: int)
    requires a <= b
    ensures BarRank(BarColor(a)) <= BarRank(BarColor(b))
  {
  }

  // ---------------------------------------------------------------------------
  // Rows
  // ---------------------------------------------------------------------------

  /** A rendered row: its rank, the hotspot, the bar colour and the bar width in percent. */
  datatype Row = Row(rank: nat, hotspot: Hotspot, bar: string, width: int)

  /** `hotspots.map((hotspot, index) => ...)`: ranks follow the order the
      hotspots arrive in, starting at 1; the bar is as wide as the level. */
  function Rows(hotspots: seq<Hotspot>): (r: seq<Row>)
    ensures |r| == |hotspots|
    ensures forall i :: 0 <= i < |r| ==> r[i].hotspot == hotspots[i] && r[i].rank == i + 1
    ensures forall i :: 0 <= i < |r| ==> r[i].width == hotspots[i].congestionLevel
    ensures forall i :: 0 <= i < |r| ==> r[i].bar == BarColor(hotspots[i].congestionLevel)
  {
    seq(|hotspots|, i requires 0 <= i < |hotspots| =>
      Row(i + 1, hotspots[i], BarColor(hotspots[i].congestionLevel), hotspots[i].congestionLevel))
  }

  /** The ranks are exactly 1, 2, …, n: every number appears once and none is skipped. */
  lemma RanksAreOneToN(hotspots: seq<Hotspot>, k: int)
    requires 1 <= k <= |hotspots|
    ensures var r := Rows(hotspots);
            (exists i :: 0 <= i < |r| && r[i].rank == k) &&
            (forall i, j :: 0 <= i < |r| && 0 <= j < |r| && r[i].rank == r[j].rank ==> i == j)
  {
    var r := Rows(hotspots);
    assert r[k - 1].rank == k;
  }

  /** The ranking does not re-sort: a hotspot listed first is ranked first
      even when a later one is more congested. */
  lemma RankIgnoresCongestion()
    ensures var r := Rows([Hotspot("a", "low", 10), Hotspot("b", "critical", 95)]);
            r[0].rank == 1 && r[0].hotspot.congestionLevel < r[1].hotspot.congestionLevel
  {
  }
}
