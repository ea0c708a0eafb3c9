/** The header of the emergency page: the alert-level badge and the settings
    button that switches the level. */
module EmergencyHeader {

  /** The level the header opens with. */
  const InitialAlertLevel: string := "moderate"

  const AlertLevelColors: map<string, string> :=
    map["low" := "bg-success text-success-foreground", "moderate" := "bg-warning text-warning-foreground",
        "high" := "bg-error text-error-foreground"]

  /** `getAlertLevelColor`. */
  function AlertLevelColor(level: string): (c: string)
    ensures level in AlertLevelColors ==> c == AlertLevelColors[level]
    ensures level !in AlertLevelColors <==> c == "bg-muted text-muted-foreground"
  {
    if level == "low" then "bg-success text-success-foreground"
    else if level == "moderate" then "bg-warning text-warning-foreground"
    else if level == "high" then "bg-error text-error-foreground"
    else "bg-muted text-muted-foreground"
  }

  const AlertLevelIcons: map<string, string> :=
    map["low" := "CheckCircle", "moderate" := "AlertTriangle", "high" := "AlertCircle"]

  /** `getAlertLevelIcon`. */
  function AlertLevelIcon(level: string): (icon: string)
    ensures level in AlertLevelIcons ==> icon == AlertLevelIcons[level]
    ensures level !in AlertLevelIcons <==> icon == "Info"
  {
    if level == "low" then "CheckCircle"
    else if level == "moderate" then "AlertTriangle"
    else if level == "high" then "AlertCircle"
    else "Info"
  }

  /** The settings button: 'high' drops to 'low', every other level
      (including 'moderate' and anything unknown) goes to 'high'. */
  function ToggleLevel(level: string): (next: string)
    ensures next == "low" <==> level == "high"
    ensures next == "high" <==> level != "high"
  {
    if level == "high" then "low" else "high"
  }

  /** The level after `n` presses of the settings button. */
  function AfterPresses(level: string, n: nat): string
    decreases n
  {
    if n == 0 then level else ToggleLevel(AfterPresses(level, n - 1))
  }

  /** After the first press the level is 'high' or 'low' and nothing else:
      'moderate' can never come back. */
  lemma NeverModerateAgain(level: string, n: nat)
    requires n >= 1
    ensures AfterPresses(level, n) == "high" || AfterPresses(level, n) == "low"
  {
  }

  /** From the first press on the level alternates: pressing twice returns to
      the same level, pressing once changes it. */
  lemma Alternates(level: string, n: nat)
    requires n >= 1
    ensures AfterPresses(level, n + 1) != AfterPresses(level, n)
    ensures AfterPresses(level, n + 2) == AfterPresses(level, n)
  {
    NeverModerateAgain(level, n);
  }

  /** Starting from 'moderate', an odd number of presses gives 'high' and a
      positive even number gives 'low'. */
  lemma {:induction false} LevelAfterPresses(n: nat)
    requires n >= 1
    ensures AfterPresses(InitialAlertLevel, n) == (if n % 2 == 1 then "high" else "low")
    decreases n
  {
    if n > 1 {
      LevelAfterPresses(n - 1);
    }
  }
}
