/** The comparative analysis panel of the traffic analytics page: the two
    comparison-mode buttons, the unit written after a tooltip value, and the
    summary cards with their signed, coloured changes. */
module ComparativeAnalysis {
  import opened Wrappers
  import opened Text
  import opened ListPipeline

  // ---------------------------------------------------------------------------
  // Comparison mode
  // ---------------------------------------------------------------------------

  /** The values the two buttons hand to `onModeChange`, left to right. */
  const ModeButtons: seq<string> := ["period", "year"]

  /** A button is highlighted when the current mode is its value. */
  function HighlightedButtons(comparisonMode: string): (r: seq<bool>)
    ensures |r| == |ModeButtons|
    ensures forall k :: 0 <= k < |r| ==> (r[k] <==> ModeButtons[k] == comparisonMode)
  {
    [comparisonMode == "period", comparisonMode == "year"]
  }

  /** Clicking a button emits its value, after which that button, and only
      it, is highlighted. */
  lemma ClickHighlightsOnlyThatButton(k: int)
    requires 0 <= k < |ModeButtons|
    ensures var r := HighlightedButtons(ModeButtons[k]);
            r[k] && forall j :: 0 <= j < |r| && j != k ==> !r[j]
  {
  }

  // ---------------------------------------------------------------------------
  // Tooltip
  // ---------------------------------------------------------------------------

  /** The series keys of the two charts: volumes in the first, efficiencies
      in the second. */
  const VolumeKeys: seq<string> := ["currentVolume", "previousVolume"]
  const EfficiencyKeys: seq<string> := ["currentEfficiency", "previousEfficiency"]

  /** The unit after a tooltip value, AS WRITTEN: '%' for a series whose key
      includes 'efficiency' (case-sensitive), ' vehicles' for every other
      series, including one without a key. */
  function TooltipUnit(dataKey: Option<string>): (unit: string)
    ensures unit == "%" <==> dataKey.Some? && Contains(dataKey.value, "efficiency")
    ensures unit != "%" ==> unit == " vehicles"
  {
    if dataKey.Some? && Contains(dataKey.value, "efficiency") then "%" else " vehicles"
  }

  /** The efficiency keys are spelled with a capital E, so the written test
      never matches them: efficiency percentages are labelled as vehicles. */
  lemma EfficiencyTooltipSaysVehicles(k: int)
    requires 0 <= k < |EfficiencyKeys|
    ensures TooltipUnit(Some(EfficiencyKeys[k])) == " vehicles"
  {
    NoMatchingPairNotContained(EfficiencyKeys[k], "efficiency");
  }

  /** The evidently intended unit: '%' for a key that names efficiency in
      either spelling, ' vehicles' otherwise. */
  function TooltipUnitCorrected(dataKey: Option<string>): (unit: string)
    ensures unit == "%" <==> dataKey.Some? && (Contains(dataKey.value, "efficiency") || Contains(dataKey.value, "Efficiency"))
    ensures unit != "%" ==> unit == " vehicles"
  {
    if dataKey.Some? && (Contains(dataKey.value, "efficiency") || Contains(dataKey.value, "Efficiency")) then "%"
    else " vehicles"
  }

  /** With the correction the efficiency series read as percentages ... */
  lemma CorrectedEfficiencyIsPercent(k: int)
    requires 0 <= k < |EfficiencyKeys|
    ensures TooltipUnitCorrected(Some(EfficiencyKeys[k])) == "%"
  {
    var e := EfficiencyKeys[k];
    assert e[|e| - 10..] == "Efficiency";
    assert StartsWith(e[|e| - 10..], "Efficiency");
  }

  /** ... while the volume series keep reading as vehicles. */
  lemma CorrectedVolumeIsVehicles(k: int)
    requires 0 <= k < |VolumeKeys|
    ensures TooltipUnitCorrected(Some(VolumeKeys[k])) == " vehicles"
  {
    VolumeKeyUnit(VolumeKeys[k]);
  }

  /** A key in which no 'e' or 'E' is followed by 'f' cannot mention
      efficiency in either spelling, so it reads as vehicles. */
  lemma VolumeKeyUnit(key: string)
    requires forall i :: 0 <= i < |key| - 1 ==> !(key[i] in "eE" && key[i + 1] == 'f')
    ensures TooltipUnitCorrected(Some(key)) == " vehicles"
  {
    NoMatchingPairNotContained(key, "efficiency");
    NoMatchingPairNotContained(key, "Efficiency");
  }

  /** The correction changes nothing for a key the written test already
      matched, nor for a key that mentions efficiency in neither spelling. */
  lemma CorrectionOnlyAddsCapitalized(dataKey: Option<string>)
    ensures TooltipUnit(dataKey) == "%" ==> TooltipUnitCorrected(dataKey) == "%"
    ensures TooltipUnitCorrected(dataKey) != TooltipUnit(dataKey) ==>
              dataKey.Some? && Contains(dataKey.value, "Efficiency") && !Contains(dataKey.value, "efficiency")
  {
  }

  // ---------------------------------------------------------------------------
  // Summary cards
  // ---------------------------------------------------------------------------

  /** A compared segment; the changes are percentages. */
  datatype SegmentComparison = SegmentComparison(segment: string, volumeChange: real, efficiencyChange: real)

  /** A rendered change: the sign written in front of the number, the number,
      and the colour. */
  datatype ChangeBadge = ChangeBadge(sign: string, value: real, color: string)

  /** `change > 0 ? '+' : ''` and `change > 0 ? 'text-success' : 'text-error'`. */
  function Badge(change: real): (b: ChangeBadge)
    ensures b.value == change
    ensures b.sign == "+" <==> change > 0.0
    ensures b.sign != "+" ==> b.sign == ""
    ensures b.color == "text-success" <==> change > 0.0
    ensures b.color != "text-success" ==> b.color == "text-error"
  {
    if change > 0.0 then ChangeBadge("+", change, "text-success") else ChangeBadge("", change, "text-error")
  }

  /** The sign and the colour always tell the same story; in particular a
      change of exactly zero is shown in red, without a sign. */
  lemma SignAndColorAgree(change: real)
    ensures Badge(change).sign == "+" <==> Badge(change).color == "text-success"
    ensures Badge(0.0) == ChangeBadge("", 0.0, "text-error")
  {
  }

  /** A summary card: the segment and its two badges. */
  datatype Card = Card(segment: string, volume: ChangeBadge, efficiency: ChangeBadge)

  /** `data.slice(0, 3).map(...)`: cards for the first three segments, in the
      order given. */
  function Cards(data: seq<SegmentComparison>): (r: seq<Card>)
    ensures |r| == if |data| < 3 then |data| else 3
    ensures forall i :: 0 <= i < |r| ==> r[i].segment == data[i].segment
    ensures forall i :: 0 <= i < |r| ==>
              r[i].volume == Badge(data[i].volumeChange) && r[i].efficiency == Badge(data[i].efficiencyChange)
  {
    var first := Take(data, 3);
    seq(|first|, i requires 0 <= i < |first| =>
      Card(first[i].segment, Badge(first[i].volumeChange), Badge(first[i].efficiencyChange)))
  }

  /** Segments after the third never reach a card, whatever their changes. */
  lemma LaterSegmentsIgnored(data: seq<SegmentComparison>, extra: SegmentComparison)
    requires |data| >= 3
    ensures Cards(data + [extra]) == Cards(data)
  {
    var a := Cards(data + [extra]);
    var b := Cards(data);
    assert |a| == |b| == 3;
    forall i | 0 <= i < 3
      ensures a[i] == b[i]
    {
      assert (data + [extra])[i] == data[i];
    }
  }
}
