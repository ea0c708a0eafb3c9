/** The condition heat map of the asset page: one coloured cell per monthly
    score, four score bands, and maintenance recommendations for the first
    assets. */
module AssetConditionMatrix {
  import opened ListPipeline

  /** One row of `conditionData`: the asset, its monthly scores and its trend. */
  datatype ConditionRow = ConditionRow(id: string, name: string, monthlyScores: seq<int>, trend: string)

  /** `getConditionColor`: 80 and up, 60-79, 40-59 and below 40, the ranges
      the legend prints. Every score falls in exactly one band. */
  function ConditionColor(score: int): (c: string)
    ensures c == "bg-success" <==> score >= 80
    ensures c == "bg-warning" <==> 60 <= score < 80
    ensures c == "bg-error" <==> 40 <= score < 60
    ensures c == "bg-destructive" <==> score < 40
  {
    if score >= 80 then "bg-success"
    else if score >= 60 then "bg-warning"
    else if score >= 40 then "bg-error"
    else "bg-destructive"
  }

  /** How good a band is: success 3, warning 2, error 1, destructive 0. */
  function BandRank(c: string): nat {
    if c == "bg-success" then 3
    else if c == "bg-warning" then 2
    else if c == "bg-error" then 1
    else 0
  }

  /** A higher score never lands in a worse band. */
  lemma ConditionColorMonotone(s: int, t: int)
    requires s <= t
    ensures BandRank(ConditionColor(s)) <= BandRank(ConditionColor(t))
  {
  }

  /** The cells of the grid: one per monthly score of each asset, coloured by
      that score's band. */
  function Cells(data: seq<ConditionRow>): (grid: seq<seq<string>>)
    ensures |grid| == |data|
    ensures forall i :: 0 <= i < |data| ==> |grid[i]| == |data[i].monthlyScores|
    ensures forall i, m :: 0 <= i < |data| && 0 <= m < |data[i].monthlyScores| ==>
              grid[i][m] == ConditionColor(data[i].monthlyScores[m])
    ensures forall i, m :: 0 <= i < |data| && 0 <= m < |data[i].monthlyScores| ==>
              (grid[i][m] == "bg-success" <==> data[i].monthlyScores[m] >= 80)
  {
    seq(|data|, i requires 0 <= i < |data| =>
      seq(|data[i].monthlyScores|, m requires 0 <= m < |data[i].monthlyScores| =>
        ConditionColor(data[i].monthlyScores[m])))
  }

  /** Icon, text and colour of a recommendation. */
  datatype Recommendation = Recommendation(icon: string, text: string, color: string)

  /** `getPredictiveRecommendation`: a declining trend asks for preventive
      maintenance, a critical one for immediate attention, anything else is
      reported stable. */
  function PredictiveRecommendation(trend: string): (r: Recommendation)
    ensures trend == "declining" ==> r == Recommendation("TrendingDown", "Schedule preventive maintenance", "text-warning")
    ensures trend == "critical" ==> r == Recommendation("AlertTriangle", "Immediate attention required", "text-error")
    ensures r.text == "Condition stable" <==> trend != "declining" && trend != "critical"
    ensures r.text == "Condition stable" ==> r == Recommendation("TrendingUp", "Condition stable", "text-success")
  {
    if trend == "declining" then Recommendation("TrendingDown", "Schedule preventive maintenance", "text-warning")
    else if trend == "critical" then Recommendation("AlertTriangle", "Immediate attention required", "text-error")
    else Recommendation("TrendingUp", "Condition stable", "text-success")
  }

  /** `conditionData.slice(0, 3).map(...)`: recommendations for the first
      three assets only, in input order. */
  function Recommendations(data: seq<ConditionRow>): (r: seq<(string, Recommendation)>)
    ensures |r| == if |data| < 3 then |data| else 3
    ensures forall k :: 0 <= k < |r| ==> r[k].0 == data[k].id && r[k].1 == PredictiveRecommendation(data[k].trend)
  {
    var first := Take(data, 3);
    seq(|first|, k requires 0 <= k < |first| => (first[k].id, PredictiveRecommendation(first[k].trend)))
  }
}
