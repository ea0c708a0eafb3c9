/** The KPI figures of the infrastructure asset page and the condition
    threshold slider that drives one of them. */
module AssetDashboard {
  import opened ListPipeline
  import opened Text
  import MaintenancePriorityQueue

  /** An asset as the KPIs see it; `kind` is the source's `type`. Name,
      location, dates, cost and coordinates are display-only. */
  datatype Asset = Asset(id: string, kind: string, conditionScore: int)

  type Task = MaintenancePriorityQueue.Task

  /** The figures on the KPI cards (budget utilization, a floating-point
      ratio, is not modelled). */
  datatype Kpis = Kpis(totalAssets: nat, maintenanceBacklog: nat, predictedFailures: nat)

  /** The slider starts at 60 and spans 0..100. */
  const InitialThreshold: int := 60
  const ThresholdMin: int := 0
  const ThresholdMax: int := 100

  function InBacklog(t: Task): bool {
    t.status == "overdue" || t.status == "scheduled"
  }

  function Below(threshold: int): Asset -> bool {
    (a: Asset) => a.conditionScore < threshold
  }

  /** `predictedFailures`: assets whose condition is strictly below the threshold. */
  function PredictedFailures(assets: seq<Asset>, threshold: int): (n: nat)
    ensures n <= |assets|
    ensures n == 0 <==> forall k :: 0 <= k < |assets| ==> assets[k].conditionScore >= threshold
  {
    CountZeroIff(assets, Below(threshold));
    Count(assets, Below(threshold))
  }

  /** The three counts of the KPI row. */
  function ComputeKpis(assets: seq<Asset>, tasks: seq<Task>, threshold: int): (k: Kpis)
    ensures k.totalAssets == |assets|
    ensures k.maintenanceBacklog == Count(tasks, InBacklog) <= |tasks|
    ensures k.predictedFailures == PredictedFailures(assets, threshold) <= k.totalAssets
  {
    Kpis(|assets|, Count(tasks, InBacklog), PredictedFailures(assets, threshold))
  }

  /** The backlog is the overdue tab's count plus the scheduled tab's count
      of the maintenance queue fed with the same tasks. */
  lemma BacklogIsOverduePlusScheduled(assets: seq<Asset>, tasks: seq<Task>, threshold: int)
    ensures var tabs := MaintenancePriorityQueue.Tabs(tasks);
            ComputeKpis(assets, tasks, threshold).maintenanceBacklog == tabs[1].count + tabs[2].count
  {
    CountDisjointUnion(tasks, MaintenancePriorityQueue.HasStatus("overdue"),
                       MaintenancePriorityQueue.HasStatus("scheduled"), InBacklog);
  }

  /** Raising the threshold never lowers the number of predicted failures. */
  lemma {:induction false} PredictedFailuresMonotone(assets: seq<Asset>, t1: int, t2: int)
    requires t1 <= t2
    ensures PredictedFailures(assets, t1) <= PredictedFailures(assets, t2)
  {
    CountMonotone(assets, Below(t1), Below(t2));
  }

  /** At threshold 0 no asset with a non-negative score is predicted to fail;
      past every score, all are. */
  lemma PredictedFailuresExtremes(assets: seq<Asset>, threshold: int)
    requires forall k :: 0 <= k < |assets| ==> 0 <= assets[k].conditionScore <= 100
    ensures PredictedFailures(assets, 0) == 0
    ensures threshold > 100 ==> PredictedFailures(assets, threshold) == |assets|
  {
    if threshold > 100 {
      CountAll(assets, Below(threshold));
    }
  }

  lemma {:induction false} CountAll(assets: seq<Asset>, p: Asset -> bool)
    requires forall k :: 0 <= k < |assets| ==> p(assets[k])
    ensures Count(assets, p) == |assets|
    decreases |assets|
  {
    if |assets| > 0 {
      CountAll(assets[1..], p);
    }
  }

  /** The page's eight assets. */
  const PageAssets: seq<Asset> := [
    Asset("asset-001", "Bridge", 85), Asset("asset-002", "Road", 72),
    Asset("asset-003", "Traffic Signal", 45), Asset("asset-004", "Road Signs", 91),
    Asset("asset-005", "Infrastructure", 68), Asset("asset-006", "Bridge", 78),
    Asset("asset-007", "Road", 52), Asset("asset-008", "Traffic Signal", 88)
  ]

  /** The eight assets of the page at the initial threshold: the scores 45 and
      52 are below 60, so two failures are predicted; 85 is not counted. */
  lemma InitialPredictedFailures()
    ensures PredictedFailures(PageAssets, InitialThreshold) == 2
  {
  }

  /** `parseInt(e.target.value)` on the range input: the slider reports its
      position 0..100 as a decimal string, and parsing gives the position back,
      so the threshold always stays within the slider's range. */
  function ThresholdFromSlider(position: nat): (t: int)
    requires position <= 100
    ensures t == position
    ensures ThresholdMin <= t <= ThresholdMax
  {
    ParseNatToString(position);
    ParseNat(NatToString(position))
  }
}
