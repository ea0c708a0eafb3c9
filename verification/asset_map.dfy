/** The asset map of the asset page: at most eight markers on a 4-by-2 grid,
    coloured by a three-band condition scale, and the selected-asset panel. */
module AssetMap {
  import opened ListPipeline
  import opened Wrappers
  import AssetConditionMatrix
  import AssetDashboard

  type Asset = AssetDashboard.Asset

  /** `getConditionColor` of the map: good 80 and up, fair 60-79, poor below 60. */
  function ConditionColor(score: int): (c: string)
    ensures c == "bg-success" <==> score >= 80
    ensures c == "bg-warning" <==> 60 <= score < 80
    ensures c == "bg-error" <==> score < 60
  {
    if score >= 80 then "bg-success"
    else if score >= 60 then "bg-warning"
    else "bg-error"
  }

  /** The map and the condition matrix colour a score alike except below 40,
      where the matrix has its extra "destructive" band. */
  lemma AgreesWithMatrixFrom40(score: int)
    ensures ConditionColor(score) == AssetConditionMatrix.ConditionColor(score) <==> score >= 40
  {
  }

  /** A marker: the asset and its `left`/`top` offsets, in percent. */
  datatype Marker = Marker(asset: Asset, left: int, top: int)

  /** `assets.slice(0, 8).map((asset, index) => ...)`: marker `index` sits at
      left `20 + (index % 4) * 20` and top `30 + floor(index / 4) * 30`. */
  function Markers(assets: seq<Asset>): (r: seq<Marker>)
    ensures |r| == if |assets| < 8 then |assets| else 8
    ensures forall i :: 0 <= i < |r| ==> r[i].asset == assets[i]
    ensures forall i :: 0 <= i < |r| ==> 20 <= r[i].left <= 80 && 30 <= r[i].top <= 60
    ensures forall i :: 0 <= i < |r| ==> r[i].left == 20 + (i % 4) * 20 && r[i].top == 30 + (i / 4) * 30
  {
    var first := Take(assets, 8);
    seq(|first|, i requires 0 <= i < |first| => Marker(first[i], 20 + (i % 4) * 20, 30 + (i / 4) * 30))
  }

  /** No two markers are drawn on top of each other. */
  lemma MarkersDistinct(assets: seq<Asset>)
    ensures var r := Markers(assets);
            forall i, j :: 0 <= i < j < |r| ==> (r[i].left, r[i].top) != (r[j].left, r[j].top)
  {
    var r := Markers(assets);
    forall i, j | 0 <= i < j < |r|
      ensures (r[i].left, r[i].top) != (r[j].left, r[j].top)
    {
      assert r[i].left == 20 + (i % 4) * 20 && r[i].top == 30 + (i / 4) * 30;
      assert r[j].left == 20 + (j % 4) * 20 && r[j].top == 30 + (j / 4) * 30;
      assert i == (i / 4) * 4 + i % 4 && j == (j / 4) * 4 + j % 4;
    }
  }

  /** `handleAssetClick(asset)`: the panel shows the clicked asset and the
      same asset is handed to `onAssetSelect`. */
  function ClickAsset(asset: Asset): (r: (Option<Asset>, Asset))
    ensures r.0 == Some(r.1) && r.1 == asset
  {
    (Some(asset), asset)
  }

  /** The close button empties the panel: `setSelectedAsset(null)`. */
  function CloseInfo(selected: Option<Asset>): (r: Option<Asset>)
    ensures r.None?
  {
    None
  }
}
