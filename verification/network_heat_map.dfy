/** The layer controls of the network heat map: toggling overlay layers and
    the legend that lists the active ones. */
module NetworkHeatMap {
  import opened ListPipeline
  import opened Toggles
  import opened Wrappers

  /** An overlay layer with its legend icon, label and colour. */
  datatype LayerOption = LayerOption(id: string, caption: string, icon: string, color: string)

  const LayerOptions: seq<LayerOption> := [
    LayerOption("traffic", "Traffic Density", "Car", "text-blue-400"),
    LayerOption("incidents", "Active Incidents", "AlertTriangle", "text-red-400"),
    LayerOption("weather", "Weather Impact", "Cloud", "text-yellow-400"),
    LayerOption("maintenance", "Maintenance Zones", "Construction", "text-orange-400"),
    LayerOption("cameras", "Traffic Cameras", "Camera", "text-green-400"),
    LayerOption("sensors", "IoT Sensors", "Radio", "text-purple-400")
  ]

  /** The map opens with traffic and incidents shown. */
  const InitialLayers: seq<string> := ["traffic", "incidents"]

  /** `toggleLayer(layerId)`: an active layer is removed (every occurrence),
      an inactive one is appended at the end. */
  function ToggleLayer(active: seq<string>, layerId: string): (r: seq<string>)
    ensures layerId in active ==> layerId !in r && IsExactSelection(r, active, Other(layerId))
    ensures layerId !in active ==> r == active + [layerId]
  {
    ToggleMember(active, layerId)
  }

  /** One legend entry: `layerOptions.find(l => l.id === layerId)`, missing
      for an id no option has. */
  function LegendEntry(layerId: string): (e: Option<LayerOption>)
    ensures e.Some? ==> e.value in LayerOptions && e.value.id == layerId
    ensures e.None? <==> forall k :: 0 <= k < |LayerOptions| ==> LayerOptions[k].id != layerId
  {
    Find(LayerOptions, (l: LayerOption) => l.id == layerId)
  }

  /** The legend: one entry per active layer, in `activeLayers` order. */
  function Legend(active: seq<string>): (r: seq<Option<LayerOption>>)
    ensures |r| == |active|
    ensures forall k :: 0 <= k < |r| ==> r[k] == LegendEntry(active[k])
  {
    seq(|active|, k requires 0 <= k < |active| => LegendEntry(active[k]))
  }

  /** Starting from the initial layers, the legend shows traffic then incidents. */
  lemma InitialLegend()
    ensures Legend(InitialLayers) == [Some(LayerOptions[0]), Some(LayerOptions[1])]
  {
  }

  /** Toggling on a known layer adds its option at the end of the legend;
      toggling one off drops exactly its entries. */
  lemma LegendFollowsToggle(active: seq<string>, layerId: string)
    ensures layerId !in active ==> Legend(ToggleLayer(active, layerId)) == Legend(active) + [LegendEntry(layerId)]
    ensures layerId in active ==> forall k :: 0 <= k < |Legend(ToggleLayer(active, layerId))| ==>
              Legend(ToggleLayer(active, layerId))[k] != LegendEntry(layerId) || LegendEntry(layerId).None?
  {
    if layerId in active {
      var r := ToggleLayer(active, layerId);
      forall k | 0 <= k < |r|
        ensures LegendEntry(r[k]) != LegendEntry(layerId) || LegendEntry(layerId).None?
      {
        assert r[k] != layerId;
      }
    }
  }
}
