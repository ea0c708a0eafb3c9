/** The road-segment picker of the traffic analytics page: a toggle per
    segment, Select All and Clear All. */
module FilterControls {
  import opened Toggles

  /** A road segment; `kind` is the source's `type`. */
  datatype Segment = Segment(id: string, name: string, kind: string)

  const RoadSegments: seq<Segment> := [
    Segment("highway-101", "Highway 101", "highway"),
    Segment("interstate-95", "Interstate 95", "interstate"),
    Segment("route-66", "Route 66", "highway"),
    Segment("main-street", "Main Street", "arterial"),
    Segment("broadway", "Broadway Ave", "arterial"),
    Segment("oak-street", "Oak Street", "local")
  ]

  /** The page opens with three segments selected. */
  const InitialSelection: seq<string> := ["highway-101", "interstate-95", "main-street"]

  /** `handleSegmentToggle(segmentId)`: see `ToggleMember`. */
  function HandleSegmentToggle(selected: seq<string>, segmentId: string): (r: seq<string>)
    ensures segmentId in r <==> segmentId !in selected
    ensures forall id :: id != segmentId ==> (id in r <==> id in selected)
    ensures segmentId !in selected ==> r == selected + [segmentId]
  {
    ToggleMember(selected, segmentId)
  }

  /** Select All: `roadSegments.map(s => s.id)`, every segment once, in
      declared order. */
  function SelectAll(): (r: seq<string>)
    ensures |r| == |RoadSegments| == 6
    ensures forall k :: 0 <= k < |r| ==> r[k] == RoadSegments[k].id
    ensures NoDup(r)
  {
    var r := seq(|RoadSegments|, k requires 0 <= k < |RoadSegments| => RoadSegments[k].id);
    assert r == ["highway-101", "interstate-95", "route-66", "main-street", "broadway", "oak-street"];
    assert NoDup(r[5..]) && NoDup(r[4..]) && NoDup(r[3..]) && NoDup(r[2..]) && NoDup(r[1..]);
    r
  }

  /** Clear All: `[]`. */
  function ClearAll(): (r: seq<string>)
    ensures forall id :: id !in r
  {
    []
  }

  /** From the full selection, a toggle deselects that segment and leaves the
      other five; after Clear All, a toggle selects just that segment. */
  lemma ToggleAfterBulkActions(segmentId: string)
    ensures segmentId in SelectAll() ==> |HandleSegmentToggle(SelectAll(), segmentId)| == 5
    ensures HandleSegmentToggle(ClearAll(), segmentId) == [segmentId]
  {
    ToggleLength(SelectAll(), segmentId);
  }

  /** The initial selection names three distinct, declared segments. */
  lemma InitialSelectionDeclared()
    ensures NoDup(InitialSelection)
    ensures forall id :: id in InitialSelection ==> id in SelectAll()
  {
    assert NoDup(InitialSelection[2..]) && NoDup(InitialSelection[1..]);
    var all := SelectAll();
    assert all[0] == "highway-101" && all[1] == "interstate-95" && all[3] == "main-street";
  }
}
