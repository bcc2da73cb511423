/** The older river pipelines: `processRiverDataSimple` (keep the in-window
    points of every way), `processRiverDataAdvanced` (the same filter, then
    end-to-end joining with a per-axis tolerance) and
    `processRiverDataReliable` (every line concatenated into one, then
    filtered). All three write ways whose nodes are inline objects. */
module GeojsonProcessor {
  import opened Common
  import opened Osm
  import SegmentMerge
  import RiverProcessor

  type Line = SegmentMerge.Line

  /** A node written inside its way: `{ id, lat, lon }`. */
  datatype InlineNode = InlineNode(id: string, lat: real, lon: real)

  /** A written way: its id (the element id, or a generated string), its
      inline nodes and its tags. */
  datatype InlineWay = InlineWay(id: Value, nodes: seq<InlineNode>, tags: Props)

  /** `coords.map((c, k) => ({ id: prefix + i + "-" + k, lat, lon }))` */
  function InlineNodes(prefix: string, i: nat, ps: seq<Point>): (r: seq<InlineNode>)
    ensures |r| == |ps|
    ensures forall k :: 0 <= k < |ps| ==> r[k] == InlineNode(Label2(prefix, i, k), ps[k].lat, ps[k].lon)
  {
    seq(|ps|, k requires 0 <= k < |ps| => InlineNode(Label2(prefix, i, k), ps[k].lat, ps[k].lon))
  }

  /** The coordinates written for a way, read back from its inline nodes. */
  function NodePoints(ns: seq<InlineNode>): (r: seq<Point>)
    ensures |r| == |ns|
  {
    seq(|ns|, k requires 0 <= k < |ns| => Point(ns[k].lon, ns[k].lat))
  }

  /** Writing points as inline nodes loses none of them. */
  lemma InlineNodesRoundTrip(prefix: string, i: nat, ps: seq<Point>)
    ensures NodePoints(InlineNodes(prefix, i, ps)) == ps
  {
  }

  // ---------------------------------------------------------------------
  // processRiverDataSimple

  /** The way written for element `e` at position `idx`, if any: its
      resolved points inside the window, when there are at least two. */
  function SimpleWay(e: Element, idx: nat, m: map<int, Point>, w: Window): (r: Option<InlineWay>)
    ensures r.Some? <==> e.Way? && |e.nodes| > 1 && |Resolve(e.nodes, m)| >= 2 && |FilterIn(Resolve(e.nodes, m), w)| >= 2
    ensures r.Some? ==> r.value.id == RiverProcessor.IdValue(e.wayId) && r.value.tags == LiftTags(e.tags)
    ensures r.Some? ==> NodePoints(r.value.nodes) == FilterIn(Resolve(e.nodes, m), w)
    ensures r.Some? ==> AllIn(NodePoints(r.value.nodes), w)
  {
    if e.Way? && |e.nodes| > 1 then
      var coords := Resolve(e.nodes, m);
      if |coords| >= 2 then
        var inside := FilterIn(coords, w);
        if |inside| >= 2 then
          InlineNodesRoundTrip("clipped-node-", idx, inside);
          Some(InlineWay(RiverProcessor.IdValue(e.wayId), InlineNodes("clipped-node-", idx, inside), LiftTags(e.tags)))
        else None
      else None
    else None
  }

  /** The ways written for the first n elements, in order. */
  function SimpleWays(es: seq<Element>, m: map<int, Point>, w: Window, n: nat): (r: seq<InlineWay>)
    requires n <= |es|
    ensures |r| <= n
    ensures forall k :: 0 <= k < |r| ==> AllIn(NodePoints(r[k].nodes), w) && |r[k].nodes| >= 2
  {
    if n == 0 then []
    else
      var s := SimpleWay(es[n - 1], n - 1, m, w);
      SimpleWays(es, m, w, n - 1) + (if s.Some? then [s.value] else [])
  }

  /** `processRiverDataSimple`: the node table, then one pass over the
      elements, each way with two or more points in the window written with
      its own id and tags and only those points. */
  method ProcessRiverDataSimple(es: seq<Element>, w: Window) returns (out: seq<InlineWay>)
    ensures out == SimpleWays(es, NodeMapOf(es), w, |es|)
    ensures forall k :: 0 <= k < |out| ==> AllIn(NodePoints(out[k].nodes), w) && |out[k].nodes| >= 2
  {
    var m := BuildNodeMap(es);
    out := [];
    var idx := 0;
    while idx < |es|
      invariant 0 <= idx <= |es|
      invariant out == SimpleWays(es, m, w, idx)
    {
      var s := SimpleWay(es[idx], idx, m, w);
      if s.Some? {
        out := out + [s.value];
      }
      idx := idx + 1;
    }
  }

  /** A way whose resolved points all lie in the window is written whole,
      with node ids `clipped-node-<position>-<k>`. */
  lemma SimpleKeepsInsideWay(e: Element, idx: nat, m: map<int, Point>, w: Window)
    requires e.Way? && |e.nodes| > 1 && |Resolve(e.nodes, m)| >= 2
    requires AllIn(Resolve(e.nodes, m), w)
    ensures SimpleWay(e, idx, m, w).Some?
    ensures SimpleWay(e, idx, m, w).value.nodes == InlineNodes("clipped-node-", idx, Resolve(e.nodes, m))
  {
    FilterInKeepsInside(Resolve(e.nodes, m), w);
  }

  /** A way with no point in the window is not written. */
  lemma SimpleDropsOutsideWay(e: Element, idx: nat, m: map<int, Point>, w: Window)
    requires e.Way?
    requires forall k :: 0 <= k < |Resolve(e.nodes, m)| ==> !InWindow(Resolve(e.nodes, m)[k], w)
    ensures SimpleWay(e, idx, m, w).None?
  {
    var coords := Resolve(e.nodes, m);
    var inside := FilterIn(coords, w);
    if |inside| > 0 {
      FilterInMembers(coords, w, inside[0]);
    }
  }

  // ---------------------------------------------------------------------
  // The line collection shared by Advanced and Reliable

  /** `turf.lineString(coords, { id, tags, type })` for a way with two or
      more listed nodes and two or more resolved points. */
  function WayLine(e: Element, m: map<int, Point>): (r: Option<Line>)
    ensures r.Some? <==> e.Way? && |e.nodes| > 1 && |Resolve(e.nodes, m)| >= 2
    ensures r.Some? ==> SegmentMerge.WellFormed(r.value) && r.value.coords == Resolve(e.nodes, m)
    ensures r.Some? ==> r.value.props == RiverProcessor.WayProps(e.wayId, e.tags, RiverProcessor.WaterwayType(e.tags))
  {
    if e.Way? && |e.nodes| > 1 && |Resolve(e.nodes, m)| >= 2 then
      Some(SegmentMerge.Line(Resolve(e.nodes, m), RiverProcessor.WayProps(e.wayId, e.tags, RiverProcessor.WaterwayType(e.tags))))
    else None
  }

  function WayLines(es: seq<Element>, m: map<int, Point>, n: nat): (r: seq<Line>)
    requires n <= |es|
    ensures |r| <= n && SegmentMerge.AllWellFormed(r)
  {
    if n == 0 then []
    else
      var l := WayLine(es[n - 1], m);
      WayLines(es, m, n - 1) + (if l.Some? then [l.value] else [])
  }

  /** The `lineStrings` loop. */
  method CollectLines(es: seq<Element>, m: map<int, Point>) returns (lines: seq<Line>)
    ensures lines == WayLines(es, m, |es|)
  {
    lines := [];
    var i := 0;
    while i < |es|
      invariant 0 <= i <= |es|
      invariant lines == WayLines(es, m, i)
    {
      var l := WayLine(es[i], m);
      if l.Some? {
        lines := lines + [l.value];
      }
      i := i + 1;
    }
  }

  /** No line is collected exactly when no way has two or more resolved points. */
  lemma {:induction false} NoLinesIffNoResolvableWay(es: seq<Element>, m: map<int, Point>, n: nat)
    requires n <= |es|
    ensures WayLines(es, m, n) == [] <==>
              forall k :: 0 <= k < n ==> WayLine(es[k], m).None?
  {
    if n > 0 {
      NoLinesIffNoResolvableWay(es, m, n - 1);
    }
  }

  // ---------------------------------------------------------------------
  // processRiverDataAdvanced

  /** The clipping loop: whatever the line-slicing library answers, each
      line keeps exactly its points inside the window, and is kept when
      two or more remain. */
  method ClipByFilter(lines: seq<Line>, w: Window) returns (out: seq<Line>)
    ensures out == FilteredLines(lines, w, |lines|)
    ensures SegmentMerge.AllWellFormed(out) && SegmentMerge.LinesIn(out, w)
  {
    out := [];
    var i := 0;
    while i < |lines|
      invariant 0 <= i <= |lines|
      invariant out == FilteredLines(lines, w, i)
    {
      var coords := FilterIn(lines[i].coords, w);
      if |coords| >= 2 {
        out := out + [SegmentMerge.Line(coords, lines[i].props)];
      }
      i := i + 1;
    }
  }

  function FilteredLines(lines: seq<Line>, w: Window, n: nat): (r: seq<Line>)
    requires n <= |lines|
    ensures |r| <= n
    ensures SegmentMerge.AllWellFormed(r) && SegmentMerge.LinesIn(r, w)
  {
    if n == 0 then []
    else
      var coords := FilterIn(lines[n - 1].coords, w);
      FilteredLines(lines, w, n - 1) + (if |coords| >= 2 then [SegmentMerge.Line(coords, lines[n - 1].props)] else [])
  }

  /** Every resolvable way's line, cut down to its points in the window. */
  function FilteredWays(es: seq<Element>, w: Window): (r: seq<Line>)
    ensures SegmentMerge.AllWellFormed(r) && SegmentMerge.LinesIn(r, w)
  {
    var lines := WayLines(es, NodeMapOf(es), |es|);
    FilteredLines(lines, w, |lines|)
  }

  const Tolerance: real := 0.0001

  function Abs(x: real): real {
    if x < 0.0 then -x else x
  }

  /** Both coordinates differ by less than 1e-4. */
  predicate AxisClose(p: Point, q: Point) {
    Abs(p.lon - q.lon) < Tolerance && Abs(p.lat - q.lat) < Tolerance
  }

  /** Per-axis closeness, and a joined line keeps the current line's
      properties only. */
  function AdvancedPolicy(): (pol: SegmentMerge.Policy)
    ensures forall p, q :: pol.close(p, q) == AxisClose(p, q)
    ensures forall a: Props, b: Props :: pol.combine(a, b) == a
  {
    SegmentMerge.Policy((p, q) => AxisClose(p, q), (a: Props, b: Props) => a)
  }

  lemma {:induction false} AxisCloseSymmetric()
    ensures SegmentMerge.Symmetric(AdvancedPolicy().close)
  {
    forall p, q ensures AdvancedPolicy().close(p, q) == AdvancedPolicy().close(q, p) {
      assert Abs(p.lon - q.lon) == Abs(q.lon - p.lon);
      assert Abs(p.lat - q.lat) == Abs(q.lat - p.lat);
    }
  }

  /** A join under this policy keeps the current line's properties and
      has one point fewer than the two lines together. */
  lemma AdvancedJoin(current: Line, other: Line)
    requires SegmentMerge.WellFormed(current) && SegmentMerge.WellFormed(other)
    requires SegmentMerge.CanJoin(current, other, AdvancedPolicy().close)
    ensures SegmentMerge.TryJoin(current, other, AdvancedPolicy()).value.props == current.props
    ensures |SegmentMerge.TryJoin(current, other, AdvancedPolicy()).value.coords| == |current.coords| + |other.coords| - 1
  {
    SegmentMerge.JoinOrder(current, other, AdvancedPolicy());
  }

  /** The tags of a written Advanced way. */
  function AdvancedTags(p: Props, i: nat): (t: Props)
    ensures t.Keys == RiverProcessor.TagsOf(p).Keys + {"waterway", "name", "merged"}
    ensures t["merged"] == Bool(true)
    ensures Truthy(Get(p, "type")) ==> t["waterway"] == p["type"]
    ensures !Truthy(Get(p, "type")) ==> t["waterway"] == Str("river")
    ensures HasTag(RiverProcessor.TagsOf(p), "name") ==> t["name"] == Str(RiverProcessor.TagsOf(p)["name"])
    ensures !HasTag(RiverProcessor.TagsOf(p), "name") ==> t["name"] == Str(Label("Unified River ", i))
    ensures forall k :: k in RiverProcessor.TagsOf(p) && k !in {"waterway", "name", "merged"} ==>
              t[k] == Str(RiverProcessor.TagsOf(p)[k])
  {
    var tags := LiftTags(RiverProcessor.TagsOf(p));
    tags + map[
      "waterway" := Or(Get(p, "type"), Str("river")),
      "name" := Or(Get(tags, "name"), Str(Label("Unified River ", i))),
      "merged" := Bool(true)]
  }

  /** The final `.filter().map()` of Advanced: way i is `unified-river-i`
      with nodes `unified-node-i-k`. */
  function AdvancedWays(ls: seq<Line>): (r: seq<InlineWay>)
    ensures |r| == |ls|
    ensures forall i :: 0 <= i < |ls| ==>
              r[i].id == Str(Label("unified-river-", i)) &&
              r[i].nodes == InlineNodes("unified-node-", i, ls[i].coords) &&
              r[i].tags == AdvancedTags(ls[i].props, i)
  {
    seq(|ls|, i requires 0 <= i < |ls| =>
      InlineWay(Str(Label("unified-river-", i)), InlineNodes("unified-node-", i, ls[i].coords), AdvancedTags(ls[i].props, i)))
  }

  /** Line ends more than 1e-4 apart on some axis, for every pair. */
  predicate AxisEndsApart(ls: seq<Line>)
    requires SegmentMerge.AllWellFormed(ls)
  {
    forall i, j :: 0 <= i < |ls| && 0 <= j < |ls| && i != j ==>
      !AxisClose(SegmentMerge.Start(ls[i]), SegmentMerge.Start(ls[j])) &&
      !AxisClose(SegmentMerge.Start(ls[i]), SegmentMerge.End(ls[j])) &&
      !AxisClose(SegmentMerge.End(ls[i]), SegmentMerge.Start(ls[j])) &&
      !AxisClose(SegmentMerge.End(ls[i]), SegmentMerge.End(ls[j]))
  }

  /** The `while (merged)` loop with the per-axis tolerance: it keeps the
      total weight and uses only the input's points, gives none iff given
      none, stays in the window, and leaves every pair of distinct segments
      with all ends outside the tolerance. */
  method MergeSegments(clipped: seq<Line>, w: Window) returns (segments: seq<Line>)
    requires SegmentMerge.AllWellFormed(clipped) && SegmentMerge.LinesIn(clipped, w)
    ensures SegmentMerge.AllWellFormed(segments) && SegmentMerge.LinesIn(segments, w)
    ensures SegmentMerge.TotalSteps(segments) == SegmentMerge.TotalSteps(clipped)
    ensures SegmentMerge.Points(segments) <= SegmentMerge.Points(clipped)
    ensures segments == [] <==> clipped == []
    ensures AxisEndsApart(segments)
  {
    segments := SegmentMerge.MergeAll(clipped, AdvancedPolicy());
    SegmentMerge.PointsStayIn(segments, clipped, w);
    AxisCloseSymmetric();
    SegmentMerge.FixpointEndpointsApart(segments, AdvancedPolicy().close);
  }

  /** `processRiverDataAdvanced`: no resolvable way gives no elements;
      otherwise the filtered lines are joined until no two ends are within
      the tolerance, and written out. */
  method ProcessRiverDataAdvanced(es: seq<Element>, w: Window) returns (out: seq<InlineWay>, segments: seq<Line>)
    ensures (forall k :: 0 <= k < |es| ==> WayLine(es[k], NodeMapOf(es)).None?) ==> out == []
    ensures SegmentMerge.AllWellFormed(segments) && SegmentMerge.LinesIn(segments, w)
    ensures SegmentMerge.TotalSteps(segments) == SegmentMerge.TotalSteps(FilteredWays(es, w))
    ensures SegmentMerge.Points(segments) <= SegmentMerge.Points(FilteredWays(es, w))
    ensures segments == [] <==> FilteredWays(es, w) == []
    ensures AxisEndsApart(segments)
    ensures out == AdvancedWays(segments)
  {
    var m := BuildNodeMap(es);
    var lines := CollectLines(es, m);
    NoLinesIffNoResolvableWay(es, m, |es|);
    assert lines == WayLines(es, NodeMapOf(es), |es|);
    if |lines| == 0 {
      assert FilteredWays(es, w) == [];
      return [], [];
    }
    var clipped := ClipByFilter(lines, w);
    assert clipped == FilteredWays(es, w);
    segments := MergeSegments(clipped, w);
    out := AdvancedWays(segments);
  }

  // ---------------------------------------------------------------------
  // processRiverDataReliable

  /** What the line-slicing calls do to the single merged line: they throw
      (the catch filters by coordinates), or `lineIntersect` with the window
      finds crossing points, or it finds none. */
  datatype SliceOutcome = SliceThrows | Crossings | NoCrossings

  /** Every line's points, one line after the other (`flatMap`). */
  function AllCoords(ls: seq<Line>): seq<Point> {
    if ls == [] then [] else ls[0].coords + AllCoords(ls[1..])
  }

  /** The merged feature: the only line, or every point in one line whose
      properties are `{ type: 'merged-river-system' }`. */
  function MergedFeature(ls: seq<Line>): (r: Line)
    requires |ls| >= 1 && SegmentMerge.AllWellFormed(ls)
    ensures |ls| == 1 ==> r == ls[0]
    ensures |ls| > 1 ==> r.coords == AllCoords(ls) && r.props == map["type" := Str("merged-river-system")]
  {
    if |ls| == 1 then ls[0]
    else SegmentMerge.Line(AllCoords(ls), map["type" := Str("merged-river-system")])
  }

  /** The tags of the written Reliable way: the feature's own properties
      spread, then `waterway` and `name`. */
  function ReliableTags(p: Props, i: nat): (t: Props)
    ensures t.Keys == p.Keys + {"waterway", "name"}
    ensures t["waterway"] == Or(Get(p, "type"), Str("river"))
    ensures Truthy(Get(p, "name")) ==> t["name"] == p["name"]
    ensures !Truthy(Get(p, "name")) ==> t["name"] == Str(Label("Unified River ", i))
    ensures forall k :: k in p && k != "waterway" && k != "name" ==> t[k] == p[k]
  {
    p + map["waterway" := Or(Get(p, "type"), Str("river")),
            "name" := Or(Get(p, "name"), Str(Label("Unified River ", i)))]
  }

  /** `processRiverDataReliable`: no resolvable way gives no elements;
      otherwise at most one way is written, holding the in-window points of
      the merged line when the slicing step does not report a miss. */
  method ProcessRiverDataReliable(es: seq<Element>, w: Window, slice: SliceOutcome) returns (out: seq<InlineWay>)
    ensures (forall k :: 0 <= k < |es| ==> WayLine(es[k], NodeMapOf(es)).None?) ==> out == []
    ensures |out| <= 1
    ensures forall k :: 0 <= k < |out| ==> AllIn(NodePoints(out[k].nodes), w) && |out[k].nodes| >= 2
    ensures var lines := WayLines(es, NodeMapOf(es), |es|);
            |out| == 1 <==> |lines| >= 1 && slice != NoCrossings && |FilterIn(MergedFeature(lines).coords, w)| >= 2
    ensures |out| == 1 ==>
              var lines := WayLines(es, NodeMapOf(es), |es|);
              |lines| >= 1 &&
              NodePoints(out[0].nodes) == FilterIn(MergedFeature(lines).coords, w) &&
              out[0].nodes == InlineNodes("unified-node-", 0, FilterIn(MergedFeature(lines).coords, w)) &&
              out[0].tags == ReliableTags(MergedFeature(lines).props, 0) &&
              out[0].id == Str("unified-river-0")
  {
    var m := BuildNodeMap(es);
    var lines := CollectLines(es, m);
    NoLinesIffNoResolvableWay(es, m, |es|);
    if |lines| == 0 {
      return [];
    }
    var merged := MergedFeature(lines);
    out := WriteReliable(merged, w, slice);
  }

  /** The slicing and the `.filter().map()` of Reliable for the merged line:
      at most one way, holding the line's in-window points. */
  method WriteReliable(merged: Line, w: Window, slice: SliceOutcome) returns (out: seq<InlineWay>)
    ensures |out| <= 1
    ensures forall k :: 0 <= k < |out| ==> AllIn(NodePoints(out[k].nodes), w) && |out[k].nodes| >= 2
    ensures |out| == 1 ==>
              NodePoints(out[0].nodes) == FilterIn(merged.coords, w) && out[0].id == Str("unified-river-0")
    ensures |out| == 1 ==>
              out[0].nodes == InlineNodes("unified-node-", 0, FilterIn(merged.coords, w)) &&
              out[0].tags == ReliableTags(merged.props, 0)
    ensures |out| == 1 <==> slice != NoCrossings && |FilterIn(merged.coords, w)| >= 2
  {
    var clipped: seq<Line> := [];
    if slice != NoCrossings {
      var coords := FilterIn(merged.coords, w);
      if |coords| >= 2 {
        clipped := [SegmentMerge.Line(coords, merged.props)];
      }
    }
    out := [];
    if |clipped| == 1 {
      InlineNodesRoundTrip("unified-node-", 0, clipped[0].coords);
      out := [InlineWay(Str(Label("unified-river-", 0)), InlineNodes("unified-node-", 0, clipped[0].coords),
                        ReliableTags(clipped[0].props, 0))];
    }
  }

  /** With several lines, the merged line holds every point of every line
      in input order, so its length is the sum of theirs. */
  lemma {:induction false} AllCoordsLength(ls: seq<Line>)
    ensures |AllCoords(ls)| == SumLengths(ls)
  {
    if ls != [] {
      AllCoordsLength(ls[1..]);
    }
  }

  function SumLengths(ls: seq<Line>): nat {
    if ls == [] then 0 else |ls[0].coords| + SumLengths(ls[1..])
  }

  /** The points of the k-th line sit, in order, right after those of the
      lines before it. */
  lemma {:induction false} AllCoordsSlice(ls: seq<Line>, k: nat)
    requires k < |ls|
    ensures SumLengths(ls[..k]) + |ls[k].coords| <= |AllCoords(ls)|
    ensures AllCoords(ls)[SumLengths(ls[..k])..SumLengths(ls[..k]) + |ls[k].coords|] == ls[k].coords
  {
    AllCoordsLength(ls);
    if k == 0 {
      assert ls[..0] == [];
    } else {
      AllCoordsSlice(ls[1..], k - 1);
      assert ls[1..][..k - 1] == ls[..k][1..];
      assert ls[..k][0] == ls[0];
      assert AllCoords(ls) == ls[0].coords + AllCoords(ls[1..]);
    }
  }
}
