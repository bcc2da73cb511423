/** `osmToGeoJSON`: every way element becomes one GeoJSON feature, a
    Polygon when it is tagged as water or closes on itself, a LineString
    otherwise. */
module OsmToGeoJson {
  import opened Common
  import opened Osm
  import RiverProcessor

  type Coords = RiverProcessor.Coords

  datatype GeometryType = Polygon | LineString

  /** A GeoJSON feature: its geometry type, its nested coordinate arrays
      and its properties. */
  datatype Feature = Feature(kind: GeometryType, coordinates: Coords, properties: Props)

  /** `natural=water`, `waterway=riverbank` or `waterway=basin`. */
  predicate WaterArea(t: Tags) {
    TagIs(t, "natural", "water") || TagIs(t, "waterway", "riverbank") || TagIs(t, "waterway", "basin")
  }

  /** The coordinates after the water-area closing step: a water area with
      at least one point whose ends differ gets its first point appended. */
  function ClosedCoords(t: Tags, coords: seq<Point>): (r: seq<Point>)
    ensures WaterArea(t) && |coords| > 0 ==> |r| > 0 && r[0] == r[|r| - 1]
    ensures |r| >= |coords| && r[..|coords|] == coords
    ensures |r| <= |coords| + 1
    ensures !WaterArea(t) ==> r == coords
  {
    if WaterArea(t) && |coords| > 0 && coords[0] != coords[|coords| - 1] then coords + [coords[0]]
    else coords
  }

  predicate IsClosed(coords: seq<Point>) {
    |coords| > 2 && coords[0] == coords[|coords| - 1]
  }

  /** `{ id: way.id, ...(way.tags || {}) }`: a tag named `id` wins. */
  function WayProperties(id: Option<int>, t: Tags): (p: Props)
    ensures p.Keys == t.Keys + {"id"}
    ensures p["id"] == if "id" in t then Str(t["id"]) else RiverProcessor.IdValue(id)
    ensures forall k :: k in t ==> p[k] == Str(t[k])
  {
    map["id" := RiverProcessor.IdValue(id)] + LiftTags(t)
  }

  /** The feature of one way. */
  function WayFeature(e: Element, m: map<int, Point>): (f: Feature)
    requires e.Way?
    ensures f.kind == Polygon <==> WaterArea(e.tags) || IsClosed(Resolve(e.nodes, m))
    ensures f.kind == Polygon ==> f.coordinates == Coords.List([RiverProcessor.RingCoords(ClosedCoords(e.tags, Resolve(e.nodes, m)))])
    ensures f.kind == LineString ==> f.coordinates == RiverProcessor.RingCoords(Resolve(e.nodes, m))
    ensures f.properties == WayProperties(e.wayId, e.tags)
  {
    var coords := ClosedCoords(e.tags, Resolve(e.nodes, m));
    var kind := if WaterArea(e.tags) || IsClosed(coords) then Polygon else LineString;
    var ring := RiverProcessor.RingCoords(coords);
    Feature(kind, if kind == Polygon then Coords.List([ring]) else ring, WayProperties(e.wayId, e.tags))
  }

  /** The features of the first n elements: one per way, in order. */
  function FeaturesOf(es: seq<Element>, m: map<int, Point>, n: nat): (r: seq<Feature>)
    requires n <= |es|
    ensures |r| == WayCount(es, n)
  {
    if n == 0 then []
    else FeaturesOf(es, m, n - 1) + (if es[n - 1].Way? then [WayFeature(es[n - 1], m)] else [])
  }

  function WayCount(es: seq<Element>, n: nat): nat
    requires n <= |es|
  {
    if n == 0 then 0 else WayCount(es, n - 1) + (if es[n - 1].Way? then 1 else 0)
  }

  /** The features are the ways' features in input order: the feature at
      the position of way k among the ways is that way's feature. */
  lemma {:induction false} FeatureOfEachWay(es: seq<Element>, m: map<int, Point>, n: nat, k: nat)
    requires k < n <= |es| && es[k].Way?
    ensures WayCount(es, k) < |FeaturesOf(es, m, n)|
    ensures FeaturesOf(es, m, n)[WayCount(es, k)] == WayFeature(es[k], m)
  {
    if k < n - 1 {
      FeatureOfEachWay(es, m, n - 1, k);
    } else {
      assert WayCount(es, n) == WayCount(es, k) + 1;
    }
  }

  /** `osmToGeoJSON`: the node table, then the ways mapped to features. */
  method OsmToGeoJSON(es: seq<Element>) returns (features: seq<Feature>)
    ensures features == FeaturesOf(es, NodeMapOf(es), |es|)
    ensures |features| == WayCount(es, |es|)
  {
    var m := BuildNodeMap(es);
    features := CollectFeatures(es, m);
  }

  /** The loop over the elements that turns each way into its feature. */
  method CollectFeatures(es: seq<Element>, m: map<int, Point>) returns (features: seq<Feature>)
    ensures features == FeaturesOf(es, m, |es|)
  {
    features := [];
    var i := 0;
    while i < |es|
      invariant 0 <= i <= |es|
      invariant features == FeaturesOf(es, m, i)
    {
      if es[i].Way? {
        features := features + [WayFeature(es[i], m)];
      }
      i := i + 1;
    }
  }

  /** A polygon's only ring is closed whenever the way resolved to any point. */
  lemma PolygonRingClosed(e: Element, m: map<int, Point>)
    requires e.Way? && WayFeature(e, m).kind == Polygon && |Resolve(e.nodes, m)| > 0
    ensures var ring := ClosedCoords(e.tags, Resolve(e.nodes, m));
            |ring| > 0 && ring[0] == ring[|ring| - 1]
  {
  }

  /** A line's coordinates are exactly the resolved nodes, in order. */
  lemma LineKeepsResolvedNodes(e: Element, m: map<int, Point>)
    requires e.Way? && WayFeature(e, m).kind == LineString
    ensures !WaterArea(e.tags)
    ensures WayFeature(e, m).coordinates == RiverProcessor.RingCoords(Resolve(e.nodes, m))
  {
  }
}
