# webtool3d core, modelled in Dafny

webtool3d turns OpenStreetMap data into 3D scenes. This project models the
value-level core of that pipeline and proves properties of it:

- **The canonical river pipeline** (`processRiverDataUnion`). It builds the
  node lookup table and sorts ways into lines and water areas. Lines are
  clipped to the inclusive window, with boundary points inserted where a
  segment crosses an edge, and each clipped piece gets a width. Lines are
  then joined end to end until no two can be joined. Areas go through the
  fallback decision around the external polygon library. Everything is
  written back as OSM-like ways followed by nodes.
- **The older river pipelines** (`processRiverDataSimple`, `Advanced` and
  `Reliable`) and the **OSM → GeoJSON converter** (`osmToGeoJSON`).
- **The scene helpers.** Building extraction with height parsing and the
  [2, 300] clamp, water classification on a window enlarged by 0.0005, the
  "render when any corner is inside" filter, and the colour updates.
- **The building picker page** (`NextStep`). Table-driven height estimate,
  even-odd point-in-polygon, map bounds and the scale/unscale pair,
  selection handlers, and the OBJ export of extruded footprints.
- **The OBJ and MTL exporters.** Vertex-offset bookkeeping across meshes,
  and name-keyed material registries.
- **The drag-and-drop viewer** (`Drop`). The file extension rule and the
  selection/colour state machine.

Coordinates are reals. The window satisfies `north > south && east > west`,
the guard the HTTP route applies before any processing. Some things are
passed in as function parameters, because their behaviour is not part of
this model:

- `parseFloat`, `parseInt`: `None` stands for `NaN`;
- the polygon library's `intersect` and `centroid`;
- the slicing outcome of `processRiverDataReliable`.

Modules, one per file:

- `Common`: options, points, windows, property values, decimal labels.
- `Text`: ASCII `toLowerCase`, `trim`, `includes`, the numeric prefix, the extension.
- `Osm`: elements, the node table, way resolution.
- `SegmentMerge`: the join loop shared by both merging pipelines.
- `RiverProcessor`, `GeojsonProcessor`, `OsmToGeoJson`.
- `BuildingScene`: the deepseek scene helpers.
- `MapScene`: properties of the maptothreed copy. Its helpers do the same computation on the current building list, so they are modelled once, in `BuildingScene`.
- `NextStep`.
- `SceneGraph`: the meshes and materials the exporters read.
- `ObjExporter` (a class), `MtlExporter`.
- `Drop` (a class).

## Model

| member | source | states |
|---|---|---|
| Common.FilterIn | utils/geojsonProcessor.ts:192-195 | the in-window filter keeps only points inside the inclusive window and never lengthens the list |
| Common.FilterInKeepsInside | utils/geojsonProcessor.ts:192-195 | a list wholly inside the window passes the filter unchanged |
| Common.FilterInMembers | utils/geojsonProcessor.ts:192-195 | a point survives the filter iff it was in the input and lies in the window |
| Common.Reverse | utils/riverProcessor.ts:261 | `[...xs].reverse()`: same length, element k is element n-1-k of the input |
| Common.Or | utils/riverProcessor.ts:395-396 | JavaScript `a \|\| b`: a truthy `a` is kept, otherwise `b` |
| Text.Lower | app/Drop.tsx:347 | `toLowerCase` keeps the length and leaves no upper-case ASCII letter; every upper-case letter becomes the letter at the same position of `a`–`z`, and every other character is kept |
| Text.TrimStart | app/deepseek/components/ThreeDScene.tsx:665 | the result is a suffix of the input that does not start with white space, and every character removed is white space |
| Text.TrimEnd | app/deepseek/components/ThreeDScene.tsx:665 | the result is a prefix of the input that does not end with white space, and every character removed is white space |
| Text.LeadingNumber | app/deepseek/components/ThreeDScene.tsx:668-670 | the regex `^(\d+\.?\d*)` matches iff the text starts with a digit; the number read lies in [n, n+1) for the leading digit run n, and is exactly n when no `.` follows the run |
| Text.LeadingNumberFraction | app/deepseek/components/ThreeDScene.tsx:668-670 | digits a, a `.`, digits b, then a non-digit read as a + b / 10^\|b\| |
| Text.LeadingNumberWhole | app/deepseek/components/ThreeDScene.tsx:668-670 | digits a followed by nothing or by a character that is neither a digit nor `.` read as a |
| Text.LeadingNumberOfDecimal | app/deepseek/components/ThreeDScene.tsx:668-670 | reading the decimal text of n through the numeric prefix gives back n |
| Text.AfterLastDotSuffix | app/Drop.tsx:347 | `split(".").pop()` is a dot-free suffix of the input, and what precedes it (if anything) is a dot |
| Osm.NodeMapKeys | utils/osmtogeojson.ts:19-24 | the node table holds exactly the ids of node elements |
| Osm.NodeMapLastWins | utils/osmtogeojson.ts:19-24 | an id is mapped to the coordinates of its last node element |
| Osm.BuildNodeMap | utils/riverProcessor.ts:10-19 | the table-building loop produces the table `NodeMapOf` of the elements |
| Osm.ResolveIsLookupOfKnown | utils/riverProcessor.ts:27-29 | resolving drops unknown ids and keeps the known ones in order: point k is the table entry of the k-th known id |
| Osm.ResolveAllKnown | utils/osmtogeojson.ts:30 | when every id is known nothing is dropped and point k is the entry of id k |
| Osm.ResolveNoneKnown | utils/osmtogeojson.ts:30 | when no id is known the way resolves to no points |
| Osm.ResolveNodes | app/deepseek/components/ThreeDScene.tsx:650-659 | the push loop over a way's node ids computes the same list as the `map`/`filter` resolution |
| SegmentMerge.TryJoin | utils/riverProcessor.ts:237-275 | a join happens iff some endpoint pair is close; the joined line has \|A\|+\|B\|-1 points and glues the two lists, either one possibly reversed, at a close endpoint |
| SegmentMerge.JoinOrder | utils/riverProcessor.ts:245-275 | the four cases are tried end→start, start→end, end→reversed other, reversed current→start; the first that fires decides the points, and the properties come from the policy |
| SegmentMerge.JoinPoints | utils/riverProcessor.ts:247-271 | every point of a joined line is a point of one of the two lines joined |
| SegmentMerge.StepsCountLines | utils/riverProcessor.ts:219-283 | the total weight of well-formed lines is at least their number, and zero iff there are none |
| SegmentMerge.PointsStayIn | utils/riverProcessor.ts:247-271 | lines using only points of lines inside a window are inside it |
| SegmentMerge.Absorb | utils/riverProcessor.ts:228-276 | the inner `for` is the fold `Chain` of the ascending newly-used indices, joined in that order; the used set grows by exactly those indices, all above i; the line weight Σ(\|coords\|−1) moves from the used lines into the result; the result holds only input points; without a join the line is unchanged and no later unused line can be joined with it |
| SegmentMerge.PassStep | utils/riverProcessor.ts:228-281 | one turn of the outer `for`: a used line is skipped; an unused line absorbs the later lines it can join and is written; the pass invariant (every line before i+1 used, written lines plus joins equal used lines, weight of the written lines equals that of the used ones, only input points, and, while nothing is joined, the untouched prefix with no joinable pair) holds again at i+1 |
| SegmentMerge.MergePass | utils/riverProcessor.ts:221-282 | one pass keeps the total weight Σ(\|coords\|−1) and adds no new point; it never lengthens the list, a joining pass shortens it, and a pass that joins nothing returns its input, which has no joinable pair |
| SegmentMerge.MergeAll | utils/riverProcessor.ts:219-283 | the `while (merged)` loop terminates with the same total weight Σ(\|coords\|−1), only input points, no more lines than it started with, none iff it started with none, and no joinable pair left |
| SegmentMerge.FixpointEndpointsApart | utils/riverProcessor.ts:216-283 | at the fixpoint, with a symmetric closeness, no endpoint of one line is close to any endpoint of another |
| RiverProcessor.WaterwayType | utils/riverProcessor.ts:34 | `waterway \|\| natural \|\| 'river'`: never empty, each fallback taken only when the tags before it are missing |
| RiverProcessor.WayProps | utils/riverProcessor.ts:86-90 | the properties are exactly `id`, `tags` (the way's tags) and `type` |
| RiverProcessor.CloseRing | utils/riverProcessor.ts:52-56 | the ring is closed, begins with the input, and gains one point exactly when the input was open |
| RiverProcessor.ClassifyWay | utils/riverProcessor.ts:25-95 | a way is dropped iff it lists ≤1 node or resolves to <2 points; it becomes an area iff it is an area candidate with ≥3 points whose closed ring has ≥4 points; every other way becomes a line carrying its resolved points |
| RiverProcessor.ShortClosedRingIsLine | utils/riverProcessor.ts:59-74 | a closed candidate of three resolved points is too short for a polygon and falls back to a line |
| RiverProcessor.OpenTriangleIsClosed | utils/riverProcessor.ts:36-65 | an area-tagged way with three distinct resolved points becomes a four-point ring closed on its first point |
| RiverProcessor.LinesOf | utils/riverProcessor.ts:25-95 | every collected line has at least two points |
| RiverProcessor.AreasOf | utils/riverProcessor.ts:48-65 | every collected area is a polygon with a closed outer ring of ≥4 points |
| RiverProcessor.ClassifyNext | utils/riverProcessor.ts:25-95 | one element extends the two lists exactly as `LinesOf` and `AreasOf` do for one more element |
| RiverProcessor.ClassifyWays | utils/riverProcessor.ts:22-95 | the classification loop pushes exactly `LinesOf` and `AreasOf`, and at most one feature per element |
| RiverProcessor.EdgeHit | utils/riverProcessor.ts:486-528 | a crossing with one edge lies on that edge, inside the window and on the segment; a zero-length segment has none |
| RiverProcessor.FindBoundaryIntersection | utils/riverProcessor.ts:479-531 | null for a zero-length segment; any point returned is on the segment, on a window edge and inside the inclusive window |
| RiverProcessor.FirstEdgeWins | utils/riverProcessor.ts:479-531 | edges are tried west, east, south, north and the first hit is returned; the result is null iff no edge is hit |
| RiverProcessor.DedupFrom | utils/riverProcessor.ts:587-593 | the `findIndex` filter keeps only input points |
| RiverProcessor.DedupApart | utils/riverProcessor.ts:587-593 | no two kept points are within 1e-6 of each other on both axes |
| RiverProcessor.DedupKeepsFirst | utils/riverProcessor.ts:587-593 | every point that is the first of its cluster is kept |
| RiverProcessor.EdgeHits | utils/riverProcessor.ts:542-585 | at most four pushed points, all inside the window |
| RiverProcessor.DedupIn | utils/riverProcessor.ts:587-593 | de-duplication keeps in-window points in the window |
| RiverProcessor.FindBoundaryIntersections | utils/riverProcessor.ts:534-594 | at most 4 points, each inside the window, none for a zero-length segment, no two within 1e-6 on both axes, the first occurrence kept |
| RiverProcessor.ClipPair | utils/riverProcessor.ts:110-163 | one iteration of the walk is `ClipStep`: the four in/out cases of the pair, then the last-pair close; `ClipFromKeeps` shows the steps keep the invariant that pieces have ≥2 in-window points, every in-window point seen so far is in a piece or the open one, and every point seen is a line point or on the window boundary |
| RiverProcessor.PairCase | utils/riverProcessor.ts:110-155 | the four-way `if` on a pair computes `PairStep`: both in extends the open piece, in→out closes it at the crossing, out→in opens it at the crossing, out→out emits the two crossings when there are exactly two |
| RiverProcessor.ClipFromKeeps | utils/riverProcessor.ts:110-163 | running the walk from any state satisfying the invariant to the last pair keeps the invariant |
| RiverProcessor.CrossingHit | utils/riverProcessor.ts:479-531 | a segment with one end inside and one outside always crosses some window edge, so `findBoundaryIntersection` never returns null there |
| RiverProcessor.EdgeHitSwap | utils/riverProcessor.ts:486-528 | an edge crossing found for a reversed segment is found for the segment too |
| RiverProcessor.ExitHit | utils/riverProcessor.ts:479-531 | a segment leaving the window crosses at least one edge |
| RiverProcessor.ClipGood | utils/riverProcessor.ts:102-164 | the clipped pieces have ≥2 in-window points each; <2 points give none; a line wholly inside gives itself |
| RiverProcessor.ClipCoversPoint | utils/riverProcessor.ts:102-164 | every in-window point of a line of ≥2 points is in some clipped piece |
| RiverProcessor.ClipSoundPoints | utils/riverProcessor.ts:102-164 | every clipped point is a line point or on the window boundary |
| RiverProcessor.ClipTwoPoints | utils/riverProcessor.ts:110-163 | a 2-point line: both in gives itself, in→out gives `[s, hit]`, out→in gives `[hit, e]`, out→out gives the two de-duplicated crossings when there are exactly two, else nothing |
| RiverProcessor.ClipLine | utils/riverProcessor.ts:102-164 | the loop computes `Clip`; every piece has ≥2 points, all inside the inclusive window; every in-window point of a line of ≥2 points is in some piece; every piece point is a line point or on the window boundary; a line wholly inside comes back as itself; a line of <2 points gives none |
| RiverProcessor.Width | utils/riverProcessor.ts:167-198 | the width is positive; a `width` tag that parses to a positive number wins; otherwise the width is one of the fixed defaults |
| RiverProcessor.WidthCases | utils/riverProcessor.ts:170-198 | an unusable `width` tag gives 5, not the type default; with no `width` tag: river 20, stream 3, canal 15, ditch 1, brook 2, no `waterway` 5, any other `waterway` 5 |
| RiverProcessor.PiecePropsShape | utils/riverProcessor.ts:200-207 | a piece keeps every property of its line and adds `originalType` (the line's truthy type) and its width |
| RiverProcessor.ClipLines | utils/riverProcessor.ts:101-213 | the loop output is `ClippedLines`: the concatenation, line by line in order, of each line's clipped pieces, each carrying that line's `PieceProps` (properties are stated by `ClippedProps`) |
| RiverProcessor.ClipRow | utils/riverProcessor.ts:102-212 | one turn of the outer loop appends exactly the line's clipped pieces, each carrying the line's properties with `originalType` and width |
| RiverProcessor.AppendPieces | utils/riverProcessor.ts:167-212 | the inner loop appends one line feature per piece, in order, each with the line's properties |
| RiverProcessor.PieceLinesPoints | utils/riverProcessor.ts:167-212 | the points of the piece features are exactly the points of the pieces |
| RiverProcessor.RowsCover | utils/riverProcessor.ts:101-213 | every point of any line's clipped pieces appears in the loop's output |
| RiverProcessor.RowsSound | utils/riverProcessor.ts:101-213 | when every piece point of a line is a point of that line or on the boundary, every output point is a point of the lines clipped so far or on the boundary |
| RiverProcessor.ClippedProps | utils/riverProcessor.ts:101-213 | the clipped lines are well formed, in the window and carry a positive width; they hold every in-window point of each input line of ≥2 points, and only input points or boundary points |
| RiverProcessor.RiverPolicy | utils/riverProcessor.ts:243-275 | closeness is Euclidean distance < 0.00005; on a join the joined-in line's property values override the current one's |
| RiverProcessor.RiverCloseSymmetric | utils/riverProcessor.ts:448-452 | the distance test does not depend on argument order |
| RiverProcessor.MergeRivers | utils/riverProcessor.ts:216-283 | merging terminates, keeps the total weight Σ(\|coords\|−1) and uses only input points, never adds lines, gives none iff given none, stays in the window, and leaves every pair of distinct lines with all endpoints ≥ 0.00005 apart |
| RiverProcessor.RingInBounds | utils/riverProcessor.ts:455-476 | on one ring, `checkCoordinatesInBounds` holds iff some vertex lies in the window |
| RiverProcessor.AnyPointInBounds | utils/riverProcessor.ts:467-472 | the recursive scan over a list of pairs holds iff some pair lies in the window |
| RiverProcessor.PolygonInBounds | utils/riverProcessor.ts:455-476 | on a polygon, the last-resort test holds iff some vertex of some ring lies in the window |
| RiverProcessor.AnyRingInBounds | utils/riverProcessor.ts:467-472 | the scan over rings holds iff some ring has a vertex in the window |
| RiverProcessor.AreaResult | utils/riverProcessor.ts:290-356 | invalid areas are skipped; a clipped result is used; otherwise the original area is kept on an in-window centroid, dropped on an out-of-window centroid when there was no overlap, and decided by the coordinate scan when the library throws |
| RiverProcessor.ClassifiedAreasNotSkipped | utils/riverProcessor.ts:290-306 | an area produced by classification always passes the pre-checks |
| RiverProcessor.ProcessAreas | utils/riverProcessor.ts:286-357 | the area loop keeps exactly the per-area decisions, in order, never more areas than given |
| RiverProcessor.Serializables | utils/riverProcessor.ts:366-371 | only lines of ≥2 points and polygons reach the output, and every such feature does |
| RiverProcessor.FeatureNodeAt | utils/riverProcessor.ts:373-414 | node k of feature i has id `river-node-i-k` or `water-area-node-i-k` and point k's lat/lon, and the way lists that id at position k |
| RiverProcessor.LineTagsShape | utils/riverProcessor.ts:389-400 | a line way carries the original tags plus a truthy `waterway` and `name`, `merged=true` and `union=true` |
| RiverProcessor.AreaTags | utils/riverProcessor.ts:416-431 | a polygon way has a truthy name; river-like polygons keep a waterway type, every other polygon gets `natural=water` |
| RiverProcessor.AreaTagsKept | utils/riverProcessor.ts:418-421 | every original tag other than `name`, `waterway`, `width` and `natural` keeps its value; `name` is the tag's own name when it has one, else `Water Area i` |
| RiverProcessor.AreaTagsRiver | utils/riverProcessor.ts:418-428 | a river-like polygon gets `waterway` = its original type when truthy, else `river`, and `width` = its width property when truthy (else its own width tag, if any), and no other key |
| RiverProcessor.AreaTagsWater | utils/riverProcessor.ts:418-431 | any other polygon gets `natural=water`, keeps its own `waterway` and `width` tags, and gets no other key |
| RiverProcessor.FeatureWay | utils/riverProcessor.ts:389-438 | every feature becomes one way whose node list is exactly the ids of the nodes written for that feature |
| RiverProcessor.WaysOf | utils/riverProcessor.ts:372-439 | one way per written feature, numbered by position |
| RiverProcessor.WayOfFeature | utils/riverProcessor.ts:372-439 | way i is the way written for feature i, numbered i |
| RiverProcessor.WaysAreWays | utils/riverProcessor.ts:389-438 | the way list holds only ways |
| RiverProcessor.NodesAreNodes | utils/riverProcessor.ts:441 | the node list holds only nodes |
| RiverProcessor.NodesCount | utils/riverProcessor.ts:372-442 | the node count equals the total point count of the features |
| RiverProcessor.NodesOfFeature | utils/riverProcessor.ts:372-442 | the nodes of feature i sit, in order, right after those of the features before it |
| RiverProcessor.NodesComplete | utils/riverProcessor.ts:372-442 | every node a way refers to is written: node k of feature i is in the node list |
| RiverProcessor.WriteNodes | utils/riverProcessor.ts:378-387 | the `forEach` over coordinates writes exactly the feature's nodes and collects their ids |
| RiverProcessor.Serialize | utils/riverProcessor.ts:363-444 | the output is all ways, then all nodes, of the serialisable features |
| RiverProcessor.SerializedShape | utils/riverProcessor.ts:360-444 | the first \|features\| elements are ways, the rest nodes, and their count is features plus points |
| RiverProcessor.RiverFeatures | utils/riverProcessor.ts:360 | the merged rivers become line features one for one, in order |
| RiverProcessor.ProcessRiverDataUnion | utils/riverProcessor.ts:6-445 | the rivers are ≥2-point lines in the window, their ends pairwise ≥0.00005 apart; they keep the total weight and only the points of the clipped pieces of the classified lines, are empty iff those pieces are, and every river point is an input line point or on the window boundary; the output serialises those rivers followed by the kept areas |
| GeojsonProcessor.InlineNodes | utils/geojsonProcessor.ts:202-206 | node k of way i is `{id: <prefix>i-k, lat, lon}` of point k |
| GeojsonProcessor.InlineNodesRoundTrip | utils/geojsonProcessor.ts:143-147 | reading the coordinates back from the inline nodes gives the points written |
| GeojsonProcessor.SimpleWay | utils/geojsonProcessor.ts:183-211 | a way is written iff it resolves to ≥2 points and ≥2 of them are in the window; it keeps its id and tags and exactly its in-window points, in order |
| GeojsonProcessor.SimpleWays | utils/geojsonProcessor.ts:181-212 | every written way has ≥2 nodes, all in the window |
| GeojsonProcessor.ProcessRiverDataSimple | utils/geojsonProcessor.ts:168-215 | the output is the per-element ways in input order, node ids using the element's position, all nodes in the window |
| GeojsonProcessor.SimpleKeepsInsideWay | utils/geojsonProcessor.ts:192-206 | a way wholly inside is written whole with ids `clipped-node-<position>-<k>` |
| GeojsonProcessor.SimpleDropsOutsideWay | utils/geojsonProcessor.ts:192-198 | a way with no point in the window is not written |
| GeojsonProcessor.WayLine | utils/geojsonProcessor.ts:239-255 | a line is made iff the way lists >1 node and resolves to ≥2 points; it carries those points and `{id, tags, type}` |
| GeojsonProcessor.WayLines | utils/geojsonProcessor.ts:24-40 | every collected line has ≥2 points |
| GeojsonProcessor.CollectLines | utils/geojsonProcessor.ts:22-41 | the collection loop computes `WayLines` |
| GeojsonProcessor.NoLinesIffNoResolvableWay | utils/geojsonProcessor.ts:43-45 | no line is collected iff no way resolves to ≥2 points |
| GeojsonProcessor.ClipByFilter | utils/geojsonProcessor.ts:268-320 | the filtering loop computes `FilteredLines`: every line it keeps has ≥2 points, all in the window |
| GeojsonProcessor.FilteredLines | utils/geojsonProcessor.ts:280-315 | filtered lines have ≥2 points, all in the window, and are no more than the input lines |
| GeojsonProcessor.AdvancedPolicy | utils/geojsonProcessor.ts:350-389 | closeness is \|dx\| < 1e-4 and \|dy\| < 1e-4, and a join keeps the current line's properties only |
| GeojsonProcessor.AxisCloseSymmetric | utils/geojsonProcessor.ts:351-352 | the per-axis test does not depend on argument order |
| GeojsonProcessor.AdvancedJoin | utils/geojsonProcessor.ts:351-389 | an Advanced join keeps the current properties and has \|A\|+\|B\|-1 points |
| GeojsonProcessor.AdvancedTags | utils/geojsonProcessor.ts:415-420 | every original tag other than `waterway`, `name` and `merged` keeps its value; `waterway` is the line's type when truthy, else `river`; `name` is the tag's own name when it has one, else `Unified River i`; `merged` is true; no other key |
| GeojsonProcessor.AdvancedWays | utils/geojsonProcessor.ts:400-422 | way i is `unified-river-i` with nodes `unified-node-i-k` of line i |
| GeojsonProcessor.MergeSegments | utils/geojsonProcessor.ts:323-397 | the `while (merged)` loop keeps the total weight Σ(\|coords\|−1), uses only input points, gives none iff given none, stays in the window and leaves all ends of distinct segments pairwise outside the per-axis tolerance |
| GeojsonProcessor.ProcessRiverDataAdvanced | utils/geojsonProcessor.ts:220-431 | no resolvable way gives no elements; the merged segments keep the total weight and only the points of the filtered ways, are empty iff those are, lie in the window with all ends pairwise outside the per-axis tolerance, and the written ways are their unified ways |
| GeojsonProcessor.MergedFeature | utils/geojsonProcessor.ts:58-69 | one line is kept as is; several are concatenated in input order into one line typed `merged-river-system` |
| GeojsonProcessor.ReliableTags | utils/geojsonProcessor.ts:148-152 | every property other than `waterway` and `name` keeps its value; `waterway` is the type when truthy, else `river`; `name` is the feature's `name` property when truthy, else `Unified River i`; no other key |
| GeojsonProcessor.ProcessRiverDataReliable | utils/geojsonProcessor.ts:9-163 | no resolvable way gives no elements; one way is written iff some way resolves, the slicing does not report no crossing and ≥2 merged points are inside; it is `unified-river-0` whose nodes are the `unified-node-` nodes of exactly those in-window points and whose tags are the merged tags |
| GeojsonProcessor.WriteReliable | utils/geojsonProcessor.ts:75-154 | at most one way, written iff the slicing does not report no crossing (crossings found, or slicing threw) and at least two points are inside; its nodes are the `unified-node-` nodes of those in-window points and its tags the merged tags |
| GeojsonProcessor.AllCoordsLength | utils/geojsonProcessor.ts:62 | the concatenation has as many points as all lines together |
| GeojsonProcessor.AllCoordsSlice | utils/geojsonProcessor.ts:62 | line k's points appear, in order, right after those of the lines before it |
| OsmToGeoJson.ClosedCoords | utils/osmtogeojson.ts:37-45 | a water area with ≥1 point ends on its first point; the input is a prefix, at most one point is added, and other ways are untouched |
| OsmToGeoJson.WayProperties | utils/osmtogeojson.ts:60-63 | `{id, ...tags}`: every tag is kept, and a tag named `id` overrides the way id |
| OsmToGeoJson.WayFeature | utils/osmtogeojson.ts:29-64 | Polygon iff a water area or closed with >2 points; a polygon's coordinates are the closed ring wrapped once, a line's are the resolved points |
| OsmToGeoJson.FeaturesOf | utils/osmtogeojson.ts:27-65 | one feature per way element, nodes giving none |
| OsmToGeoJson.FeatureOfEachWay | utils/osmtogeojson.ts:27-29 | features are in way order: the k-th way's feature sits at its position among the ways |
| OsmToGeoJson.CollectFeatures | utils/osmtogeojson.ts:27-65 | the `filter().map()` over the elements computes `FeaturesOf` for the given node table |
| OsmToGeoJson.OsmToGeoJSON | utils/osmtogeojson.ts:17-71 | the converter produces `FeaturesOf` on its own node table, one feature per way |
| OsmToGeoJson.PolygonRingClosed | utils/osmtogeojson.ts:33-45 | a polygon that resolved to any point has a closed ring |
| OsmToGeoJson.LineKeepsResolvedNodes | utils/osmtogeojson.ts:30 | a LineString is not a water area and its coordinates are the resolved nodes, in order |
| BuildingScene.Clamp | app/deepseek/components/ThreeDScene.tsx:690-691 | the result is in [2, 300], and a height already in range is unchanged |
| BuildingScene.EstimateHeight | app/deepseek/components/ThreeDScene.tsx:661-691 | the step-by-step height is the clamped raw height, in [2, 300] |
| BuildingScene.HeightFromTag | app/deepseek/components/ThreeDScene.tsx:663-677 | a height tag with a numeric prefix gives that number, ×0.3048 when the text says `ft` or `feet`, never negative |
| BuildingScene.HeightFromLevels | app/deepseek/components/ThreeDScene.tsx:681-687 | without a height tag, positive levels give levels×3, anything else 3 |
| BuildingScene.PlainHeight | app/deepseek/components/ThreeDScene.tsx:663-677 | a plain decimal tag between 2 and 300 is that many metres whatever `parseFloat` does |
| BuildingScene.BuildingId | app/deepseek/components/ThreeDScene.tsx:694 | the id text, or `building-<index>` when the element has no id |
| BuildingScene.BuildingsOf | app/deepseek/components/ThreeDScene.tsx:635-648 | the buildings of the first n elements are as many as the building ways among them |
| BuildingScene.BuildingsBounded | app/deepseek/components/ThreeDScene.tsx:688-697 | every building has a height in [2, 300] and colour `#ffffff` |
| BuildingScene.BuildingsStep | app/deepseek/components/ThreeDScene.tsx:635-648 | one more element appends its building, numbered by the building ways before it, exactly when it is a building way |
| BuildingScene.BuildingOfEachWay | app/deepseek/components/ThreeDScene.tsx:648-698 | building way k is entry k among building ways, with its resolved coordinates, its id, its clamped height and white |
| BuildingScene.MakeBuilding | app/deepseek/components/ThreeDScene.tsx:648-698 | the `map` callback for building way k makes the building `BuildingOf` describes |
| BuildingScene.CollectNext | app/deepseek/components/ThreeDScene.tsx:636-699 | one element extends the building list exactly as `BuildingsOf` does for one more element |
| BuildingScene.CollectBuildings | app/deepseek/components/ThreeDScene.tsx:635-699 | the loop over the elements computes `BuildingsOf` for the given node table |
| BuildingScene.ProcessOSMData | app/deepseek/components/ThreeDScene.tsx:631-702 | the whole function computes `BuildingsOf` with the node table of the elements: one building per building way, in order, none without elements |
| BuildingScene.Expand | app/deepseek/components/ThreeDScene.tsx:750-758 | the window enlarged by 0.0005 is valid and contains the original |
| BuildingScene.ClassifyWater | app/deepseek/components/ThreeDScene.tsx:760-822 | tagged water and closed >2-point ways are polygons; otherwise a line-tagged way of ≥2 points is a line with its `waterway` type and width; otherwise a >2-point way is a polygon; polygons carry the water type and no width; dropped iff untagged, ≤2 points and not a 2-point line waterway |
| BuildingScene.WaterOf | app/deepseek/components/ThreeDScene.tsx:721-823 | a way whose non-empty node list resolves to nothing is dropped; kept coordinates are the resolved points in the enlarged window |
| BuildingScene.WatersOf | app/deepseek/components/ThreeDScene.tsx:708-824 | at most one water per element, all coordinates in the enlarged window |
| BuildingScene.ResolveCounting | app/deepseek/components/ThreeDScene.tsx:723-736 | the loop resolves the ids, and missing plus found equals the ids listed |
| BuildingScene.ProcessWaterData | app/deepseek/components/ThreeDScene.tsx:704-827 | the result is the classified waters of the water ways, all within the enlarged window |
| BuildingScene.RenderedSound | app/deepseek/components/ThreeDScene.tsx:407-418 | rendered buildings come from the list and each has a corner in the window |
| BuildingScene.RenderedIff | app/deepseek/components/ThreeDScene.tsx:407-418 | a building is rendered iff one of its coordinates is in the inclusive window |
| BuildingScene.ChangeBuildingColor | app/deepseek/components/ThreeDScene.tsx:81-90 | the selection is always cleared; only buildings matching a set selection take the colour, all else unchanged |
| BuildingScene.ResetColors | app/deepseek/components/ThreeDScene.tsx:92-94 | every building becomes `#ffffff` with all other fields unchanged |
| BuildingScene.ResetAbsorbsColorChange | app/deepseek/components/ThreeDScene.tsx:81-94 | resetting is idempotent and erases any previous colour change |
| MapScene.IdFallsBackOnlyWhenMissing | app/maptothreed/components/ThreeDScene.tsx:390 | the id is `building-<index>` iff the element has no id |
| MapScene.HeightFallsBackToParse | app/maptothreed/components/ThreeDScene.tsx:374-376 | a height tag without a numeric prefix gives `parseFloat(tag) \|\| 3` |
| MapScene.AllInsideAllRendered | app/maptothreed/components/ThreeDScene.tsx:194-206 | when every building has a corner inside, all are rendered, in order |
| MapScene.RenderedSplits | app/maptothreed/components/ThreeDScene.tsx:194-206 | the filter keeps order: rendering a concatenation concatenates the rendered parts |
| MapScene.ColorChangeNeedsSelection | app/maptothreed/components/ThreeDScene.tsx:44-53 | with no selection a colour change changes no building |
| MapScene.ResetKeepsOtherFields | app/maptothreed/components/ThreeDScene.tsx:55-57 | reset keeps id, coordinates and height of every building |
| NextStep.Levels | app/NextStep.tsx:74-75 | when `building:levels` parses to a non-zero number that is the level count; otherwise (missing, unparsable or zero) the count is whatever `levels` parses to |
| NextStep.EstimatedHeightCases | app/NextStep.tsx:72-106 | non-zero levels give levels×3; otherwise a `building` type in the table gives its table height, a missing `building` tag gives 8 (the `yes` entry), an unknown type the default 8, and the estimate is in [3, 25] |
| NextStep.PointInPolygon | app/NextStep.tsx:262-276 | the crossing loop returns the even-odd parity of the edges the horizontal ray crosses, and false for an empty polygon |
| NextStep.OutsideVerticalRange | app/NextStep.tsx:262-276 | a point level with or above every vertex, or below them all, is outside |
| NextStep.ExtentOf | app/NextStep.tsx:300-314 | all four running bounds are set iff there was a coordinate |
| NextStep.ExtentIsTight | app/NextStep.tsx:300-314 | the running bounds contain every coordinate and each side touches one |
| NextStep.BoundsContainAll | app/NextStep.tsx:296-323 | the padded bounds contain every coordinate and have positive extent on both axes iff two coordinates differ |
| NextStep.ExtentSpreads | app/NextStep.tsx:305-316 | the tight box has a positive side exactly when some coordinate differs from the first |
| NextStep.WidenAll | app/NextStep.tsx:307-312 | the inner `forEach` widens the box to the extent of everything seen so far plus this building's coordinates |
| NextStep.ComputeBounds | app/NextStep.tsx:296-323 | the nested `forEach` computes `BoundsOf`: 0..100 without buildings, else the tight box padded by 10% of its larger side |
| NextStep.ScaleRoundTrip | app/NextStep.tsx:325-333 | unscale∘scale and scale∘unscale are the identity on both axes for non-degenerate bounds |
| NextStep.ScaleStaysInDrawing | app/NextStep.tsx:325-326 | on each axis of positive extent, a coordinate inside the bounds lands in [20, 980] |
| NextStep.Remove | app/NextStep.tsx:884 | the filter removes every occurrence of the id and keeps every other id |
| NextStep.Click | app/NextStep.tsx:881-889 | the clicked id's membership flips; other ids are untouched |
| NextStep.ClickTwiceRestores | app/NextStep.tsx:881-889 | clicking an unselected building twice restores the selection |
| NextStep.NewIds | app/NextStep.tsx:895 | exactly the given ids not yet selected |
| NextStep.PolygonSelect | app/NextStep.tsx:891-900 | the old selection is a prefix, every given id is included, nothing else is added |
| NextStep.PolygonSelectIdempotent | app/NextStep.tsx:891-900 | selecting the same polygon twice equals selecting it once |
| NextStep.HeightChange | app/NextStep.tsx:902-913 | matching buildings get height max(1, h), others are unchanged |
| NextStep.HeightChangeOverrides | app/NextStep.tsx:902-913 | changed buildings are ≥1 m high, and a second change overrides the first |
| NextStep.SideFaces | app/NextStep.tsx:742-751 | two triangles per side |
| NextStep.StartOf | app/NextStep.tsx:700 | the vertex counter is 1-based |
| NextStep.BlockShape | app/NextStep.tsx:702-751 | a building of n ≥ 3 coordinates writes 2 header lines, 2n vertices (the ground ring, then the roof ring), n-3 bottom, n-3 top and 2(n-1) side faces; every face index is within [start, start+2n-1] |
| NextStep.CounterAdvance | app/NextStep.tsx:702-752 | the counter advances by the vertices written; a building with <3 coordinates writes nothing and leaves it alone; output only grows |
| NextStep.EmitLayer | app/NextStep.tsx:714-723 | one ring of vertex lines, the counter advanced by its size |
| NextStep.EmitFans | app/NextStep.tsx:728-739 | the bottom and top fan loops |
| NextStep.EmitSides | app/NextStep.tsx:742-751 | the side loop writes both triangles of each of the n-1 sides |
| NextStep.EmitBuilding | app/NextStep.tsx:702-751 | one building's text and counter step |
| NextStep.EmitNext | app/NextStep.tsx:702-752 | one building extends the text and the vertex counter exactly as `ObjOf` and `StartOf` do for one more building |
| NextStep.ExportToOBJ | app/NextStep.tsx:698-752 | the export computes `ObjOf`, whose shape and face bounds the lemmas above give |
| ObjExporter.MaterialName | util/objExporter.ts:29 | `mat.name \|\| material_<id>` is never empty |
| ObjExporter.Register | util/objExporter.ts:30 | a new name is appended, an existing name keeps its place and takes the new material; names stay distinct |
| ObjExporter.RegistryLastWins | util/objExporter.ts:24-30 | the record has one entry per name, holding the material of the last mesh that used it |
| ObjExporter.RegistryDistinct | util/objExporter.ts:24-30 | record names are pairwise distinct |
| ObjExporter.VertexLines | util/objExporter.ts:39-45 | one vertex line per position |
| ObjExporter.IndexedFaces | util/objExporter.ts:48-55 | one face per index triple |
| ObjExporter.SequentialFaces | util/objExporter.ts:56-63 | one face per step of 3 over the vertices |
| ObjExporter.MeshLinesCount | util/objExporter.ts:33-63 | a mesh writes exactly `position.count` vertex lines |
| ObjExporter.OffsetCountsVertices | util/objExporter.ts:17-65 | `vertexOffset` always equals the number of vertex lines written so far |
| ObjExporter.ObjTextOpens | util/objExporter.ts:15 | the OBJ text starts with `mtllib model.mtl` |
| ObjExporter.IndexedFacesWithin | util/objExporter.ts:48-55 | indices below the vertex count give faces on the mesh's own vertices, 1-based |
| ObjExporter.SequentialFacesWithin | util/objExporter.ts:56-63 | without an index, faces stay on the mesh's own vertices iff the vertex count is a multiple of 3 |
| ObjExporter.EntryBlock | util/objExporter.ts:84-88 | a block of 6 lines opening with `newmtl <name>` |
| ObjExporter.MtlText | util/objExporter.ts:74-92 | six lines per record entry |
| ObjExporter.MtlBlocks | util/objExporter.ts:77-89 | block k of the MTL text is the block of record entry k |
| ObjExporter.ObjExporterWithMtl.constructor | util/objExporter.ts:8-9 | both fields start empty |
| ObjExporter.ObjExporterWithMtl.Parse | util/objExporter.ts:11-72 | both fields are reset first, so the result is `ObjText`/`Registry` of the scene alone; the MTL text is built from the registry, whose names are distinct |
| ObjExporter.ObjExporterWithMtl.WriteMesh | util/objExporter.ts:22-63 | one mesh appends its lines and registers its material |
| ObjExporter.ObjExporterWithMtl.AppendVertices | util/objExporter.ts:39-45 | appends the vertex lines, registry unchanged |
| ObjExporter.ObjExporterWithMtl.AppendIndexedFaces | util/objExporter.ts:48-55 | appends the indexed faces, registry unchanged |
| ObjExporter.ObjExporterWithMtl.AppendSequentialFaces | util/objExporter.ts:56-63 | appends the sequential faces, registry unchanged |
| ObjExporter.ObjExporterWithMtl.BuildMtl | util/objExporter.ts:74-92 | the MTL text of the current record |
| MtlExporter.MeshCandidateNames | util/mtlExporter.ts:12-22 | array materials are named `<name>_mat<idx>`, a single one `<name>_mat`, a missing one gives none |
| MtlExporter.NamesOf | util/mtlExporter.ts:6 | every candidate's name is in the registry set |
| MtlExporter.Kept | util/mtlExporter.ts:34-35 | de-duplication never lengthens the list |
| MtlExporter.KeptDistinct | util/mtlExporter.ts:34-35 | kept candidates come from the input, cover every name, and no two share a name |
| MtlExporter.KeptIsFirst | util/mtlExporter.ts:34-35 | the first candidate carrying a name is kept |
| MtlExporter.Block | util/mtlExporter.ts:37-54 | a 7-line block opening with `newmtl <name>` |
| MtlExporter.Blocks | util/mtlExporter.ts:8-24 | seven lines per kept candidate |
| MtlExporter.BuildMaterial | util/mtlExporter.ts:29-55 | a registered name gives no text; otherwise the name is registered and its block returned |
| MtlExporter.ExportStep | util/mtlExporter.ts:29-35 | one candidate through `buildMaterial` keeps output and registry equal to the blocks of the kept candidates and the names met |
| MtlExporter.BuildOne | util/mtlExporter.ts:14-21 | one `buildMaterial` call extends the exporter state by one candidate |
| MtlExporter.BuildAll | util/mtlExporter.ts:13-19 | the `forEach` over one mesh's materials extends the exporter state by that mesh's candidates, in order |
| MtlExporter.Visit | util/mtlExporter.ts:8-24 | visiting one object extends the exporter state by that object's candidates, none for a non-mesh |
| MtlExporter.Parse | util/mtlExporter.ts:4-27 | a fresh registry per call; the output is the blocks of the kept candidates in traversal order |
| MtlExporter.OneBlockPerName | util/mtlExporter.ts:4-35 | each name gets one block, built from the first material that carried it |
| Drop.ExtensionOfName | app/Drop.tsx:347 | the extension of `base.ext` is the lower-cased text after the last dot |
| Drop.ExtensionOfDotlessName | app/Drop.tsx:347 | a name without a dot is its own extension, lower-cased |
| Drop.MeshColor | app/Drop.tsx:146 | a mesh shows its non-empty colour entry; a missing or empty entry shows `white` |
| Drop.ColorSetIsShown | app/Drop.tsx:197 | a colour set for one mesh is what it shows, and no other mesh changes |
| Drop.FreshColorsAreWhite | app/Drop.tsx:146 | with no colour entries every mesh shows white |
| Drop.ModelDragDrop.constructor | app/Drop.tsx:315-396 | all state starts empty |
| Drop.ModelDragDrop.HandleMeshClick | app/Drop.tsx:315-317 | only the selection changes, to the clicked mesh |
| Drop.ModelDragDrop.HandleColorChange | app/Drop.tsx:319-327 | with a truthy selection only that mesh's colour is set and the selection becomes `""`; otherwise nothing changes |
| Drop.ModelDragDrop.ResetColors | app/Drop.tsx:329-332 | empties the colours and clears the selection, nothing else |
| Drop.ModelDragDrop.ProcessFile | app/Drop.tsx:344-364 | a rejected file only sets the error; an accepted one sets url, type (its extension) and name, clears the error, the selection and the colours |
| Drop.ModelDragDrop.Load | app/Drop.tsx:358-363 | an accepted file replaces the model, type and name and clears the selection and the colours, leaving the error alone |
| Drop.ModelDragDrop.HandleClear | app/Drop.tsx:383-396 | url, type, name, error, selection and colours all reset |

## Left out

- Floating point: coordinates, heights and colours are reals. IEEE rounding, `NaN` and `Infinity` are not modelled, except where noted below.
- The polygon library: `turf.intersect`, `turf.centroid`, `lineSlice`, `lineIntersect`, `nearestPointOnLine` and `bboxPolygon` are given as parameters or outcome values. Only the decisions made around them are modelled.
- Number formatting (`toString`, `toFixed(6)`): OBJ and MTL lines keep their numbers as reals. Generated ids use exact decimal text.
- `parseFloat` and `parseInt` are parameters. The numeric prefix `^(\d+\.?\d*)` is modelled exactly.
- Text operations are ASCII-only. `toLowerCase` changes only A–Z. `trim` removes ASCII white space, no-break space and BOM.
- A missing `elements`, `nodes` or `tags` is modelled as the empty one. The `data || {}` default of each processor is therefore not a separate case.
- `Object.entries` ordering: JavaScript lists integer-like keys first. The OBJ exporter's record is modelled in insertion order.
- The OBJ exporter's scene traversal is given as the sequence of visited objects, root first. Non-mesh objects are part of it and write nothing.
- ObjExporter.ObjExporterWithMtl.Parse: requires every mesh to have a material and every index array to be whole triangles. The source throws on a mesh without a material and prints `NaN` faces for a partial triple.
- BuildingScene.ProcessWaterData: requires every water way to carry an id. The source throws on `element.id.toString()` otherwise.
- NextStep.ScaleRoundTrip: requires bounds of positive extent on both axes. The source divides by zero when all coordinates coincide, and scaling is then meaningless.
- NextStep.BoundsContainAll: buildings that have no coordinate at all leave the bounds at ±Infinity. This is modelled as the separate `Unbounded` value and excluded here.
- NextStep.EstimatedHeightCases: the height table is a plain object, so inherited keys such as `constructor` are not modelled. A negative level count gives a negative height, as written.
- RiverProcessor.ProcessRiverDataUnion: a `turf.lineString` call that throws inside the clipping loop is not modelled.
- GeojsonProcessor.ProcessRiverDataAdvanced: the outer `catch` that returns the input unchanged is not modelled.
- GeojsonProcessor.ProcessRiverDataReliable: the results of `lineSlice` and `nearestPointOnLine` are not used by the source, and the model only records whether slicing found crossings, found none or threw. The outer `catch` that returns the input is not modelled.
- `processOSMData` first filters the building ways and then maps them with their rank. The model does the same in one pass over the elements, numbering each building by the building ways before it.
- Map projection (`projectCoordinates`, which uses a cosine) and the STL export.
- Blob/URL downloads, `URL.revokeObjectURL`, `console` logging, drag-over state (`isDragging`), file input wiring and all rendering (three.js, Leaflet, JSX).
- The maptothreed scene helpers do the same computation on the current building list as the deepseek ones. They are modelled once, in `BuildingScene`, and `MapScene` states their properties against the maptothreed lines.
- React state batching is not modelled. The maptothreed copy updates colours through the functional `setBuildings(prev => …)` (app/maptothreed/components/ThreeDScene.tsx:46, :56). The deepseek copy maps the `buildings` value seen at render time (app/deepseek/components/ThreeDScene.tsx:83-84, :93). So when several updates are batched, the deepseek copy can build on a stale list and lose an earlier update; the model applies each update to the current list, which is what the functional form does.
- Drop.Extension carries no contract of its own. Its meaning is stated by `Drop.ExtensionOfName`.
- The OBJ exporter's registry keeps the last material of a name and the MTL exporter's keeps the first. Both are modelled as written.
