/** The canonical river pipeline (`processRiverDataUnion`): ways are
    classified into lines and water areas, lines are clipped to the window
    with boundary points inserted where they cross an edge, given a width,
    joined end to end until no two can be joined, areas are clipped by an
    external polygon library with a fallback decision around it, and
    everything is written back as OSM-like ways followed by nodes. */
module RiverProcessor {
  import opened Common
  import opened Osm
  import SegmentMerge

  type Line = SegmentMerge.Line

  // ---------------------------------------------------------------------
  // Classification of ways

  /** Tags that make a way a water area whatever its shape. */
  predicate AreaTagged(t: Tags) {
    TagIs(t, "natural", "water") || TagIs(t, "waterway", "riverbank") ||
    TagIs(t, "waterway", "dock") || TagIs(t, "waterway", "canal") ||
    TagIs(t, "natural", "coastline")
  }

  /** `tags.waterway || tags.natural || 'river'` */
  function WaterwayType(t: Tags): (r: string)
    ensures r != ""
    ensures HasTag(t, "waterway") ==> r == t["waterway"]
    ensures !HasTag(t, "waterway") && HasTag(t, "natural") ==> r == t["natural"]
    ensures !HasTag(t, "waterway") && !HasTag(t, "natural") ==> r == "river"
  {
    if HasTag(t, "waterway") then t["waterway"]
    else if HasTag(t, "natural") then t["natural"]
    else "river"
  }

  /** The `id` property: the element id, or `undefined` when it has none. */
  function IdValue(id: Option<int>): Value {
    match id
    case Some(n) => Num(n as real)
    case None => Undefined
  }

  /** `{ id, tags: tags || {}, type }` */
  function WayProps(id: Option<int>, t: Tags, kind: string): (p: Props)
    ensures p.Keys == {"id", "tags", "type"}
    ensures p["tags"] == Obj(t) && p["type"] == Str(kind)
  {
    map["id" := IdValue(id), "tags" := Obj(t), "type" := Str(kind)]
  }

  predicate SameEnds(ps: seq<Point>)
    requires |ps| >= 1
  {
    ps[0] == ps[|ps| - 1]
  }

  /** The ring, closed by appending its first point when it is open. */
  function CloseRing(ps: seq<Point>): (r: seq<Point>)
    requires |ps| >= 1
    ensures |r| >= |ps|
    ensures SameEnds(r)
    ensures r[..|ps|] == ps
    ensures |r| == if SameEnds(ps) then |ps| else |ps| + 1
  {
    if SameEnds(ps) then ps else ps + [ps[0]]
  }

  /** What one way becomes. */
  datatype Shape =
    | AsLine(line: Line)
    | AsArea(ring: seq<Point>, props: Props)
    | Skipped

  /** A way is an area candidate when its tags say so, or when it lists
      more than two nodes and its first and last resolved points coincide. */
  predicate AreaCandidate(e: Element, coords: seq<Point>)
    requires e.Way? && |coords| >= 1
  {
    AreaTagged(e.tags) || (|e.nodes| > 2 && SameEnds(coords))
  }

  /** The body of the `originalWayElements.forEach` callback for one way. */
  function ClassifyWay(e: Element, m: map<int, Point>): (s: Shape)
    requires e.Way?
    ensures s.Skipped? <==> |e.nodes| <= 1 || |Resolve(e.nodes, m)| < 2
    ensures s.AsLine? ==> s.line.coords == Resolve(e.nodes, m) && SegmentMerge.WellFormed(s.line)
    ensures s.AsLine? ==> s.line.props == WayProps(e.wayId, e.tags, WaterwayType(e.tags))
    ensures s.AsArea? ==>
              |s.ring| >= 4 && SameEnds(s.ring) && s.ring == CloseRing(Resolve(e.nodes, m)) &&
              s.props == WayProps(e.wayId, e.tags, "waterarea")
    ensures s.AsArea? <==>
              |e.nodes| > 1 && |Resolve(e.nodes, m)| >= 3 && AreaCandidate(e, Resolve(e.nodes, m)) &&
              |CloseRing(Resolve(e.nodes, m))| >= 4
  {
    if |e.nodes| <= 1 then Skipped
    else
      var coords := Resolve(e.nodes, m);
      if |coords| < 2 then Skipped
      else
        var asLine := AsLine(SegmentMerge.Line(coords, WayProps(e.wayId, e.tags, WaterwayType(e.tags))));
        if AreaCandidate(e, coords) && |coords| >= 3 then
          var ring := CloseRing(coords);
          if |ring| >= 4 then AsArea(ring, WayProps(e.wayId, e.tags, "waterarea")) else asLine
        else asLine
  }

  /** A closed candidate of exactly three resolved points (a two-point
      loop) is too short for a polygon and is kept as a line. */
  lemma ShortClosedRingIsLine(e: Element, m: map<int, Point>)
    requires e.Way? && |e.nodes| > 2
    requires |Resolve(e.nodes, m)| == 3 && SameEnds(Resolve(e.nodes, m))
    ensures ClassifyWay(e, m).AsLine?
  {
  }

  /** A way tagged as an area with three distinct resolved points becomes
      a four-point closed ring. */
  lemma OpenTriangleIsClosed(e: Element, m: map<int, Point>)
    requires e.Way? && |e.nodes| > 1 && AreaTagged(e.tags)
    requires |Resolve(e.nodes, m)| == 3 && !SameEnds(Resolve(e.nodes, m))
    ensures ClassifyWay(e, m).AsArea?
    ensures ClassifyWay(e, m).ring == Resolve(e.nodes, m) + [Resolve(e.nodes, m)[0]]
  {
  }

  /** The lines of `es`, in order. */
  function LinesOf(es: seq<Element>, m: map<int, Point>): (r: seq<Line>)
    ensures SegmentMerge.AllWellFormed(r)
    decreases |es|
  {
    if es == [] then []
    else
      var init := LinesOf(es[..|es| - 1], m);
      var e := es[|es| - 1];
      if e.Way? && ClassifyWay(e, m).AsLine? then init + [ClassifyWay(e, m).line] else init
  }

  /** The water areas of `es`, in order, as polygon features. */
  function AreasOf(es: seq<Element>, m: map<int, Point>): (r: seq<Feature>)
    ensures forall k :: 0 <= k < |r| ==> r[k].PolygonF? && |r[k].outer| >= 4 && SameEnds(r[k].outer)
    decreases |es|
  {
    if es == [] then []
    else
      var init := AreasOf(es[..|es| - 1], m);
      var e := es[|es| - 1];
      if e.Way? && ClassifyWay(e, m).AsArea? then
        var s := ClassifyWay(e, m);
        init + [PolygonF(s.ring, [], s.props)]
      else init
  }

  /** The two lists once the first i elements are classified. */
  predicate Classified(es: seq<Element>, m: map<int, Point>, i: nat, lines: seq<Line>, areas: seq<Feature>)
    requires i <= |es|
  {
    lines == LinesOf(es[..i], m) && areas == AreasOf(es[..i], m) && |lines| + |areas| <= i
  }

  /** One turn of the classification loop: element i goes to one list or
      to neither. */
  method ClassifyNext(es: seq<Element>, m: map<int, Point>, i: nat, lines0: seq<Line>, areas0: seq<Feature>)
    returns (lines: seq<Line>, areas: seq<Feature>)
    requires i < |es| && Classified(es, m, i, lines0, areas0)
    ensures Classified(es, m, i + 1, lines, areas)
  {
    assert es[..i + 1][..i] == es[..i];
    lines, areas := lines0, areas0;
    var e := es[i];
    if e.Way? {
      var s := ClassifyWay(e, m);
      if s.AsLine? {
        lines := lines + [s.line];
      } else if s.AsArea? {
        areas := areas + [PolygonF(s.ring, [], s.props)];
      }
    }
  }

  /** The classification loop: every way goes to `lineFeatures`, to
      `areaFeatures`, or nowhere. */
  method ClassifyWays(es: seq<Element>, m: map<int, Point>) returns (lines: seq<Line>, areas: seq<Feature>)
    ensures lines == LinesOf(es, m) && areas == AreasOf(es, m)
    ensures |lines| + |areas| <= |es|
  {
    lines, areas := [], [];
    var i := 0;
    while i < |es|
      invariant 0 <= i <= |es|
      invariant Classified(es, m, i, lines, areas)
    {
      lines, areas := ClassifyNext(es, m, i, lines, areas);
      i := i + 1;
    }
    assert es[..|es|] == es;
  }

  // ---------------------------------------------------------------------
  // Boundary intersections

  datatype Edge = West | East | South | North

  predicate OnEdge(p: Point, edge: Edge, w: Window) {
    match edge
    case West => p.lon == w.west
    case East => p.lon == w.east
    case South => p.lat == w.south
    case North => p.lat == w.north
  }

  /** `p` is the point at parameter `t` of the segment from `s` to `e`. */
  predicate OnSegmentAt(p: Point, s: Point, e: Point, t: real) {
    0.0 <= t <= 1.0 &&
    p.lon == s.lon + t * (e.lon - s.lon) && p.lat == s.lat + t * (e.lat - s.lat)
  }

  /** The crossing of segment `s`–`e` with the meridian at `x`, kept when
      it lies within the segment and between the window's south and north. */
  function CrossAtLon(s: Point, e: Point, x: real, w: Window): (r: Option<Point>)
    ensures r.Some? ==> r.value.lon == x && w.south <= r.value.lat <= w.north
    ensures r.Some? ==> exists t :: OnSegmentAt(r.value, s, e, t)
    ensures s == e ==> r.None?
  {
    var dx := e.lon - s.lon;
    if dx == 0.0 then None
    else
      var t := (x - s.lon) / dx;
      if 0.0 <= t <= 1.0 then
        var y := s.lat + t * (e.lat - s.lat);
        if w.south <= y <= w.north then
          assert t * dx == x - s.lon;
          assert OnSegmentAt(Point(x, y), s, e, t);
          Some(Point(x, y))
        else None
      else None
  }

  /** The crossing of segment `s`–`e` with the parallel at `y`, kept when
      it lies within the segment and between the window's west and east. */
  function CrossAtLat(s: Point, e: Point, y: real, w: Window): (r: Option<Point>)
    ensures r.Some? ==> r.value.lat == y && w.west <= r.value.lon <= w.east
    ensures r.Some? ==> exists t :: OnSegmentAt(r.value, s, e, t)
    ensures s == e ==> r.None?
  {
    var dy := e.lat - s.lat;
    if dy == 0.0 then None
    else
      var t := (y - s.lat) / dy;
      if 0.0 <= t <= 1.0 then
        var x := s.lon + t * (e.lon - s.lon);
        if w.west <= x <= w.east then
          assert t * dy == y - s.lat;
          assert OnSegmentAt(Point(x, y), s, e, t);
          Some(Point(x, y))
        else None
      else None
  }

  /** The crossing of segment `s`–`e` with one edge line of the window,
      kept only when it lies within the segment and within the edge. */
  function EdgeHit(s: Point, e: Point, edge: Edge, w: Window): (r: Option<Point>)
    requires ValidWindow(w)
    ensures r.Some? ==> InWindow(r.value, w) && OnEdge(r.value, edge, w)
    ensures r.Some? ==> exists t :: OnSegmentAt(r.value, s, e, t)
    ensures s == e ==> r.None?
  {
    match edge
    case West => CrossAtLon(s, e, w.west, w)
    case East => CrossAtLon(s, e, w.east, w)
    case South => CrossAtLat(s, e, w.south, w)
    case North => CrossAtLat(s, e, w.north, w)
  }

  /** `findBoundaryIntersection`: the first edge hit, the edges tried west,
      east, south, north. */
  function FindBoundaryIntersection(s: Point, e: Point, w: Window): (r: Option<Point>)
    requires ValidWindow(w)
    ensures s == e ==> r.None?
    ensures r.Some? ==> InWindow(r.value, w) && exists t :: OnSegmentAt(r.value, s, e, t)
    ensures r.Some? ==> exists edge :: OnEdge(r.value, edge, w)
  {
    if s == e then None
    else if EdgeHit(s, e, West, w).Some? then EdgeHit(s, e, West, w)
    else if EdgeHit(s, e, East, w).Some? then EdgeHit(s, e, East, w)
    else if EdgeHit(s, e, South, w).Some? then EdgeHit(s, e, South, w)
    else EdgeHit(s, e, North, w)
  }

  /** The edges are tried in the order west, east, south, north, and the
      answer is the first one hit; there is none exactly when no edge is hit. */
  lemma FirstEdgeWins(s: Point, e: Point, w: Window)
    requires ValidWindow(w)
    ensures EdgeHit(s, e, West, w).Some? ==> FindBoundaryIntersection(s, e, w) == EdgeHit(s, e, West, w)
    ensures EdgeHit(s, e, West, w).None? && EdgeHit(s, e, East, w).Some? ==>
              FindBoundaryIntersection(s, e, w) == EdgeHit(s, e, East, w)
    ensures EdgeHit(s, e, West, w).None? && EdgeHit(s, e, East, w).None? && EdgeHit(s, e, South, w).Some? ==>
              FindBoundaryIntersection(s, e, w) == EdgeHit(s, e, South, w)
    ensures FindBoundaryIntersection(s, e, w).None? <==> forall edge :: EdgeHit(s, e, edge, w).None?
  {
    if FindBoundaryIntersection(s, e, w).None? {
      forall edge ensures EdgeHit(s, e, edge, w).None? {
        if s != e {
          assert edge == West || edge == East || edge == South || edge == North;
        }
      }
    }
  }

  // A segment with one end inside the window and the other outside always
  // meets the window's boundary, so `findBoundaryIntersection` finds a point.

  /** `x` lies between `a` and `b`, in either order. */
  predicate Between(x: real, a: real, b: real) {
    (a <= x <= b) || (b <= x <= a)
  }

  /** One coordinate at parameter `t` of the way from `a` to `b`. */
  function Along(a: real, b: real, t: real): real {
    a + t * (b - a)
  }

  /** A share of a positive whole lies in [0, 1]. */
  lemma {:induction false} Share(p: real, q: real)
    requires 0.0 <= p <= q && 0.0 < q
    ensures 0.0 <= p / q <= 1.0
  {
    assert (p / q) * q == p;
  }

  /** Going from `a` to `b`, one coordinate reaches `x` at the parameter
      (x - a) / (b - a), which lies in [0, 1]. */
  lemma {:induction false} Reach(a: real, b: real, x: real)
    requires a != b && Between(x, a, b)
    ensures 0.0 <= (x - a) / (b - a) <= 1.0
    ensures Along(a, b, (x - a) / (b - a)) == x
  {
    var t := (x - a) / (b - a);
    assert t * (b - a) == x - a;
    if a < b {
      Share(x - a, b - a);
    } else {
      assert t == (a - x) / (a - b);
      Share(a - x, a - b);
    }
  }

  /** Up to the parameter at which it reaches `x`, the coordinate stays
      between its start `a` and `x`. */
  lemma {:induction false} StaysBefore(a: real, b: real, x: real, t: real)
    requires a != b && Between(x, a, b) && 0.0 <= t <= (x - a) / (b - a)
    ensures Between(Along(a, b, t), a, x)
  {
    var u := (x - a) / (b - a);
    assert u * (b - a) == x - a;
    var v := Along(a, b, t);
    assert v == a + t * (b - a);
    if a < b {
      ScaleLe(0.0, t, b - a);
      ScaleLe(t, u, b - a);
      assert a <= v <= x;
    } else {
      ScaleLe(0.0, t, a - b);
      ScaleLe(t, u, a - b);
      assert t * (b - a) == -(t * (a - b));
      assert u * (b - a) == -(u * (a - b));
      assert x <= v <= a;
    }
  }

  /** Scaling by a non-negative factor keeps the order. */
  lemma {:induction false} ScaleLe(t: real, u: real, d: real)
    requires t <= u && 0.0 <= d
    ensures t * d <= u * d
  {
    assert u * d - t * d == (u - t) * d;
  }

  /** A coordinate whose two ends lie in [lo, hi] stays in [lo, hi]. */
  lemma {:induction false} StaysWithin(a: real, b: real, t: real, lo: real, hi: real)
    requires lo <= a <= hi && lo <= b <= hi && 0.0 <= t <= 1.0
    ensures lo <= Along(a, b, t) <= hi
  {
    assert Along(a, b, t) == (1.0 - t) * a + t * b;
    assert (1.0 - t) * lo <= (1.0 - t) * a <= (1.0 - t) * hi;
    assert t * lo <= t * b <= t * hi;
  }

  /** Between its ends, a coordinate lies between its two end values. */
  lemma {:induction false} AlongBetween(a: real, b: real, t: real)
    requires 0.0 <= t <= 1.0
    ensures Between(Along(a, b, t), a, b)
  {
    if a <= b {
      StaysWithin(a, b, t, a, b);
    } else {
      StaysWithin(a, b, t, b, a);
    }
  }

  /** Walking a segment backwards reaches the same point at 1 - t. */
  lemma {:induction false} AlongBack(a: real, b: real, t: real)
    ensures Along(b, a, 1.0 - t) == Along(a, b, t)
  {}

  /** A product is zero only when a factor is. */
  lemma {:induction false} ZeroFactor(k: real, d: real)
    requires d != 0.0 && k * d == 0.0
    ensures k == 0.0
  {
  }

  /** The parameters at which `x` is reached from either end add up to 1. */
  lemma {:induction false} Complement(x: real, a: real, b: real)
    requires a != b
    ensures (x - a) / (b - a) == 1.0 - (x - b) / (a - b)
  {
    var u := (x - a) / (b - a);
    var v := (x - b) / (a - b);
    assert u * (b - a) == x - a;
    assert v * (a - b) == x - b;
    assert (u + v - 1.0) * (b - a) == 0.0;
    ZeroFactor(u + v - 1.0, b - a);
  }

  /** A crossing with the meridian `x` is reached at a parameter in [0, 1]
      where the other coordinate lies inside the window. */
  lemma {:induction false} CrossAtLonThen(s: Point, e: Point, x: real, w: Window)
    requires CrossAtLon(s, e, x, w).Some?
    ensures s.lon != e.lon && Between(x, s.lon, e.lon)
    ensures w.south <= Along(s.lat, e.lat, (x - s.lon) / (e.lon - s.lon)) <= w.north
  {
    var t := (x - s.lon) / (e.lon - s.lon);
    assert t * (e.lon - s.lon) == x - s.lon;
    assert CrossAtLon(s, e, x, w).value.lat == Along(s.lat, e.lat, t);
    AlongBetween(s.lon, e.lon, t);
  }

  /** The crossing with a meridian does not depend on the segment's direction. */
  lemma {:induction false} CrossAtLonSwap(s: Point, e: Point, x: real, w: Window)
    requires CrossAtLon(e, s, x, w).Some?
    ensures CrossAtLon(s, e, x, w).Some?
  {
    var t' := (x - e.lon) / (s.lon - e.lon);
    var t := (x - s.lon) / (e.lon - s.lon);
    CrossAtLonThen(e, s, x, w);
    Complement(x, s.lon, e.lon);
    assert 1.0 - t == t';
    AlongBack(s.lat, e.lat, t);
    assert Along(s.lat, e.lat, t) == Along(e.lat, s.lat, t');
    CrossAtLonWhen(s, e, x, w);
  }

  /** A crossing with the parallel `y` is reached at a parameter in [0, 1]
      where the other coordinate lies inside the window. */
  lemma {:induction false} CrossAtLatThen(s: Point, e: Point, y: real, w: Window)
    requires CrossAtLat(s, e, y, w).Some?
    ensures s.lat != e.lat && Between(y, s.lat, e.lat)
    ensures w.west <= Along(s.lon, e.lon, (y - s.lat) / (e.lat - s.lat)) <= w.east
  {
    var t := (y - s.lat) / (e.lat - s.lat);
    assert t * (e.lat - s.lat) == y - s.lat;
    assert CrossAtLat(s, e, y, w).value.lon == Along(s.lon, e.lon, t);
    AlongBetween(s.lat, e.lat, t);
  }

  /** The crossing with a parallel does not depend on the segment's direction. */
  lemma {:induction false} CrossAtLatSwap(s: Point, e: Point, y: real, w: Window)
    requires CrossAtLat(e, s, y, w).Some?
    ensures CrossAtLat(s, e, y, w).Some?
  {
    var t' := (y - e.lat) / (s.lat - e.lat);
    var t := (y - s.lat) / (e.lat - s.lat);
    CrossAtLatThen(e, s, y, w);
    Complement(y, s.lat, e.lat);
    assert 1.0 - t == t';
    AlongBack(s.lon, e.lon, t);
    assert Along(s.lon, e.lon, t) == Along(e.lon, s.lon, t');
    CrossAtLatWhen(s, e, y, w);
  }

  /** A segment leaving the window through a meridian `x` alone (its end
      stays between south and north) crosses that meridian in the window. */
  lemma {:induction false} ExitAtLon(s: Point, e: Point, x: real, w: Window)
    requires ValidWindow(w) && InWindow(s, w) && w.south <= e.lat <= w.north
    requires s.lon != e.lon && Between(x, s.lon, e.lon)
    ensures CrossAtLon(s, e, x, w).Some?
  {
    Reach(s.lon, e.lon, x);
    StaysWithin(s.lat, e.lat, (x - s.lon) / (e.lon - s.lon), w.south, w.north);
    CrossAtLonWhen(s, e, x, w);
  }

  /** A segment leaving the window through a parallel `y` alone crosses
      that parallel in the window. */
  lemma {:induction false} ExitAtLat(s: Point, e: Point, y: real, w: Window)
    requires ValidWindow(w) && InWindow(s, w) && w.west <= e.lon <= w.east
    requires s.lat != e.lat && Between(y, s.lat, e.lat)
    ensures CrossAtLat(s, e, y, w).Some?
  {
    Reach(s.lat, e.lat, y);
    StaysWithin(s.lon, e.lon, (y - s.lat) / (e.lat - s.lat), w.west, w.east);
    CrossAtLatWhen(s, e, y, w);
  }

  /** The crossing with the meridian `x` is found when it lies between
      south and north at the parameter where the segment reaches `x`. */
  lemma {:induction false} CrossAtLonWhen(s: Point, e: Point, x: real, w: Window)
    requires s.lon != e.lon && Between(x, s.lon, e.lon)
    requires w.south <= Along(s.lat, e.lat, (x - s.lon) / (e.lon - s.lon)) <= w.north
    ensures CrossAtLon(s, e, x, w).Some?
  {
    Reach(s.lon, e.lon, x);
  }

  /** The crossing with the parallel `y` is found when it lies between
      west and east at the parameter where the segment reaches `y`. */
  lemma {:induction false} CrossAtLatWhen(s: Point, e: Point, y: real, w: Window)
    requires s.lat != e.lat && Between(y, s.lat, e.lat)
    requires w.west <= Along(s.lon, e.lon, (y - s.lat) / (e.lat - s.lat)) <= w.east
    ensures CrossAtLat(s, e, y, w).Some?
  {
    Reach(s.lat, e.lat, y);
  }

  /** A segment leaving the window past a corner, beyond both the meridian
      `x` and the parallel `y`, crosses whichever of the two it reaches
      first, and that crossing lies in the window. */
  lemma {:induction false} ExitAtCorner(s: Point, e: Point, x: real, y: real, w: Window)
    requires ValidWindow(w) && InWindow(s, w)
    requires x == w.west || x == w.east
    requires y == w.south || y == w.north
    requires s.lon != e.lon && Between(x, s.lon, e.lon)
    requires s.lat != e.lat && Between(y, s.lat, e.lat)
    ensures CrossAtLon(s, e, x, w).Some? || CrossAtLat(s, e, y, w).Some?
  {
    var tx := (x - s.lon) / (e.lon - s.lon);
    var ty := (y - s.lat) / (e.lat - s.lat);
    Reach(s.lon, e.lon, x);
    Reach(s.lat, e.lat, y);
    if tx <= ty {
      StaysBefore(s.lat, e.lat, y, tx);
      CrossAtLonWhen(s, e, x, w);
    } else {
      StaysBefore(s.lon, e.lon, x, ty);
      CrossAtLatWhen(s, e, y, w);
    }
  }

  /** From inside the window to outside, some edge is hit. */
  lemma {:induction false} ExitHit(s: Point, e: Point, w: Window)
    requires ValidWindow(w) && InWindow(s, w) && !InWindow(e, w)
    ensures exists edge :: EdgeHit(s, e, edge, w).Some?
  {
    var lonOut := e.lon < w.west || e.lon > w.east;
    var latOut := e.lat < w.south || e.lat > w.north;
    var x := if e.lon < w.west then w.west else w.east;
    var y := if e.lat < w.south then w.south else w.north;
    var ex := if e.lon < w.west then West else East;
    var ey := if e.lat < w.south then South else North;
    if lonOut && latOut {
      ExitAtCorner(s, e, x, y, w);
      assert EdgeHit(s, e, ex, w).Some? || EdgeHit(s, e, ey, w).Some?;
    } else if lonOut {
      ExitAtLon(s, e, x, w);
      assert EdgeHit(s, e, ex, w).Some?;
    } else {
      ExitAtLat(s, e, y, w);
      assert EdgeHit(s, e, ey, w).Some?;
    }
  }

  /** An edge hit walking `e` to `s` is also hit walking `s` to `e`. */
  lemma {:induction false} EdgeHitSwap(s: Point, e: Point, edge: Edge, w: Window)
    requires ValidWindow(w) && EdgeHit(e, s, edge, w).Some?
    ensures EdgeHit(s, e, edge, w).Some?
  {
    match edge
    case West => CrossAtLonSwap(s, e, w.west, w);
    case East => CrossAtLonSwap(s, e, w.east, w);
    case South => CrossAtLatSwap(s, e, w.south, w);
    case North => CrossAtLatSwap(s, e, w.north, w);
  }

  /** A segment with exactly one end in the window has a boundary
      intersection. */
  lemma {:induction false} CrossingHit(s: Point, e: Point, w: Window)
    requires ValidWindow(w) && InWindow(s, w) != InWindow(e, w)
    ensures FindBoundaryIntersection(s, e, w).Some?
  {
    var edge: Edge;
    if InWindow(s, w) {
      ExitHit(s, e, w);
      edge :| EdgeHit(s, e, edge, w).Some?;
    } else {
      ExitHit(e, s, w);
      edge :| EdgeHit(e, s, edge, w).Some?;
      EdgeHitSwap(s, e, edge, w);
    }
    FirstEdgeWins(s, e, w);
  }

  /** Two intersection points count as one when both coordinates differ by
      less than 1e-6. */
  predicate Near(p: Point, q: Point) {
    -0.000001 < p.lon - q.lon < 0.000001 && -0.000001 < p.lat - q.lat < 0.000001
  }

  /** No point of `ps` before position k is near `ps[k]`: the point is the
      first of its cluster (`index === self.findIndex(…)`). */
  predicate FirstOfCluster(ps: seq<Point>, k: nat)
    requires k < |ps|
  {
    forall j :: 0 <= j < k ==> !Near(ps[j], ps[k])
  }

  /** The dedup filter over the first n points of `ps`. */
  function Dedup(ps: seq<Point>, n: nat): (r: seq<Point>)
    requires n <= |ps|
    ensures |r| <= n
  {
    if n == 0 then []
    else if FirstOfCluster(ps, n - 1) then Dedup(ps, n - 1) + [ps[n - 1]]
    else Dedup(ps, n - 1)
  }

  /** The filter keeps only points of the input. */
  lemma {:induction false} DedupFrom(ps: seq<Point>, n: nat)
    requires n <= |ps|
    ensures forall a :: 0 <= a < |Dedup(ps, n)| ==> Dedup(ps, n)[a] in ps[..n]
  {
    if n > 0 {
      DedupFrom(ps, n - 1);
      assert ps[..n - 1] <= ps[..n];
      assert ps[..n][n - 1] == ps[n - 1];
    }
  }

  /** No two kept points are near each other. */
  lemma {:induction false} DedupApart(ps: seq<Point>, n: nat)
    requires n <= |ps|
    ensures forall a, b :: 0 <= a < b < |Dedup(ps, n)| ==> !Near(Dedup(ps, n)[a], Dedup(ps, n)[b])
  {
    if n > 0 {
      DedupApart(ps, n - 1);
      if FirstOfCluster(ps, n - 1) {
        var init := Dedup(ps, n - 1);
        DedupFrom(ps, n - 1);
        var r := init + [ps[n - 1]];
        forall a, b | 0 <= a < b < |r| ensures !Near(r[a], r[b]) {
          if b == |r| - 1 {
            var j :| 0 <= j < n - 1 && ps[..n - 1][j] == r[a];
          }
        }
      }
    }
  }

  /** Every point that is the first of its cluster is kept. */
  lemma {:induction false} DedupKeepsFirst(ps: seq<Point>, n: nat)
    requires n <= |ps|
    ensures forall k :: 0 <= k < n && FirstOfCluster(ps, k) ==> ps[k] in Dedup(ps, n)
  {
    if n > 0 {
      DedupKeepsFirst(ps, n - 1);
      var init := Dedup(ps, n - 1);
      var r := Dedup(ps, n);
      if FirstOfCluster(ps, n - 1) {
        assert r == init + [ps[n - 1]];
        assert r[|init|] == ps[n - 1];
        forall k | 0 <= k < n - 1 && FirstOfCluster(ps, k) ensures ps[k] in r {
          var a :| 0 <= a < |init| && init[a] == ps[k];
          assert r[a] == init[a];
        }
      }
    }
  }

  function Hit(h: Option<Point>): seq<Point> {
    if h.Some? then [h.value] else []
  }

  /** The edge hits in the order west, east, south, north. */
  function EdgeHits(s: Point, e: Point, w: Window): (r: seq<Point>)
    requires ValidWindow(w)
    ensures |r| <= 4 && AllIn(r, w)
  {
    Hit(EdgeHit(s, e, West, w)) + Hit(EdgeHit(s, e, East, w)) +
    Hit(EdgeHit(s, e, South, w)) + Hit(EdgeHit(s, e, North, w))
  }

  /** Dropping near-duplicates keeps points of the input only. */
  lemma DedupIn(ps: seq<Point>, w: Window)
    requires AllIn(ps, w)
    ensures AllIn(Dedup(ps, |ps|), w)
  {
    var r := Dedup(ps, |ps|);
    DedupFrom(ps, |ps|);
    forall a | 0 <= a < |r| ensures InWindow(r[a], w) {
      var j :| 0 <= j < |ps| && ps[..|ps|][j] == r[a];
    }
  }

  /** `findBoundaryIntersections`: every edge hit pushed in order, then the
      near-duplicates dropped, first occurrence kept. */
  method FindBoundaryIntersections(s: Point, e: Point, w: Window) returns (r: seq<Point>)
    requires ValidWindow(w)
    ensures |r| <= 4 && AllIn(r, w)
    ensures s == e ==> r == []
    ensures forall a, b :: 0 <= a < b < |r| ==> !Near(r[a], r[b])
    ensures r == Dedup(EdgeHits(s, e, w), |EdgeHits(s, e, w)|)
  {
    if s == e {
      return [];
    }
    var hits: seq<Point> := [];
    var west := EdgeHit(s, e, West, w);
    if west.Some? {
      hits := hits + [west.value];
    }
    assert hits == Hit(west);
    var east := EdgeHit(s, e, East, w);
    if east.Some? {
      hits := hits + [east.value];
    }
    assert hits == Hit(west) + Hit(east);
    var south := EdgeHit(s, e, South, w);
    if south.Some? {
      hits := hits + [south.value];
    }
    assert hits == Hit(west) + Hit(east) + Hit(south);
    var north := EdgeHit(s, e, North, w);
    if north.Some? {
      hits := hits + [north.value];
    }
    assert hits == EdgeHits(s, e, w);
    r := Dedup(hits, |hits|);
    DedupApart(hits, |hits|);
    DedupIn(hits, w);
  }

  // ---------------------------------------------------------------------
  // Line clipping

  /** Every piece has at least two points and lies in the window. */
  predicate GoodPieces(segs: seq<seq<Point>>, w: Window) {
    forall k :: 0 <= k < |segs| ==> |segs[k]| >= 2 && AllIn(segs[k], w)
  }

  lemma GoodPiecesAppend(segs: seq<seq<Point>>, piece: seq<Point>, w: Window)
    requires GoodPieces(segs, w) && |piece| >= 2 && AllIn(piece, w)
    ensures GoodPieces(segs + [piece], w)
  {
    var all := segs + [piece];
    forall k | 0 <= k < |all| ensures |all[k]| >= 2 && AllIn(all[k], w) {
      if k < |segs| {
        assert all[k] == segs[k];
      }
    }
  }

  /** The points of all pieces, as a set. */
  function Covered(segs: seq<seq<Point>>): set<Point> {
    if segs == [] then {} else Covered(segs[..|segs| - 1]) + SegmentMerge.Elems(segs[|segs| - 1])
  }

  lemma CoveredAppend(segs: seq<seq<Point>>, piece: seq<Point>)
    ensures Covered(segs + [piece]) == Covered(segs) + SegmentMerge.Elems(piece)
  {
    assert (segs + [piece])[..|segs|] == segs;
  }

  /** The points seen by the walk: those of the closed pieces and of the
      open one. */
  function Seen(segs: seq<seq<Point>>, cur: seq<Point>): set<Point> {
    Covered(segs) + SegmentMerge.Elems(cur)
  }

  /** On one of the window's four edge lines. */
  predicate OnBoundary(p: Point, w: Window) {
    p.lon == w.west || p.lon == w.east || p.lat == w.south || p.lat == w.north
  }

  /** The open piece, started with the pair's first point when it is empty. */
  function Opened(cur: seq<Point>, current: Point): seq<Point> {
    if cur == [] then [current] else cur
  }

  /** The four cases of the pair coords[i], coords[i + 1]: the pieces and
      the open piece after them, before the last pair's close. */
  function PairStep(coords: seq<Point>, w: Window, i: nat, segs: seq<seq<Point>>, cur: seq<Point>)
    : (seq<seq<Point>>, seq<Point>)
    requires ValidWindow(w) && i + 1 < |coords|
  {
    var current, next := coords[i], coords[i + 1];
    if InWindow(current, w) && InWindow(next, w) then
      (segs, Opened(cur, current) + [next])
    else if InWindow(current, w) then
      var piece := Opened(cur, current) + Hit(FindBoundaryIntersection(current, next, w));
      (if |piece| >= 2 then segs + [piece] else segs, [])
    else if InWindow(next, w) then
      (segs, cur + Hit(FindBoundaryIntersection(current, next, w)) + [next])
    else
      var hits := Dedup(EdgeHits(current, next, w), |EdgeHits(current, next, w)|);
      (if |hits| == 2 then segs + [hits] else segs, cur)
  }

  /** One turn of the walk: the pair's case, then on the last pair the open
      piece is saved when it has two or more points. */
  function ClipStep(coords: seq<Point>, w: Window, i: nat, segs: seq<seq<Point>>, cur: seq<Point>)
    : (seq<seq<Point>>, seq<Point>)
    requires ValidWindow(w) && i + 1 < |coords|
  {
    var (segs1, cur1) := PairStep(coords, w, i, segs, cur);
    if i == |coords| - 2 && |cur1| >= 2 then (segs1 + [cur1], []) else (segs1, cur1)
  }

  /** The walk from pair i to the end. */
  function ClipFrom(coords: seq<Point>, w: Window, i: nat, segs: seq<seq<Point>>, cur: seq<Point>)
    : (seq<seq<Point>>, seq<Point>)
    requires ValidWindow(w) && i < |coords|
    decreases |coords| - i
  {
    if i + 1 == |coords| then (segs, cur)
    else
      var (segs1, cur1) := ClipStep(coords, w, i, segs, cur);
      ClipFrom(coords, w, i + 1, segs1, cur1)
  }

  /** The pieces of a line inside the window (`validSegments`). */
  function Clip(coords: seq<Point>, w: Window): seq<seq<Point>>
    requires ValidWindow(w)
  {
    if |coords| < 2 then [] else ClipFrom(coords, w, 0, [], []).0
  }

  /** The walk's state before pair i: the pieces so far are good, the open
      piece is in the window and ends at point i, it is empty after the
      last pair, and for a line wholly inside the open piece is the line
      so far, closed at the last pair. */
  predicate ClipShape(coords: seq<Point>, w: Window, i: nat, segs: seq<seq<Point>>, cur: seq<Point>)
    requires 2 <= |coords| && i <= |coords| - 1
  {
    GoodPieces(segs, w) && AllIn(cur, w) &&
    (cur != [] ==> cur[|cur| - 1] == coords[i] && InWindow(coords[i], w)) &&
    (i == |coords| - 1 ==> cur == []) &&
    (AllIn(coords, w) && i < |coords| - 1 ==> segs == []) &&
    (AllIn(coords, w) && i == 0 ==> cur == []) &&
    (AllIn(coords, w) && 0 < i < |coords| - 1 ==> cur == coords[..i + 1]) &&
    (AllIn(coords, w) && i == |coords| - 1 ==> segs == [coords])
  }

  /** Every in-window point up to point i (point 0 once it has been passed)
      has been seen. */
  predicate ClipCovers(coords: seq<Point>, w: Window, i: nat, segs: seq<seq<Point>>, cur: seq<Point>)
    requires i < |coords|
  {
    (forall k :: 0 <= k < i && InWindow(coords[k], w) ==> coords[k] in Seen(segs, cur)) &&
    (0 < i && InWindow(coords[i], w) ==> coords[i] in Seen(segs, cur))
  }

  /** Every point seen is a point of the line or lies on the window's boundary. */
  predicate ClipSound(coords: seq<Point>, w: Window, segs: seq<seq<Point>>, cur: seq<Point>) {
    forall p :: p in Seen(segs, cur) ==> p in coords || OnBoundary(p, w)
  }

  /** One turn keeps the shape. A pair leaving or entering the window
      always has its boundary point, so the open piece closed on the way
      out and the one left after the last pair have two or more points. */
  lemma ClipShapeStep(coords: seq<Point>, w: Window, i: nat, segs: seq<seq<Point>>, cur: seq<Point>)
    requires ValidWindow(w) && 2 <= |coords| && i < |coords| - 1
    requires ClipShape(coords, w, i, segs, cur)
    ensures ClipShape(coords, w, i + 1, ClipStep(coords, w, i, segs, cur).0, ClipStep(coords, w, i, segs, cur).1)
  {
    var current, next := coords[i], coords[i + 1];
    var (segs1, cur1) := PairStep(coords, w, i, segs, cur);
    if InWindow(current, w) && InWindow(next, w) {
      assert AllIn(coords, w) ==> cur1 == coords[..i + 2];
    } else if InWindow(current, w) {
      CrossingHit(current, next, w);
      var piece := Opened(cur, current) + Hit(FindBoundaryIntersection(current, next, w));
      GoodPiecesAppend(segs, piece, w);
    } else if InWindow(next, w) {
      CrossingHit(current, next, w);
    } else {
      var hits := Dedup(EdgeHits(current, next, w), |EdgeHits(current, next, w)|);
      DedupIn(EdgeHits(current, next, w), w);
      if |hits| == 2 {
        GoodPiecesAppend(segs, hits, w);
      }
    }
    if i == |coords| - 2 && |cur1| >= 2 {
      assert AllIn(coords, w) ==> cur1 == coords;
      GoodPiecesAppend(segs1, cur1, w);
    }
  }

  /** Extending the open piece keeps what was seen and sees both points. */
  lemma SeenExtend(segs: seq<seq<Point>>, cur: seq<Point>, current: Point, next: Point)
    requires cur != [] ==> cur[|cur| - 1] == current
    ensures Seen(segs, cur) + {current, next} <= Seen(segs, Opened(cur, current) + [next])
  {
    assert SegmentMerge.Elems(Opened(cur, current) + [next]) == SegmentMerge.Elems(Opened(cur, current)) + {next};
    assert current in SegmentMerge.Elems(Opened(cur, current));
  }

  /** Closing the open piece, with `h` appended, keeps what was seen and
      sees the pair's first point. */
  lemma SeenClose(segs: seq<seq<Point>>, cur: seq<Point>, current: Point, h: seq<Point>)
    requires cur != [] ==> cur[|cur| - 1] == current
    ensures Seen(segs, cur) + {current} <= Seen(segs + [Opened(cur, current) + h], [])
  {
    var piece := Opened(cur, current) + h;
    CoveredAppend(segs, piece);
    assert SegmentMerge.Elems(piece) == SegmentMerge.Elems(Opened(cur, current)) + SegmentMerge.Elems(h);
    assert current in SegmentMerge.Elems(Opened(cur, current));
  }

  /** Entering the window keeps what was seen and sees the pair's second point. */
  lemma SeenEnter(segs: seq<seq<Point>>, cur: seq<Point>, h: seq<Point>, next: Point)
    ensures Seen(segs, cur) + {next} <= Seen(segs, cur + h + [next])
  {
    assert SegmentMerge.Elems(cur + h + [next]) == SegmentMerge.Elems(cur) + SegmentMerge.Elems(h) + {next};
  }

  /** A saved piece keeps what was seen. */
  lemma SeenSave(segs: seq<seq<Point>>, cur: seq<Point>, piece: seq<Point>)
    ensures Seen(segs, cur) <= Seen(segs + [piece], cur)
  {
    CoveredAppend(segs, piece);
  }

  /** A pair's case sees every point seen before, and the pair's points
      that are in the window. */
  lemma PairSeen(coords: seq<Point>, w: Window, i: nat, segs: seq<seq<Point>>, cur: seq<Point>)
    requires ValidWindow(w) && i + 1 < |coords|
    requires cur != [] ==> cur[|cur| - 1] == coords[i]
    ensures Seen(segs, cur) <= Seen(PairStep(coords, w, i, segs, cur).0, PairStep(coords, w, i, segs, cur).1)
    ensures InWindow(coords[i], w) ==> coords[i] in Seen(PairStep(coords, w, i, segs, cur).0, PairStep(coords, w, i, segs, cur).1)
    ensures InWindow(coords[i + 1], w) ==> coords[i + 1] in Seen(PairStep(coords, w, i, segs, cur).0, PairStep(coords, w, i, segs, cur).1)
  {
    var current, next := coords[i], coords[i + 1];
    var h := Hit(FindBoundaryIntersection(current, next, w));
    if InWindow(current, w) && InWindow(next, w) {
      assert PairStep(coords, w, i, segs, cur) == (segs, Opened(cur, current) + [next]);
      SeenExtend(segs, cur, current, next);
    } else if InWindow(current, w) {
      CrossingHit(current, next, w);
      var piece := Opened(cur, current) + h;
      assert |piece| >= 2;
      assert PairStep(coords, w, i, segs, cur) == (segs + [piece], []);
      SeenClose(segs, cur, current, h);
    } else if InWindow(next, w) {
      assert PairStep(coords, w, i, segs, cur) == (segs, cur + h + [next]);
      SeenEnter(segs, cur, h, next);
    } else {
      var hits := Dedup(EdgeHits(current, next, w), |EdgeHits(current, next, w)|);
      if |hits| == 2 {
        assert PairStep(coords, w, i, segs, cur) == (segs + [hits], cur);
        SeenSave(segs, cur, hits);
      } else {
        assert PairStep(coords, w, i, segs, cur) == (segs, cur);
      }
    }
  }

  /** The last pair's close loses no point seen. */
  lemma CloseSeen(coords: seq<Point>, w: Window, i: nat, segs: seq<seq<Point>>, cur: seq<Point>)
    requires ValidWindow(w) && i + 1 < |coords|
    ensures Seen(PairStep(coords, w, i, segs, cur).0, PairStep(coords, w, i, segs, cur).1) <=
            Seen(ClipStep(coords, w, i, segs, cur).0, ClipStep(coords, w, i, segs, cur).1)
  {
    var (segs1, cur1) := PairStep(coords, w, i, segs, cur);
    if i == |coords| - 2 && |cur1| >= 2 {
      CoveredAppend(segs1, cur1);
    }
  }

  /** One turn sees every point seen before, and the pair's points that
      are in the window. */
  lemma ClipCoversStep(coords: seq<Point>, w: Window, i: nat, segs: seq<seq<Point>>, cur: seq<Point>)
    requires ValidWindow(w) && 2 <= |coords| && i < |coords| - 1
    requires ClipShape(coords, w, i, segs, cur) && ClipCovers(coords, w, i, segs, cur)
    ensures ClipCovers(coords, w, i + 1, ClipStep(coords, w, i, segs, cur).0, ClipStep(coords, w, i, segs, cur).1)
  {
    var (segs2, cur2) := ClipStep(coords, w, i, segs, cur);
    PairSeen(coords, w, i, segs, cur);
    CloseSeen(coords, w, i, segs, cur);
    assert Seen(segs, cur) <= Seen(segs2, cur2);
    forall k | 0 <= k < i + 1 && InWindow(coords[k], w)
      ensures coords[k] in Seen(segs2, cur2)
    {
      if k < i {
        assert coords[k] in Seen(segs, cur);
      }
    }
  }

  /** The boundary points a turn adds lie on the window's edges. */
  lemma HitsOnBoundary(s: Point, e: Point, w: Window)
    requires ValidWindow(w)
    ensures forall p :: p in Hit(FindBoundaryIntersection(s, e, w)) ==> OnBoundary(p, w)
    ensures forall p :: p in Dedup(EdgeHits(s, e, w), |EdgeHits(s, e, w)|) ==> OnBoundary(p, w)
  {
    var hits := EdgeHits(s, e, w);
    DedupFrom(hits, |hits|);
    assert hits[..|hits|] == hits;
    forall p | p in hits ensures OnBoundary(p, w) {
      var edge: Edge;
      if p in Hit(EdgeHit(s, e, West, w)) {
        edge := West;
      } else if p in Hit(EdgeHit(s, e, East, w)) {
        edge := East;
      } else if p in Hit(EdgeHit(s, e, South, w)) {
        edge := South;
      } else {
        edge := North;
      }
      assert OnEdge(p, edge, w);
    }
  }

  /** One turn adds only points of the line and boundary points. */
  lemma ClipSoundStep(coords: seq<Point>, w: Window, i: nat, segs: seq<seq<Point>>, cur: seq<Point>)
    requires ValidWindow(w) && 2 <= |coords| && i < |coords| - 1
    requires ClipSound(coords, w, segs, cur)
    ensures ClipSound(coords, w, ClipStep(coords, w, i, segs, cur).0, ClipStep(coords, w, i, segs, cur).1)
  {
    var current, next := coords[i], coords[i + 1];
    var (segs1, cur1) := PairStep(coords, w, i, segs, cur);
    var (segs2, cur2) := ClipStep(coords, w, i, segs, cur);
    HitsOnBoundary(current, next, w);
    var extra := SegmentMerge.Elems(Hit(FindBoundaryIntersection(current, next, w))) +
                 SegmentMerge.Elems(Dedup(EdgeHits(current, next, w), |EdgeHits(current, next, w)|));
    if InWindow(current, w) && InWindow(next, w) {
    } else if InWindow(current, w) {
      var piece := Opened(cur, current) + Hit(FindBoundaryIntersection(current, next, w));
      CoveredAppend(segs, piece);
    } else if InWindow(next, w) {
    } else {
      var hits := Dedup(EdgeHits(current, next, w), |EdgeHits(current, next, w)|);
      if |hits| == 2 {
        CoveredAppend(segs, hits);
      }
    }
    assert Seen(segs1, cur1) <= Seen(segs, cur) + {current, next} + extra;
    if i == |coords| - 2 && |cur1| >= 2 {
      CoveredAppend(segs1, cur1);
    }
    assert Seen(segs2, cur2) <= Seen(segs1, cur1);
  }

  /** The walk's whole state. */
  predicate ClipInv(coords: seq<Point>, w: Window, i: nat, segs: seq<seq<Point>>, cur: seq<Point>)
    requires 2 <= |coords| && i <= |coords| - 1
  {
    ClipShape(coords, w, i, segs, cur) && ClipCovers(coords, w, i, segs, cur) && ClipSound(coords, w, segs, cur)
  }

  /** One turn keeps the walk's whole state. */
  lemma ClipInvStep(coords: seq<Point>, w: Window, i: nat, segs: seq<seq<Point>>, cur: seq<Point>)
    requires ValidWindow(w) && 2 <= |coords| && i < |coords| - 1
    requires ClipInv(coords, w, i, segs, cur)
    ensures ClipInv(coords, w, i + 1, ClipStep(coords, w, i, segs, cur).0, ClipStep(coords, w, i, segs, cur).1)
  {
    ClipShapeStep(coords, w, i, segs, cur);
    ClipCoversStep(coords, w, i, segs, cur);
    ClipSoundStep(coords, w, i, segs, cur);
  }

  /** The walk from pair i on ends in a state that still holds. */
  lemma {:induction false} ClipFromKeeps(coords: seq<Point>, w: Window, i: nat, segs: seq<seq<Point>>, cur: seq<Point>)
    requires ValidWindow(w) && 2 <= |coords| && i <= |coords| - 1
    requires ClipInv(coords, w, i, segs, cur)
    ensures var r := ClipFrom(coords, w, i, segs, cur); ClipInv(coords, w, |coords| - 1, r.0, r.1)
    decreases |coords| - i
  {
    var r := ClipFrom(coords, w, i, segs, cur);
    if i + 1 < |coords| {
      var (segs1, cur1) := ClipStep(coords, w, i, segs, cur);
      ClipInvStep(coords, w, i, segs, cur);
      ClipFromKeeps(coords, w, i + 1, segs1, cur1);
      assert r == ClipFrom(coords, w, i + 1, segs1, cur1);
    } else {
      assert r == (segs, cur);
    }
  }

  /** The walk's final state. */
  lemma ClipEnd(coords: seq<Point>, w: Window)
    requires ValidWindow(w) && 2 <= |coords|
    ensures ClipInv(coords, w, |coords| - 1, ClipFrom(coords, w, 0, [], []).0, ClipFrom(coords, w, 0, [], []).1)
  {
    assert ClipInv(coords, w, 0, [], []);
    ClipFromKeeps(coords, w, 0, [], []);
  }

  /** The pieces are good; a line of fewer than two points gives none, and
      a line wholly inside comes back whole. */
  lemma ClipGood(coords: seq<Point>, w: Window)
    requires ValidWindow(w)
    ensures GoodPieces(Clip(coords, w), w)
    ensures |coords| < 2 ==> Clip(coords, w) == []
    ensures |coords| >= 2 && AllIn(coords, w) ==> Clip(coords, w) == [coords]
  {
    if |coords| >= 2 {
      ClipEnd(coords, w);
    }
  }

  /** No in-window point of a line of two or more points is lost. */
  lemma ClipCoversPoint(coords: seq<Point>, w: Window, k: nat)
    requires ValidWindow(w) && 2 <= |coords| && k < |coords| && InWindow(coords[k], w)
    ensures coords[k] in Covered(Clip(coords, w))
  {
    ClipEnd(coords, w);
  }

  /** Every point of a piece is a point of the line or a boundary crossing. */
  lemma ClipSoundPoints(coords: seq<Point>, w: Window)
    requires ValidWindow(w)
    ensures forall p :: p in Covered(Clip(coords, w)) ==> p in coords || OnBoundary(p, w)
  {
    if |coords| >= 2 {
      ClipEnd(coords, w);
    }
  }

  /** A two-point line is walked in one turn. */
  lemma ClipOnePair(s: Point, e: Point, w: Window)
    requires ValidWindow(w)
    ensures Clip([s, e], w) == ClipStep([s, e], w, 0, [], []).0
  {
    var (segs1, cur1) := ClipStep([s, e], w, 0, [], []);
    assert ClipFrom([s, e], w, 0, [], []) == ClipFrom([s, e], w, 1, segs1, cur1);
  }

  /** A two-point line: both inside gives itself; one end inside gives the
      inside end joined to the boundary point; both outside gives the two
      boundary crossings when there are exactly two. */
  lemma ClipTwoPoints(s: Point, e: Point, w: Window)
    requires ValidWindow(w)
    ensures InWindow(s, w) && InWindow(e, w) ==> Clip([s, e], w) == [[s, e]]
    ensures InWindow(s, w) != InWindow(e, w) ==> FindBoundaryIntersection(s, e, w).Some?
    ensures InWindow(s, w) && !InWindow(e, w) ==> Clip([s, e], w) == [[s, FindBoundaryIntersection(s, e, w).value]]
    ensures !InWindow(s, w) && InWindow(e, w) ==> Clip([s, e], w) == [[FindBoundaryIntersection(s, e, w).value, e]]
    ensures !InWindow(s, w) && !InWindow(e, w) ==>
              var hits := Dedup(EdgeHits(s, e, w), |EdgeHits(s, e, w)|);
              Clip([s, e], w) == (if |hits| == 2 then [hits] else [])
  {
    ClipOnePair(s, e, w);
    var coords := [s, e];
    assert coords[0] == s && coords[1] == e;
    if InWindow(s, w) && InWindow(e, w) {
      assert Opened([], coords[0]) + [coords[1]] == [s, e];
    } else if InWindow(s, w) && !InWindow(e, w) {
      CrossingHit(s, e, w);
      var hit := FindBoundaryIntersection(s, e, w).value;
      var piece := Opened([], coords[0]) + Hit(FindBoundaryIntersection(coords[0], coords[1], w));
      assert piece == [s, hit];
      assert PairStep(coords, w, 0, [], []) == ([] + [piece], []);
    } else if !InWindow(s, w) && InWindow(e, w) {
      CrossingHit(s, e, w);
      var hit := FindBoundaryIntersection(s, e, w).value;
      assert [] + Hit(FindBoundaryIntersection(s, e, w)) + [e] == [hit, e];
      assert PairStep(coords, w, 0, [], []) == ([], [hit, e]);
    }
  }

  /** The four cases of one pair `coords[i]`, `coords[i + 1]`. */
  method PairCase(coords: seq<Point>, w: Window, i: nat, segs0: seq<seq<Point>>, cur0: seq<Point>)
    returns (segs: seq<seq<Point>>, cur: seq<Point>)
    requires ValidWindow(w) && i + 1 < |coords|
    ensures (segs, cur) == PairStep(coords, w, i, segs0, cur0)
  {
    segs, cur := segs0, cur0;
    var current, next := coords[i], coords[i + 1];
    var currentIn, nextIn := InWindow(current, w), InWindow(next, w);
    if currentIn && nextIn {
      if cur == [] {
        cur := cur + [current];
      }
      assert cur == Opened(cur0, current);
      cur := cur + [next];
    } else if currentIn && !nextIn {
      if cur == [] {
        cur := cur + [current];
      }
      var hit := FindBoundaryIntersection(current, next, w);
      if hit.Some? {
        cur := cur + [hit.value];
      }
      assert cur == Opened(cur0, current) + Hit(hit);
      if |cur| >= 2 {
        segs := segs + [cur];
      }
      cur := [];
    } else if !currentIn && nextIn {
      var hit := FindBoundaryIntersection(current, next, w);
      if hit.Some? {
        cur := cur + [hit.value];
      }
      assert cur == cur0 + Hit(hit);
      cur := cur + [next];
    } else {
      var hits := FindBoundaryIntersections(current, next, w);
      if |hits| == 2 {
        segs := segs + [hits];
      }
    }
  }

  /** One turn of the walk: the pair's case, then the close after the
      last pair. */
  method ClipPair(coords: seq<Point>, w: Window, i: nat, segs0: seq<seq<Point>>, cur0: seq<Point>)
    returns (segs: seq<seq<Point>>, cur: seq<Point>)
    requires ValidWindow(w) && i + 1 < |coords|
    ensures (segs, cur) == ClipStep(coords, w, i, segs0, cur0)
  {
    segs, cur := PairCase(coords, w, i, segs0, cur0);
    if i == |coords| - 2 && |cur| >= 2 {
      segs := segs + [cur];
      cur := [];
    }
  }

  /** The walk over consecutive point pairs of one line, producing the
      pieces inside the window (`validSegments`). */
  method ClipLine(coords: seq<Point>, w: Window) returns (segs: seq<seq<Point>>)
    requires ValidWindow(w)
    ensures segs == Clip(coords, w)
    ensures GoodPieces(segs, w)
    ensures |coords| >= 2 && AllIn(coords, w) ==> segs == [coords]
    ensures |coords| < 2 ==> segs == []
    ensures |coords| >= 2 ==> forall k :: 0 <= k < |coords| && InWindow(coords[k], w) ==> coords[k] in Covered(segs)
    ensures forall p :: p in Covered(segs) ==> p in coords || OnBoundary(p, w)
  {
    ClipGood(coords, w);
    ClipSoundPoints(coords, w);
    if |coords| >= 2 {
      forall k | 0 <= k < |coords| && InWindow(coords[k], w) ensures coords[k] in Covered(Clip(coords, w)) {
        ClipCoversPoint(coords, w, k);
      }
    }
    segs := [];
    var cur: seq<Point> := [];
    if |coords| < 2 {
      return;
    }
    var i := 0;
    while i < |coords| - 1
      invariant 0 <= i <= |coords| - 1
      invariant ClipFrom(coords, w, i, segs, cur) == ClipFrom(coords, w, 0, [], [])
    {
      segs, cur := ClipPair(coords, w, i, segs, cur);
      i := i + 1;
    }
  }

  // ---------------------------------------------------------------------
  // Width and the properties of a clipped piece

  /** The width of a river in metres from its tags. A `width` tag that
      parses to a positive number wins; a `width` tag that does not gives 5;
      without one, the `waterway` type picks from a table, 5 by default. */
  function Width(t: Tags, parseFloat: string -> Option<real>): (r: real)
    ensures r > 0.0
    ensures HasTag(t, "width") && parseFloat(t["width"]).Some? && parseFloat(t["width"]).value > 0.0 ==>
              r == parseFloat(t["width"]).value
    ensures r in {20.0, 3.0, 15.0, 1.0, 2.0, 5.0} ||
            (HasTag(t, "width") && parseFloat(t["width"]) == Some(r))
  {
    if HasTag(t, "width") then
      var v := parseFloat(t["width"]);
      if v.Some? && v.value > 0.0 then v.value else 5.0
    else if HasTag(t, "waterway") then
      TypeWidth(t["waterway"])
    else 5.0
  }

  /** The `switch` over waterway types. */
  function TypeWidth(kind: string): real {
    match kind
    case "river" => 20.0
    case "stream" => 3.0
    case "canal" => 15.0
    case "ditch" => 1.0
    case "brook" => 2.0
    case _ => 5.0
  }

  /** A `width` tag that is present but unusable never falls back to the
      type table, and with no `width` tag the table decides. */
  lemma WidthCases(t: Tags, parseFloat: string -> Option<real>)
    ensures HasTag(t, "width") && (parseFloat(t["width"]).None? || parseFloat(t["width"]).value <= 0.0) ==>
              Width(t, parseFloat) == 5.0
    ensures !HasTag(t, "width") && TagIs(t, "waterway", "river") ==> Width(t, parseFloat) == 20.0
    ensures !HasTag(t, "width") && TagIs(t, "waterway", "stream") ==> Width(t, parseFloat) == 3.0
    ensures !HasTag(t, "width") && TagIs(t, "waterway", "canal") ==> Width(t, parseFloat) == 15.0
    ensures !HasTag(t, "width") && TagIs(t, "waterway", "ditch") ==> Width(t, parseFloat) == 1.0
    ensures !HasTag(t, "width") && TagIs(t, "waterway", "brook") ==> Width(t, parseFloat) == 2.0
    ensures !HasTag(t, "width") && !HasTag(t, "waterway") ==> Width(t, parseFloat) == 5.0
    ensures !HasTag(t, "width") && HasTag(t, "waterway") &&
            t["waterway"] !in {"river", "stream", "canal", "ditch", "brook"} ==>
              Width(t, parseFloat) == 5.0
  {
  }

  /** The tags object of a line's properties (`properties.tags`, `{}` when absent). */
  function TagsOf(p: Props): Tags {
    if "tags" in p && p["tags"].Obj? then p["tags"].fields else map[]
  }

  /** `{...properties, originalType: properties.type || 'river', width}` */
  function PieceProps(p: Props, parseFloat: string -> Option<real>): Props {
    p + map["originalType" := Or(Get(p, "type"), Str("river")),
            "width" := Num(Width(TagsOf(p), parseFloat))]
  }

  /** A piece keeps every property of its line, and adds `originalType`
      (the line's type when truthy) and the line's width. */
  lemma PiecePropsShape(p: Props, parseFloat: string -> Option<real>)
    ensures var r := PieceProps(p, parseFloat);
            r.Keys == p.Keys + {"originalType", "width"} &&
            (forall k :: k in p && k != "originalType" && k != "width" ==> r[k] == p[k]) &&
            r["width"] == Num(Width(TagsOf(p), parseFloat)) &&
            (Truthy(Get(p, "type")) ==> r["originalType"] == p["type"])
  {
  }

  /** Each piece as a line of its own carrying `props`. */
  function PieceLines(segs: seq<seq<Point>>, props: Props): seq<Line> {
    seq(|segs|, k requires 0 <= k < |segs| => SegmentMerge.Line(segs[k], props))
  }

  lemma {:induction false} PieceLinesPoints(segs: seq<seq<Point>>, props: Props)
    ensures SegmentMerge.Points(PieceLines(segs, props)) == Covered(segs)
    decreases |segs|
  {
    if segs != [] {
      var n := |segs|;
      assert PieceLines(segs, props)[..n - 1] == PieceLines(segs[..n - 1], props);
      PieceLinesPoints(segs[..n - 1], props);
    }
  }

  /** Each line's pieces inside the window. */
  function LinePieces(lines: seq<Line>, w: Window): seq<seq<seq<Point>>>
    requires ValidWindow(w)
  {
    seq(|lines|, k requires 0 <= k < |lines| => Clip(lines[k].coords, w))
  }

  lemma LinePiecesAt(lines: seq<Line>, w: Window, i: nat)
    requires ValidWindow(w) && i < |lines|
    ensures |LinePieces(lines, w)| == |lines|
    ensures LinePieces(lines, w)[i] == Clip(lines[i].coords, w)
  {
  }

  /** The pieces of the first n lines, in order, line j's pieces carrying
      props[j]. */
  function PieceRows(pieces: seq<seq<seq<Point>>>, props: seq<Props>, n: nat): seq<Line>
    requires n <= |pieces| && |props| == |pieces|
  {
    if n == 0 then []
    else PieceRows(pieces, props, n - 1) + PieceLines(pieces[n - 1], props[n - 1])
  }

  /** Each line's properties as its pieces carry them. */
  function LineProps(lines: seq<Line>, parseFloat: string -> Option<real>): seq<Props> {
    seq(|lines|, k requires 0 <= k < |lines| => PieceProps(lines[k].props, parseFloat))
  }

  lemma LinePropsAt(lines: seq<Line>, parseFloat: string -> Option<real>, i: nat)
    requires i < |lines|
    ensures |LineProps(lines, parseFloat)| == |lines|
    ensures LineProps(lines, parseFloat)[i] == PieceProps(lines[i].props, parseFloat)
  {
  }

  /** The clipping loop's result: every line's pieces, in order, each a line
      of its own with the properties of the line it came from and its width. */
  function ClippedLines(lines: seq<Line>, w: Window, parseFloat: string -> Option<real>): seq<Line>
    requires ValidWindow(w)
  {
    PieceRows(LinePieces(lines, w), LineProps(lines, parseFloat), |lines|)
  }

  /** The line carries a positive `width` property. */
  predicate HasWidth(l: Line) {
    "width" in l.props && l.props["width"].Num? && l.props["width"].x > 0.0
  }

  /** Every piece line has two or more points, all in the window, and
      carries the properties of the line it came from. */
  lemma {:induction false} RowsGood(pieces: seq<seq<seq<Point>>>, props: seq<Props>, n: nat, w: Window)
    requires n <= |pieces| && |props| == |pieces|
    requires forall j :: 0 <= j < |pieces| ==> GoodPieces(pieces[j], w)
    ensures SegmentMerge.AllWellFormed(PieceRows(pieces, props, n))
    ensures SegmentMerge.LinesIn(PieceRows(pieces, props, n), w)
    ensures forall k :: 0 <= k < |PieceRows(pieces, props, n)| ==> PieceRows(pieces, props, n)[k].props in props[..n]
  {
    if n > 0 {
      RowsGood(pieces, props, n - 1, w);
      var init := PieceRows(pieces, props, n - 1);
      var last := PieceLines(pieces[n - 1], props[n - 1]);
      var r := init + last;
      assert GoodPieces(pieces[n - 1], w);
      forall k | 0 <= k < |r|
        ensures SegmentMerge.WellFormed(r[k]) && AllIn(r[k].coords, w) && r[k].props in props[..n]
      {
        if k < |init| {
          assert r[k] == init[k];
          assert props[..n - 1] <= props[..n];
        } else {
          assert r[k] == last[k - |init|];
          assert props[..n][n - 1] == props[n - 1];
        }
      }
    }
  }

  /** The points of the first n lines' pieces: those of the first n - 1,
      and those of line n - 1's pieces. */
  lemma {:induction false} RowsPointsAppend(pieces: seq<seq<seq<Point>>>, props: seq<Props>, n: nat)
    requires 0 < n <= |pieces| && |props| == |pieces|
    ensures SegmentMerge.Points(PieceRows(pieces, props, n)) ==
              SegmentMerge.Points(PieceRows(pieces, props, n - 1)) + Covered(pieces[n - 1])
  {
    PointsConcat(PieceRows(pieces, props, n - 1), PieceLines(pieces[n - 1], props[n - 1]));
    PieceLinesPoints(pieces[n - 1], props[n - 1]);
  }

  lemma {:induction false} PointsConcat(a: seq<Line>, b: seq<Line>)
    ensures SegmentMerge.Points(a + b) == SegmentMerge.Points(a) + SegmentMerge.Points(b)
    decreases |b|
  {
    if b != [] {
      var n := |b|;
      assert a + b == (a + b[..n - 1]) + [b[n - 1]];
      SegmentMerge.PointsAppend(a + b[..n - 1], b[n - 1]);
      PointsConcat(a, b[..n - 1]);
      assert b == b[..n - 1] + [b[n - 1]];
      SegmentMerge.PointsAppend(b[..n - 1], b[n - 1]);
    } else {
      assert a + b == a;
    }
  }

  lemma PointsPrefix(ls: seq<Line>, n: nat)
    requires 0 < n <= |ls|
    ensures SegmentMerge.Points(ls[..n]) == SegmentMerge.Points(ls[..n - 1]) + SegmentMerge.Elems(ls[n - 1].coords)
  {
    assert ls[..n][..n - 1] == ls[..n - 1];
  }

  /** Later rows hold every point of earlier rows. */
  lemma {:induction false} RowsGrow(pieces: seq<seq<seq<Point>>>, props: seq<Props>, m: nat, n: nat, p: Point)
    requires m <= n <= |pieces| && |props| == |pieces|
    requires p in SegmentMerge.Points(PieceRows(pieces, props, m))
    ensures p in SegmentMerge.Points(PieceRows(pieces, props, n))
    decreases n
  {
    if m < n {
      RowsGrow(pieces, props, m, n - 1, p);
      RowsPointsAppend(pieces, props, n);
    }
  }

  /** No point of any line's pieces is lost by the clipping loop. */
  lemma RowsCover(pieces: seq<seq<seq<Point>>>, props: seq<Props>, n: nat, j: nat, p: Point)
    requires j < n <= |pieces| && |props| == |pieces|
    requires p in Covered(pieces[j])
    ensures p in SegmentMerge.Points(PieceRows(pieces, props, n))
  {
    RowsPointsAppend(pieces, props, j + 1);
    RowsGrow(pieces, props, j + 1, n, p);
  }

  /** Every piece point of line j is a point of line j or a boundary point. */
  predicate SoundPieces(pieces: seq<seq<seq<Point>>>, lines: seq<Line>, w: Window)
    requires |pieces| == |lines|
  {
    forall j, p :: 0 <= j < |pieces| && p in Covered(pieces[j]) ==>
      p in SegmentMerge.Elems(lines[j].coords) || OnBoundary(p, w)
  }

  /** Every point of a piece line is a point of one of the lines it came
      from or a boundary crossing. */
  lemma {:induction false} RowsSound(pieces: seq<seq<seq<Point>>>, lines: seq<Line>, w: Window, props: seq<Props>, n: nat)
    requires n <= |pieces| && |props| == |pieces| && |lines| == |pieces|
    requires SoundPieces(pieces, lines, w)
    ensures forall p :: p in SegmentMerge.Points(PieceRows(pieces, props, n)) ==>
              p in SegmentMerge.Points(lines[..n]) || OnBoundary(p, w)
  {
    if n > 0 {
      RowsSound(pieces, lines, w, props, n - 1);
      RowsPointsAppend(pieces, props, n);
      PointsPrefix(lines, n);
    }
  }

  /** What the clipping loop promises: good lines with a width; every
      in-window point of every line of two or more points kept; no point
      that is neither an input point nor a boundary crossing. */
  lemma ClippedProps(lines: seq<Line>, w: Window, parseFloat: string -> Option<real>)
    requires ValidWindow(w)
    ensures SegmentMerge.AllWellFormed(ClippedLines(lines, w, parseFloat))
    ensures SegmentMerge.LinesIn(ClippedLines(lines, w, parseFloat), w)
    ensures forall k :: 0 <= k < |ClippedLines(lines, w, parseFloat)| ==> HasWidth(ClippedLines(lines, w, parseFloat)[k])
    ensures forall j, k :: 0 <= j < |lines| && 2 <= |lines[j].coords| && 0 <= k < |lines[j].coords| && InWindow(lines[j].coords[k], w) ==>
              lines[j].coords[k] in SegmentMerge.Points(ClippedLines(lines, w, parseFloat))
    ensures forall p :: p in SegmentMerge.Points(ClippedLines(lines, w, parseFloat)) ==>
              p in SegmentMerge.Points(lines) || OnBoundary(p, w)
  {
    var pieces := LinePieces(lines, w);
    var props := LineProps(lines, parseFloat);
    var r := ClippedLines(lines, w, parseFloat);
    forall j | 0 <= j < |pieces| ensures GoodPieces(pieces[j], w) {
      ClipGood(lines[j].coords, w);
    }
    RowsGood(pieces, props, |lines|, w);
    assert props[..|lines|] == props;
    forall k | 0 <= k < |r| ensures HasWidth(r[k]) {
      var j :| 0 <= j < |props| && props[j] == r[k].props;
      PiecePropsShape(lines[j].props, parseFloat);
    }
    forall j, k | 0 <= j < |lines| && 2 <= |lines[j].coords| && 0 <= k < |lines[j].coords| && InWindow(lines[j].coords[k], w)
      ensures lines[j].coords[k] in SegmentMerge.Points(r)
    {
      ClipCoversPoint(lines[j].coords, w, k);
      RowsCover(pieces, props, |lines|, j, lines[j].coords[k]);
    }
    forall j, p | 0 <= j < |pieces| && p in Covered(pieces[j])
      ensures p in SegmentMerge.Elems(lines[j].coords) || OnBoundary(p, w)
    {
      ClipSoundPoints(lines[j].coords, w);
    }
    RowsSound(pieces, lines, w, props, |lines|);
    assert lines[..|lines|] == lines;
  }

  /** The inner loop: each piece appended as a line carrying `props`. */
  method AppendPieces(out0: seq<Line>, segs: seq<seq<Point>>, props: Props) returns (out: seq<Line>)
    ensures out == out0 + PieceLines(segs, props)
  {
    out := out0;
    var j := 0;
    while j < |segs|
      invariant 0 <= j <= |segs|
      invariant out == out0 + PieceLines(segs[..j], props)
    {
      assert PieceLines(segs[..j + 1], props) == PieceLines(segs[..j], props) + [SegmentMerge.Line(segs[j], props)];
      out := out + [SegmentMerge.Line(segs[j], props)];
      j := j + 1;
    }
    assert segs[..|segs|] == segs;
  }

  /** The rows up to line i + 1 are those up to line i followed by line
      i's pieces. */
  lemma RowsNext(pieces: seq<seq<seq<Point>>>, props: seq<Props>, i: nat, segs: seq<seq<Point>>, p: Props)
    requires i < |pieces| && |props| == |pieces| && pieces[i] == segs && props[i] == p
    ensures PieceRows(pieces, props, i + 1) == PieceRows(pieces, props, i) + PieceLines(segs, p)
  {
  }

  /** One turn of the clipping loop: the line's pieces become lines of
      their own, carrying the line's properties and its width. */
  method ClipRow(out0: seq<Line>, line: Line, w: Window, parseFloat: string -> Option<real>) returns (out: seq<Line>)
    requires ValidWindow(w)
    ensures out == out0 + PieceLines(Clip(line.coords, w), PieceProps(line.props, parseFloat))
  {
    var segs := ClipLine(line.coords, w);
    var props := PieceProps(line.props, parseFloat);
    out := AppendPieces(out0, segs, props);
  }

  /** The clipping loop over every line: each piece becomes a line of its
      own carrying the width of the line it came from. */
  method ClipLines(lines: seq<Line>, w: Window, parseFloat: string -> Option<real>) returns (out: seq<Line>)
    requires ValidWindow(w)
    ensures out == ClippedLines(lines, w, parseFloat)
  {
    ghost var allPieces := LinePieces(lines, w);
    ghost var allProps := LineProps(lines, parseFloat);
    out := [];
    var i := 0;
    while i < |lines|
      invariant 0 <= i <= |lines|
      invariant |allPieces| == |allProps| == |lines|
      invariant out == PieceRows(allPieces, allProps, i)
    {
      out := ClipRow(out, lines[i], w, parseFloat);
      LinePiecesAt(lines, w, i);
      LinePropsAt(lines, parseFloat, i);
      RowsNext(allPieces, allProps, i, Clip(lines[i].coords, w), PieceProps(lines[i].props, parseFloat));
      i := i + 1;
    }
  }

  // ---------------------------------------------------------------------
  // Merging

  const Threshold: real := 0.00005

  function SqDist(p: Point, q: Point): real {
    (q.lon - p.lon) * (q.lon - p.lon) + (q.lat - p.lat) * (q.lat - p.lat)
  }

  /** `distance(p, q) < 0.00005`, compared squared. */
  predicate RiverClose(p: Point, q: Point) {
    SqDist(p, q) < Threshold * Threshold
  }

  /** Closeness is Euclidean, and on a join the other line's properties
      override the current one's (`{...current, ...other}`). */
  function RiverPolicy(): (pol: SegmentMerge.Policy)
    ensures forall p, q :: pol.close(p, q) == RiverClose(p, q)
    ensures forall a: Props, b: Props :: pol.combine(a, b).Keys == a.Keys + b.Keys
    ensures forall a: Props, b: Props, k :: k in b ==> pol.combine(a, b)[k] == b[k]
  {
    SegmentMerge.Policy((p, q) => RiverClose(p, q), (a: Props, b: Props) => a + b)
  }

  lemma {:induction false} RiverCloseSymmetric()
    ensures SegmentMerge.Symmetric(RiverPolicy().close)
  {
    forall p, q ensures RiverPolicy().close(p, q) == RiverPolicy().close(q, p) {
      assert SqDist(p, q) == SqDist(q, p);
    }
  }

  /** No endpoint of one line lies within 0.00005 of an endpoint of another. */
  predicate RiverEndsApart(ls: seq<Line>)
    requires SegmentMerge.AllWellFormed(ls)
  {
    forall i, j :: 0 <= i < |ls| && 0 <= j < |ls| && i != j ==>
      !RiverClose(SegmentMerge.Start(ls[i]), SegmentMerge.Start(ls[j])) &&
      !RiverClose(SegmentMerge.Start(ls[i]), SegmentMerge.End(ls[j])) &&
      !RiverClose(SegmentMerge.End(ls[i]), SegmentMerge.Start(ls[j])) &&
      !RiverClose(SegmentMerge.End(ls[i]), SegmentMerge.End(ls[j]))
  }

  /** The `while (merged)` loop with the river policy: it ends with no
      more lines than it started with, all still in the window, and with
      every pair of distinct lines at least 0.00005 apart at every end. */
  method MergeRivers(lines: seq<Line>, w: Window) returns (result: seq<Line>)
    requires SegmentMerge.AllWellFormed(lines) && SegmentMerge.LinesIn(lines, w)
    ensures SegmentMerge.AllWellFormed(result) && |result| <= |lines|
    ensures SegmentMerge.LinesIn(result, w)
    ensures SegmentMerge.TotalSteps(result) == SegmentMerge.TotalSteps(lines)
    ensures SegmentMerge.Points(result) <= SegmentMerge.Points(lines)
    ensures result == [] <==> lines == []
    ensures RiverEndsApart(result)
  {
    result := SegmentMerge.MergeAll(lines, RiverPolicy());
    SegmentMerge.PointsStayIn(result, lines, w);
    RiverCloseSymmetric();
    SegmentMerge.FixpointEndpointsApart(result, RiverPolicy().close);
  }

  // ---------------------------------------------------------------------
  // Areas

  /** A GeoJSON feature as the serialiser sees it. */
  datatype Feature =
    | LineF(coords: seq<Point>, props: Props)
    | PolygonF(outer: seq<Point>, holes: seq<seq<Point>>, props: Props)
    | MultiPolygonF(polygons: seq<seq<seq<Point>>>, props: Props)

  /** What `turf.intersect(area, bbox)` does: a clipped feature, `null` when
      the two do not overlap, or an exception. */
  datatype ClipOutcome = Clipped(f: Feature) | NoOverlap | Throws

  /** Nested coordinate arrays as `checkCoordinatesInBounds` walks them. */
  datatype Coords = Number(x: real) | List(items: seq<Coords>)

  /** `checkCoordinatesInBounds`: a pair of numbers is checked against the
      window; any other non-empty array is in bounds when one of its items is. */
  function CheckCoordinatesInBounds(c: Coords, w: Window): bool
    decreases c, 1
  {
    match c
    case Number(_) => false
    case List(items) =>
      if |items| == 2 && items[0].Number? && items[1].Number? then
        InWindow(Point(items[0].x, items[1].x), w)
      else AnyInBounds(items, w)
  }

  function AnyInBounds(items: seq<Coords>, w: Window): bool
    decreases items, 0
  {
    if items == [] then false
    else CheckCoordinatesInBounds(items[0], w) || AnyInBounds(items[1..], w)
  }

  function PointCoords(p: Point): Coords {
    List([Number(p.lon), Number(p.lat)])
  }

  function RingCoords(ring: seq<Point>): (c: Coords)
    ensures c.List? && |c.items| == |ring|
    ensures forall k :: 0 <= k < |ring| ==> c.items[k] == PointCoords(ring[k])
  {
    List(seq(|ring|, k requires 0 <= k < |ring| => PointCoords(ring[k])))
  }

  /** `geometry.coordinates` of a polygon: its rings, outer first. */
  function PolygonCoords(rings: seq<seq<Point>>): (c: Coords)
    ensures c.List? && |c.items| == |rings|
    ensures forall k :: 0 <= k < |rings| ==> c.items[k] == RingCoords(rings[k])
  {
    List(seq(|rings|, k requires 0 <= k < |rings| => RingCoords(rings[k])))
  }

  lemma {:induction false} RingInBounds(ring: seq<Point>, w: Window)
    ensures CheckCoordinatesInBounds(RingCoords(ring), w) <==> AnyIn(ring, w)
  {
    var items := RingCoords(ring).items;
    if |ring| == 2 {
      assert !items[0].Number?;
    }
    AnyPointInBounds(ring, items, w);
  }

  lemma {:induction false} AnyPointInBounds(ring: seq<Point>, items: seq<Coords>, w: Window)
    requires |items| == |ring|
    requires forall k :: 0 <= k < |ring| ==> items[k] == PointCoords(ring[k])
    ensures AnyInBounds(items, w) <==> AnyIn(ring, w)
  {
    if ring != [] {
      AnyPointInBounds(ring[1..], items[1..], w);
      if AnyIn(ring, w) && !InWindow(ring[0], w) {
        var k :| 0 <= k < |ring| && InWindow(ring[k], w);
        assert InWindow(ring[1..][k - 1], w);
      }
    }
  }

  /** On a polygon, the last-resort test holds exactly when some vertex of
      some ring lies in the window. */
  lemma {:induction false} PolygonInBounds(rings: seq<seq<Point>>, w: Window)
    ensures CheckCoordinatesInBounds(PolygonCoords(rings), w) <==>
              exists k :: 0 <= k < |rings| && AnyIn(rings[k], w)
  {
    var items := PolygonCoords(rings).items;
    if |rings| == 2 {
      assert !items[0].Number?;
    }
    AnyRingInBounds(rings, items, w);
  }

  lemma {:induction false} AnyRingInBounds(rings: seq<seq<Point>>, items: seq<Coords>, w: Window)
    requires |items| == |rings|
    requires forall k :: 0 <= k < |rings| ==> items[k] == RingCoords(rings[k])
    ensures AnyInBounds(items, w) <==> exists k :: 0 <= k < |rings| && AnyIn(rings[k], w)
  {
    if rings != [] {
      AnyRingInBounds(rings[1..], items[1..], w);
      RingInBounds(rings[0], w);
      if exists k :: 0 <= k < |rings| && AnyIn(rings[k], w) {
        var k :| 0 <= k < |rings| && AnyIn(rings[k], w);
        if k > 0 {
          assert AnyIn(rings[1..][k - 1], w);
        }
      }
    }
  }

  function FeatureCoords(f: Feature): Coords {
    match f
    case LineF(cs, _) => RingCoords(cs)
    case PolygonF(outer, holes, _) => PolygonCoords([outer] + holes)
    case MultiPolygonF(ps, _) => List(seq(|ps|, k requires 0 <= k < |ps| => PolygonCoords(ps[k])))
  }

  /** The pre-checks before the intersection: an empty polygon or one whose
      outer ring has fewer than three points is skipped. */
  predicate SkipArea(f: Feature) {
    match f
    case PolygonF(outer, _, _) => |outer| < 3
    case MultiPolygonF(ps, _) => ps == []
    case LineF(cs, _) => cs == []
  }

  /** The fallback decision around the polygon library for one area:
      `intersect` and `centroid` are its results, `None` for a centroid
      that throws. */
  function AreaResult(f: Feature, w: Window, intersect: ClipOutcome, centroid: Option<Point>): (r: Option<Feature>)
    ensures SkipArea(f) ==> r.None?
    ensures !SkipArea(f) && intersect.Clipped? ==> r == Some(intersect.f)
    ensures r.Some? && !intersect.Clipped? ==> r == Some(f)
    ensures !SkipArea(f) && !intersect.Clipped? && centroid.Some? && InWindow(centroid.value, w) ==> r == Some(f)
    ensures !SkipArea(f) && intersect.NoOverlap? && centroid.Some? && !InWindow(centroid.value, w) ==> r.None?
    ensures !SkipArea(f) && (intersect.Throws? || centroid.None?) && !intersect.Clipped? &&
            !(centroid.Some? && InWindow(centroid.value, w)) ==>
              (r.Some? <==> CheckCoordinatesInBounds(FeatureCoords(f), w))
  {
    if SkipArea(f) then None
    else
      match intersect
      case Clipped(g) => Some(g)
      case NoOverlap =>
        (match centroid
         case Some(c) => if InWindow(c, w) then Some(f) else None
         case None => if CheckCoordinatesInBounds(FeatureCoords(f), w) then Some(f) else None)
      case Throws =>
        (match centroid
         case Some(c) =>
           if InWindow(c, w) || CheckCoordinatesInBounds(FeatureCoords(f), w) then Some(f) else None
         case None => if CheckCoordinatesInBounds(FeatureCoords(f), w) then Some(f) else None)
  }

  /** A classified water area is never skipped by the pre-checks. */
  lemma ClassifiedAreasNotSkipped(es: seq<Element>, m: map<int, Point>, k: nat)
    requires k < |AreasOf(es, m)|
    ensures !SkipArea(AreasOf(es, m)[k])
  {
  }

  /** The `for (const waterArea of areaFeatures)` loop; the polygon
      library's answers for area k are `intersect(k)` and `centroid(k)`. */
  method ProcessAreas(areas: seq<Feature>, w: Window, intersect: nat -> ClipOutcome, centroid: nat -> Option<Point>)
    returns (out: seq<Feature>)
    ensures |out| <= |areas|
    ensures out == KeptAreas(areas, w, intersect, centroid, |areas|)
  {
    out := [];
    var i := 0;
    while i < |areas|
      invariant 0 <= i <= |areas|
      invariant out == KeptAreas(areas, w, intersect, centroid, i)
      invariant |out| <= i
    {
      var r := AreaResult(areas[i], w, intersect(i), centroid(i));
      if r.Some? {
        out := out + [r.value];
      }
      i := i + 1;
    }
  }

  function KeptAreas(areas: seq<Feature>, w: Window, intersect: nat -> ClipOutcome, centroid: nat -> Option<Point>, n: nat): seq<Feature>
    requires n <= |areas|
  {
    if n == 0 then []
    else
      var r := AreaResult(areas[n - 1], w, intersect(n - 1), centroid(n - 1));
      KeptAreas(areas, w, intersect, centroid, n - 1) + (if r.Some? then [r.value] else [])
  }

  // ---------------------------------------------------------------------
  // Serialisation

  /** An element of the returned `{ elements }`. */
  datatype OutElement =
    | NodeOut(id: string, lat: real, lon: real)
    | WayOut(id: string, nodes: seq<string>, tags: Props)

  /** Features that reach the output: lines of two or more points and polygons. */
  predicate Serializable(f: Feature) {
    (f.LineF? && |f.coords| >= 2) || f.PolygonF?
  }

  function Serializables(fs: seq<Feature>): (r: seq<Feature>)
    ensures |r| <= |fs|
    ensures forall k :: 0 <= k < |r| ==> Serializable(r[k])
    ensures forall k :: 0 <= k < |fs| && Serializable(fs[k]) ==> fs[k] in r
  {
    if fs == [] then []
    else (if Serializable(fs[0]) then [fs[0]] else []) + Serializables(fs[1..])
  }

  /** The points a feature is written with: a line's own, a polygon's outer ring. */
  function OutPoints(f: Feature): seq<Point> {
    match f
    case LineF(cs, _) => cs
    case PolygonF(outer, _, _) => outer
    case MultiPolygonF(_, _) => []
  }

  function NodePrefix(f: Feature): string {
    if f.LineF? then "river-node-" else "water-area-node-"
  }

  /** The values of f at 0 to n - 1, in order. */
  function Mapped<T>(f: nat --> T, n: nat): (r: seq<T>)
    requires forall k :: 0 <= k < n ==> f.requires(k)
    ensures |r| == n
  {
    if n == 0 then [] else Mapped(f, n - 1) + [f(n - 1)]
  }

  lemma {:induction false} MappedAt<T>(f: nat --> T, n: nat, i: nat)
    requires forall k :: 0 <= k < n ==> f.requires(k)
    requires i < n
    ensures Mapped(f, n)[i] == f(i)
  {
    if i < n - 1 {
      MappedAt(f, n - 1, i);
    }
  }

  /** Node k of feature i: id `<prefix>i-k` and the point's coordinates. */
  function NodeFor(f: Feature, i: nat): nat --> OutElement {
    (k: nat) requires k < |OutPoints(f)| =>
      NodeOut(Label2(NodePrefix(f), i, k), OutPoints(f)[k].lat, OutPoints(f)[k].lon)
  }

  /** The nodes written for feature i, one per point. */
  function FeatureNodes(f: Feature, i: nat): (r: seq<OutElement>)
    ensures |r| == |OutPoints(f)|
  {
    Mapped(NodeFor(f, i), |OutPoints(f)|)
  }

  /** The ids the way of feature i lists, one per point. */
  function NodeIds(f: Feature, i: nat): (r: seq<string>)
    ensures |r| == |OutPoints(f)|
  {
    Mapped((k: nat) requires k < |OutPoints(f)| => Label2(NodePrefix(f), i, k), |OutPoints(f)|)
  }

  /** Node k of feature i carries the id `<prefix>i-k` and the k-th point's
      latitude and longitude, and it is the k-th id the way lists. */
  lemma FeatureNodeAt(f: Feature, i: nat, k: nat)
    requires k < |OutPoints(f)|
    ensures FeatureNodes(f, i)[k] == NodeOut(Label2(NodePrefix(f), i, k), OutPoints(f)[k].lat, OutPoints(f)[k].lon)
    ensures NodeIds(f, i)[k] == FeatureNodes(f, i)[k].id
  {
    MappedAt(NodeFor(f, i), |OutPoints(f)|, k);
    MappedAt((k: nat) requires k < |OutPoints(f)| => Label2(NodePrefix(f), i, k), |OutPoints(f)|, k);
  }

  /** `a || b || c` on property values. */
  function Or3(a: Value, b: Value, c: Value): Value {
    Or(Or(a, b), c)
  }

  /** The tags of a written line way. */
  function LineTags(p: Props, i: nat): Props {
    LiftTags(TagsOf(p)) + LineExtras(p, LiftTags(TagsOf(p)), i)
  }

  /** What a line way adds to its original tags. */
  function LineExtras(p: Props, lifted: Props, i: nat): (r: Props)
    ensures r.Keys == {"waterway", "name", "merged", "union"}
  {
    map[
      "waterway" := Or3(Get(p, "originalType"), Get(p, "type"), Str("river")),
      "name" := Or(Get(lifted, "name"), Str(Label("Unified River ", i))),
      "merged" := Bool(true),
      "union" := Bool(true)]
  }

  /** A line way carries its original tags, a truthy `waterway` and
      `name`, and `merged` and `union` set to true. */
  lemma LineTagsShape(p: Props, i: nat)
    ensures var t := LineTags(p, i);
            t.Keys == TagsOf(p).Keys + {"waterway", "name", "merged", "union"} &&
            t["merged"] == Bool(true) && t["union"] == Bool(true) &&
            Truthy(t["waterway"]) && Truthy(t["name"]) &&
            forall k :: k in TagsOf(p) && k !in {"waterway", "name", "merged", "union"} ==> t[k] == Str(TagsOf(p)[k])
  {
    var lifted := LiftTags(TagsOf(p));
    var extra := LineExtras(p, lifted, i);
    assert extra["waterway"] == Or3(Get(p, "originalType"), Get(p, "type"), Str("river"));
    assert extra["name"] == Or(Get(lifted, "name"), Str(Label("Unified River ", i)));
  }

  /** The tags of a written polygon way: river-like polygons keep their
      waterway type and width, every other polygon becomes `natural=water`. */
  function AreaTags(p: Props, i: nat): (t: Props)
    ensures "name" in t && Truthy(t["name"])
    ensures RiverLike(p) ==> "waterway" in t && Truthy(t["waterway"])
    ensures !RiverLike(p) ==> "natural" in t && t["natural"] == Str("water")
  {
    var tags := TagsOf(p);
    var base := LiftTags(tags) + map["name" := Or(Get(LiftTags(tags), "name"), Str(Label("Water Area ", i)))];
    if RiverLike(p) then
      var withType := base["waterway" := Or(Get(p, "originalType"), Str("river"))];
      if Truthy(Get(p, "width")) then withType["width" := p["width"]] else withType
    else base["natural" := Str("water")]
  }

  /** A polygon way keeps every original tag except the ones it sets; its
      `name` is the tag's own name when it has one and `Water Area i`
      otherwise. */
  lemma AreaTagsKept(p: Props, i: nat)
    ensures var t := AreaTags(p, i);
            var tags := TagsOf(p);
            (forall k :: k in tags && k !in {"name", "waterway", "width", "natural"} ==> k in t && t[k] == Str(tags[k])) &&
            (HasTag(tags, "name") ==> t["name"] == Str(tags["name"])) &&
            (!HasTag(tags, "name") ==> t["name"] == Str(Label("Water Area ", i)))
  {
    var tags := TagsOf(p);
    var lifted := LiftTags(tags);
    assert HasTag(tags, "name") ==> Get(lifted, "name") == Str(tags["name"]);
    assert !HasTag(tags, "name") ==> !Truthy(Get(lifted, "name"));
  }

  /** A river-like polygon gets `waterway` (its original type when truthy,
      else `river`) and, when its `width` property is truthy, that width;
      otherwise a `width` tag of its own stays. It gets no other key. */
  lemma AreaTagsRiver(p: Props, i: nat)
    requires RiverLike(p)
    ensures var t := AreaTags(p, i);
            var tags := TagsOf(p);
            t.Keys == tags.Keys + {"name", "waterway"} + (if Truthy(Get(p, "width")) then {"width"} else {}) &&
            (Truthy(Get(p, "originalType")) ==> t["waterway"] == p["originalType"]) &&
            (!Truthy(Get(p, "originalType")) ==> t["waterway"] == Str("river")) &&
            (Truthy(Get(p, "width")) ==> t["width"] == p["width"]) &&
            (!Truthy(Get(p, "width")) && "width" in tags ==> t["width"] == Str(tags["width"]))
  {
    var lifted := LiftTags(TagsOf(p));
    var base := lifted + map["name" := Or(Get(lifted, "name"), Str(Label("Water Area ", i)))];
    var withType := base["waterway" := Or(Get(p, "originalType"), Str("river"))];
    assert AreaTags(p, i) == if Truthy(Get(p, "width")) then withType["width" := p["width"]] else withType;
  }

  /** Any other polygon gets `natural=water`, keeps its own `waterway` and
      `width` tags, and gets no other key. */
  lemma AreaTagsWater(p: Props, i: nat)
    requires !RiverLike(p)
    ensures var t := AreaTags(p, i);
            var tags := TagsOf(p);
            t.Keys == tags.Keys + {"name", "natural"} && t["natural"] == Str("water") &&
            forall k :: k in tags && k in {"waterway", "width"} ==> t[k] == Str(tags[k])
  {
    var lifted := LiftTags(TagsOf(p));
    var base := lifted + map["name" := Or(Get(lifted, "name"), Str(Label("Water Area ", i)))];
    assert AreaTags(p, i) == base["natural" := Str("water")];
  }

  predicate RiverLike(p: Props) {
    Get(p, "originalType") in {Str("river"), Str("stream"), Str("canal")} || Get(p, "type") == Str("river_polygon")
  }

  function FeatureWay(f: Feature, i: nat): (r: OutElement)
    ensures r.WayOut? && r.nodes == NodeIds(f, i)
  {
    if f.LineF? then WayOut(Label("unified-river-", i), NodeIds(f, i), LineTags(f.props, i))
    else WayOut(Label("water-area-", i), NodeIds(f, i), AreaTags(f.props, i))
  }

  /** The way written for each feature, by index. */
  function WayParts(fs: seq<Feature>): nat --> OutElement {
    (i: nat) requires i < |fs| => FeatureWay(fs[i], i)
  }

  /** The ways written for the first n features, in order. */
  function WaysOf(fs: seq<Feature>, n: nat): (r: seq<OutElement>)
    requires n <= |fs|
    ensures |r| == n
  {
    Mapped(WayParts(fs), n)
  }

  /** Way i is the way of feature i, numbered i. */
  lemma WayOfFeature(fs: seq<Feature>, n: nat, i: nat)
    requires i < n <= |fs|
    ensures WaysOf(fs, n)[i] == FeatureWay(fs[i], i)
  {
    MappedAt(WayParts(fs), n, i);
  }

  /** The parts 0 to n - 1, one after another. */
  function Joined<T>(parts: nat --> seq<T>, n: nat): (r: seq<T>)
    requires forall k :: 0 <= k < n ==> parts.requires(k)
  {
    if n == 0 then [] else Joined(parts, n - 1) + parts(n - 1)
  }

  lemma {:induction false} JoinedPrefix<T>(parts: nat --> seq<T>, j: nat, n: nat)
    requires j <= n
    requires forall k :: 0 <= k < n ==> parts.requires(k)
    ensures |Joined(parts, j)| <= |Joined(parts, n)|
    ensures Joined(parts, n)[..|Joined(parts, j)|] == Joined(parts, j)
    decreases n
  {
    if j < n {
      JoinedPrefix(parts, j, n - 1);
      var short, mid := Joined(parts, j), Joined(parts, n - 1);
      assert Joined(parts, n)[..|mid|] == mid;
      assert Joined(parts, n)[..|short|] == Joined(parts, n)[..|mid|][..|short|];
    }
  }

  /** Part i sits in the joined sequence right after the parts before it. */
  lemma JoinedSlice<T>(parts: nat --> seq<T>, n: nat, i: nat)
    requires i < n
    requires forall k :: 0 <= k < n ==> parts.requires(k)
    ensures |Joined(parts, i + 1)| <= |Joined(parts, n)|
    ensures Joined(parts, n)[|Joined(parts, i)|..|Joined(parts, i + 1)|] == parts(i)
  {
    JoinedPrefix(parts, i + 1, n);
    var before, part := Joined(parts, i), parts(i);
    assert Joined(parts, i + 1) == before + part;
    assert Joined(parts, n)[|before|..|before| + |part|] == (before + part)[|before|..];
  }

  /** The nodes written for each feature, by index. */
  function NodeParts(fs: seq<Feature>): nat --> seq<OutElement> {
    (k: nat) requires k < |fs| => FeatureNodes(fs[k], k)
  }

  /** The nodes written for the first n features, in order. */
  function NodesOf(fs: seq<Feature>, n: nat): seq<OutElement>
    requires n <= |fs|
  {
    Joined(NodeParts(fs), n)
  }

  /** The points of each feature, by index. */
  function PointParts(fs: seq<Feature>): nat --> seq<Point> {
    (k: nat) requires k < |fs| => OutPoints(fs[k])
  }

  /** How many points the first n features are written with. */
  function TotalPoints(fs: seq<Feature>, n: nat): nat
    requires n <= |fs|
  {
    |Joined(PointParts(fs), n)|
  }

  /** Parts of equal lengths join to sequences of equal lengths. */
  lemma {:induction false} JoinedCount<T, U>(parts: nat --> seq<T>, others: nat --> seq<U>, n: nat)
    requires forall k :: 0 <= k < n ==> parts.requires(k) && others.requires(k)
    requires forall k :: 0 <= k < n ==> |parts(k)| == |others(k)|
    ensures |Joined(parts, n)| == |Joined(others, n)|
  {
    if n > 0 {
      JoinedCount(parts, others, n - 1);
    }
  }

  /** One node is written per point. */
  lemma NodesCount(fs: seq<Feature>, n: nat)
    requires n <= |fs|
    ensures |NodesOf(fs, n)| == TotalPoints(fs, n)
  {
    forall k | 0 <= k < n
      ensures |NodeParts(fs)(k)| == |PointParts(fs)(k)|
    {
    }
    JoinedCount(NodeParts(fs), PointParts(fs), n);
  }

  /** A property of every element of every part holds of every element of
      the joined sequence. */
  lemma {:induction false} JoinedAll<T>(parts: nat --> seq<T>, n: nat, P: T -> bool)
    requires forall k :: 0 <= k < n ==> parts.requires(k)
    requires forall k, j :: 0 <= k < n && 0 <= j < |parts(k)| ==> P(parts(k)[j])
    ensures forall j :: 0 <= j < |Joined(parts, n)| ==> P(Joined(parts, n)[j])
  {
    if n > 0 {
      JoinedAll(parts, n - 1, P);
      var prev, last := Joined(parts, n - 1), parts(n - 1);
      assert Joined(parts, n) == prev + last;
      forall j | 0 <= j < |prev + last| ensures P((prev + last)[j]) {
        if j >= |prev| {
          assert (prev + last)[j] == last[j - |prev|];
        }
      }
    }
  }

  /** Everything written after the ways is a node. */
  lemma NodesAreNodes(fs: seq<Feature>, n: nat)
    requires n <= |fs|
    ensures forall k :: 0 <= k < |NodesOf(fs, n)| ==> NodesOf(fs, n)[k].NodeOut?
  {
    forall k, j | 0 <= k < n && 0 <= j < |FeatureNodes(fs[k], k)|
      ensures FeatureNodes(fs[k], k)[j].NodeOut?
    {
      FeatureNodeAt(fs[k], k, j);
    }
    JoinedAll(NodeParts(fs), n, (e: OutElement) => e.NodeOut?);
  }

  /** The nodes of feature i are written together, after the nodes of the
      features before it. */
  lemma NodesOfFeature(fs: seq<Feature>, n: nat, i: nat)
    requires i < n <= |fs|
    ensures TotalPoints(fs, i + 1) <= |NodesOf(fs, n)|
    ensures NodesOf(fs, n)[TotalPoints(fs, i)..TotalPoints(fs, i + 1)] == FeatureNodes(fs[i], i)
  {
    JoinedSlice(NodeParts(fs), n, i);
    NodesCount(fs, i);
    NodesCount(fs, i + 1);
  }

  /** Every element of part i is in the joined sequence. */
  lemma JoinedHas<T>(parts: nat --> seq<T>, n: nat, i: nat, k: nat)
    requires i < n
    requires forall j :: 0 <= j < n ==> parts.requires(j)
    requires k < |parts(i)|
    ensures parts(i)[k] in Joined(parts, n)
  {
    JoinedSlice(parts, n, i);
    var all, lo := Joined(parts, n), |Joined(parts, i)|;
    assert all[lo + k] == all[lo..|Joined(parts, i + 1)|][k];
  }

  /** Every node a way lists is written: node k of feature i is in the
      output. */
  lemma NodesComplete(fs: seq<Feature>, n: nat, i: nat, k: nat)
    requires i < n <= |fs| && k < |OutPoints(fs[i])|
    ensures FeatureNodes(fs[i], i)[k] in NodesOf(fs, n)
  {
    JoinedHas(NodeParts(fs), n, i, k);
  }

  /** The `coordinates.forEach` that writes the nodes of feature i and
      collects their ids. */
  method WriteNodes(f: Feature, i: nat) returns (current: seq<OutElement>, ids: seq<string>)
    ensures current == FeatureNodes(f, i) && ids == NodeIds(f, i)
  {
    var ps := OutPoints(f);
    current, ids := [], [];
    var k := 0;
    while k < |ps|
      invariant 0 <= k <= |ps|
      invariant current == Mapped(NodeFor(f, i), k)
      invariant ids == Mapped((k: nat) requires k < |OutPoints(f)| => Label2(NodePrefix(f), i, k), k)
    {
      var id := Label2(NodePrefix(f), i, k);
      ids := ids + [id];
      current := current + [NodeOut(id, ps[k].lat, ps[k].lon)];
      k := k + 1;
    }
  }

  /** The output loop over the written features: ways are collected in one
      list and nodes in another, and the ways come first. */
  method Serialize(features: seq<Feature>) returns (elements: seq<OutElement>)
    ensures var fs := Serializables(features);
            elements == WaysOf(fs, |fs|) + NodesOf(fs, |fs|)
  {
    var fs := Serializables(features);
    var ways: seq<OutElement> := [];
    var nodes: seq<OutElement> := [];
    var i := 0;
    while i < |fs|
      invariant 0 <= i <= |fs|
      invariant ways == WaysOf(fs, i) && nodes == NodesOf(fs, i)
    {
      var f := fs[i];
      var current, ids := WriteNodes(f, i);
      // FeatureWay lists exactly `ids` as its nodes.
      var way := FeatureWay(f, i);
      ways := ways + [way];
      nodes := nodes + current;
      i := i + 1;
    }
    elements := ways + nodes;
  }

  /** The first part of the output holds the ways. */
  lemma WaysAreWays(fs: seq<Feature>, n: nat)
    requires n <= |fs|
    ensures forall k :: 0 <= k < n ==> WaysOf(fs, n)[k].WayOut?
  {
    forall k | 0 <= k < n ensures WaysOf(fs, n)[k].WayOut? {
      WayOfFeature(fs, n, k);
    }
  }

  /** All ways are written before all nodes, there is one way per written
      feature and one node per point. */
  lemma SerializedShape(fs: seq<Feature>)
    ensures var out := WaysOf(fs, |fs|) + NodesOf(fs, |fs|);
            (forall k :: 0 <= k < |fs| ==> out[k].WayOut?) &&
            (forall k :: |fs| <= k < |out| ==> out[k].NodeOut?) &&
            |out| == |fs| + TotalPoints(fs, |fs|)
  {
    NodesCount(fs, |fs|);
    NodesAreNodes(fs, |fs|);
    WaysAreWays(fs, |fs|);
    var ways: seq<OutElement>, nodes := WaysOf(fs, |fs|), NodesOf(fs, |fs|);
    var out := ways + nodes;
    assert |ways| == |fs|;
    forall k | 0 <= k < |fs| ensures out[k].WayOut? {
      assert out[k] == ways[k];
    }
    forall k | |fs| <= k < |out| ensures out[k].NodeOut? {
      assert out[k] == nodes[k - |fs|];
    }
  }

  // ---------------------------------------------------------------------
  // The whole pipeline

  /** The merged rivers as line features, in order. */
  function RiverFeatures(rivers: seq<Line>): (r: seq<Feature>)
    ensures |r| == |rivers|
    ensures forall k :: 0 <= k < |r| ==> r[k] == LineF(rivers[k].coords, rivers[k].props)
  {
    seq(|rivers|, k requires 0 <= k < |rivers| => LineF(rivers[k].coords, rivers[k].props))
  }

  /** `processRiverDataUnion` with the polygon library's answers given per
      area. The written features are the merged rivers followed by the kept
      areas; every river lies in the window and no two river ends are
      closer than the threshold. */
  method ProcessRiverDataUnion(es: seq<Element>, w: Window, parseFloat: string -> Option<real>,
                               intersect: nat -> ClipOutcome, centroid: nat -> Option<Point>)
    returns (elements: seq<OutElement>, rivers: seq<Line>)
    requires ValidWindow(w)
    ensures SegmentMerge.AllWellFormed(rivers) && SegmentMerge.LinesIn(rivers, w) && RiverEndsApart(rivers)
    ensures var pieces := ClippedLines(LinesOf(es, NodeMapOf(es)), w, parseFloat);
            SegmentMerge.TotalSteps(rivers) == SegmentMerge.TotalSteps(pieces) &&
            SegmentMerge.Points(rivers) <= SegmentMerge.Points(pieces) &&
            (rivers == [] <==> pieces == [])
    ensures forall p :: p in SegmentMerge.Points(rivers) ==>
              p in SegmentMerge.Points(LinesOf(es, NodeMapOf(es))) || OnBoundary(p, w)
    ensures var areas := AreasOf(es, NodeMapOf(es));
            var fs := Serializables(RiverFeatures(rivers) + KeptAreas(areas, w, intersect, centroid, |areas|));
            elements == WaysOf(fs, |fs|) + NodesOf(fs, |fs|)
  {
    var m := BuildNodeMap(es);
    var lines, areas := ClassifyWays(es, m);
    var pieces := ClipLines(lines, w, parseFloat);
    ClippedProps(lines, w, parseFloat);
    rivers := MergeRivers(pieces, w);
    var kept := ProcessAreas(areas, w, intersect, centroid);
    var features := RiverFeatures(rivers) + kept;
    elements := Serialize(features);
  }
}
