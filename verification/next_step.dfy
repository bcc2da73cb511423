/** The building picker page: height estimation from tags, the even-odd
    point-in-polygon test, the map bounds and the SVG scaling, the three
    selection and height handlers, and the OBJ export of extruded
    footprints. Projection (which uses a cosine) is left out: buildings
    carry their projected coordinates. */
module NextStep {
  import opened Common

  /** A projected point on the local plane. */
  datatype XY = XY(x: real, y: real)

  /** A building id, which the page keeps as a string or a number. */
  datatype Key = Text(s: string) | Number(n: int)

  /** A building of the page: id, projected footprint and height. */
  datatype Building = Building(id: Key, projectedCoords: seq<XY>, height: real)

  // ---------------------------------------------------------------------
  // getEstimatedHeight

  /** Heights in metres by `building` type. */
  const HeightTable: map<string, real> := map[
    "house" := 6.0, "residential" := 8.0, "apartments" := 15.0, "commercial" := 12.0,
    "retail" := 6.0, "office" := 20.0, "industrial" := 8.0, "warehouse" := 10.0,
    "hospital" := 15.0, "school" := 8.0, "church" := 12.0, "mosque" := 10.0,
    "temple" := 8.0, "hotel" := 25.0, "mall" := 12.0, "supermarket" := 6.0,
    "parking" := 6.0, "garage" := 3.0, "yes" := 8.0]

  const DefaultHeight: real := 8.0

  /** `parseInt(tags[key] || "")`, with NaN read as None. */
  function ParseTag(t: Tags, key: string, parseInt: string -> Option<int>): Option<int> {
    if HasTag(t, key) then parseInt(t[key]) else None
  }

  /** `parseInt(building:levels) || parseInt(levels)`: the first when it is
      a non-zero number, the second otherwise. */
  function Levels(t: Tags, parseInt: string -> Option<int>): (r: Option<int>)
    ensures var a := ParseTag(t, "building:levels", parseInt);
            a.Some? && a.value != 0 ==> r == a
    ensures var a := ParseTag(t, "building:levels", parseInt);
            !(a.Some? && a.value != 0) ==> r == ParseTag(t, "levels", parseInt)
  {
    var a := ParseTag(t, "building:levels", parseInt);
    if a.Some? && a.value != 0 then a else ParseTag(t, "levels", parseInt)
  }

  /** `tags.building || "yes"` */
  function BuildingType(t: Tags): string {
    if HasTag(t, "building") then t["building"] else "yes"
  }

  predicate HasLevels(t: Tags, parseInt: string -> Option<int>) {
    Levels(t, parseInt).Some? && Levels(t, parseInt).value != 0
  }

  function GetEstimatedHeight(t: Tags, parseInt: string -> Option<int>): real {
    if HasLevels(t, parseInt) then Levels(t, parseInt).value as real * 3.0
    else if BuildingType(t) in HeightTable then HeightTable[BuildingType(t)]
    else DefaultHeight
  }

  /** Non-zero levels give three metres a level; otherwise the type decides,
      a missing type counts as `yes`, and an unknown type gives 8. Without
      levels the estimate is always positive. */
  lemma EstimatedHeightCases(t: Tags, parseInt: string -> Option<int>)
    ensures HasLevels(t, parseInt) ==> GetEstimatedHeight(t, parseInt) == Levels(t, parseInt).value as real * 3.0
    ensures !HasLevels(t, parseInt) && !HasTag(t, "building") ==> GetEstimatedHeight(t, parseInt) == 8.0
    ensures !HasLevels(t, parseInt) && HasTag(t, "building") && t["building"] !in HeightTable ==>
              GetEstimatedHeight(t, parseInt) == DefaultHeight
    ensures !HasLevels(t, parseInt) && HasTag(t, "building") && t["building"] in HeightTable ==>
              GetEstimatedHeight(t, parseInt) == HeightTable[t["building"]]
    ensures !HasLevels(t, parseInt) ==> 3.0 <= GetEstimatedHeight(t, parseInt) <= 25.0
  {
  }

  // ---------------------------------------------------------------------
  // pointInPolygon

  /** Whether the edge from a to b crosses the horizontal ray to the
      right of p. The division is well defined: the first conjunct makes
      the two ends lie on different sides of p's line. */
  predicate Crosses(p: XY, a: XY, b: XY) {
    (a.y > p.y) != (b.y > p.y) && p.x < (b.x - a.x) * (p.y - a.y) / (b.y - a.y) + a.x
  }

  /** The index of the vertex before vertex i, wrapping around. */
  function Before(n: nat, i: nat): nat
    requires i < n
  {
    if i == 0 then n - 1 else i - 1
  }

  /** How many of the edges ending at vertices 0..m-1 cross the ray. */
  function Crossings(p: XY, poly: seq<XY>, m: nat): nat
    requires m <= |poly|
  {
    if m == 0 then 0
    else Crossings(p, poly, m - 1) + (if Crosses(p, poly[m - 1], poly[Before(|poly|, m - 1)]) then 1 else 0)
  }

  /** The even-odd rule: inside when the ray crosses an odd number of edges. */
  predicate Inside(p: XY, poly: seq<XY>) {
    Crossings(p, poly, |poly|) % 2 == 1
  }

  method PointInPolygon(point: XY, polygon: seq<XY>) returns (inside: bool)
    ensures inside == Inside(point, polygon)
    ensures polygon == [] ==> !inside
  {
    inside := false;
    var i := 0;
    var j := |polygon| - 1;
    while i < |polygon|
      invariant 0 <= i <= |polygon|
      invariant j == if i == 0 then |polygon| - 1 else i - 1
      invariant inside == (Crossings(point, polygon, i) % 2 == 1)
    {
      var pi, pj := polygon[i], polygon[j];
      assert pj == polygon[Before(|polygon|, i)];
      if Crosses(point, pi, pj) {
        inside := !inside;
      }
      j := i;
      i := i + 1;
    }
  }

  lemma {:induction false} NoCrossingsBeyond(p: XY, poly: seq<XY>, m: nat)
    requires m <= |poly|
    requires (forall k :: 0 <= k < |poly| ==> poly[k].y <= p.y) || (forall k :: 0 <= k < |poly| ==> poly[k].y > p.y)
    ensures Crossings(p, poly, m) == 0
  {
    if m > 0 {
      NoCrossingsBeyond(p, poly, m - 1);
    }
  }

  /** A point level with or above every vertex, or below every vertex, is
      outside. */
  lemma OutsideVerticalRange(p: XY, poly: seq<XY>)
    requires (forall k :: 0 <= k < |poly| ==> poly[k].y <= p.y) || (forall k :: 0 <= k < |poly| ==> poly[k].y > p.y)
    ensures !Inside(p, poly)
  {
    NoCrossingsBeyond(p, poly, |poly|);
  }

  // ---------------------------------------------------------------------
  // Map bounds and scaling

  datatype Bounds = Bounds(minX: real, maxX: real, minY: real, maxY: real)

  /** The bounds the page computes: finite, or the infinities it is left
      with when there are buildings but not a single coordinate. */
  datatype MapBounds = Finite(b: Bounds) | Unbounded

  /** The projected coordinates of the first n buildings, in order. */
  function Flat(bs: seq<Building>, n: nat): (r: seq<XY>)
    requires n <= |bs|
  {
    if n == 0 then [] else Flat(bs, n - 1) + bs[n - 1].projectedCoords
  }

  /** `Math.min(m, v)` where None stands for the starting `Infinity`. */
  function Low(m: Option<real>, v: real): real {
    if m.Some? && m.value < v then m.value else v
  }

  /** `Math.max(m, v)` where None stands for the starting `-Infinity`. */
  function High(m: Option<real>, v: real): real {
    if m.Some? && m.value > v then m.value else v
  }

  /** The running `minX`, `maxX`, `minY`, `maxY` of the bounds loop. */
  datatype Extent = Extent(minX: Option<real>, maxX: Option<real>, minY: Option<real>, maxY: Option<real>)

  /** The four `Math.min`/`Math.max` updates for one coordinate. */
  function Widen(e: Extent, p: XY): Extent {
    Extent(Some(Low(e.minX, p.x)), Some(High(e.maxX, p.x)), Some(Low(e.minY, p.y)), Some(High(e.maxY, p.y)))
  }

  function ExtentOf(ps: seq<XY>): (r: Extent)
    ensures r.minX.Some? == r.maxX.Some? == r.minY.Some? == r.maxY.Some? == (ps != [])
  {
    if ps == [] then Extent(None, None, None, None) else Widen(ExtentOf(ps[..|ps| - 1]), ps[|ps| - 1])
  }

  /** The extent of a non-empty list of points is its tightest box: every
      point lies in it and each side touches a point. */
  lemma {:induction false} ExtentIsTight(ps: seq<XY>)
    requires ps != []
    ensures var e := ExtentOf(ps);
            forall k :: 0 <= k < |ps| ==>
              e.minX.value <= ps[k].x <= e.maxX.value && e.minY.value <= ps[k].y <= e.maxY.value
    ensures var e := ExtentOf(ps);
            (exists k :: 0 <= k < |ps| && e.minX.value == ps[k].x) && (exists k :: 0 <= k < |ps| && e.maxX.value == ps[k].x) &&
            (exists k :: 0 <= k < |ps| && e.minY.value == ps[k].y) && (exists k :: 0 <= k < |ps| && e.maxY.value == ps[k].y)
  {
    var init, last := ps[..|ps| - 1], ps[|ps| - 1];
    var e := ExtentOf(ps);
    if init == [] {
      assert ps == [last];
    } else {
      ExtentIsTight(init);
      var e0 := ExtentOf(init);
      forall k | 0 <= k < |ps|
        ensures e.minX.value <= ps[k].x <= e.maxX.value && e.minY.value <= ps[k].y <= e.maxY.value
      {
        if k < |init| {
          assert ps[k] == init[k];
        }
      }
      var a :| 0 <= a < |init| && e0.minX.value == init[a].x;
      var b :| 0 <= b < |init| && e0.maxX.value == init[b].x;
      var c :| 0 <= c < |init| && e0.minY.value == init[c].y;
      var d :| 0 <= d < |init| && e0.maxY.value == init[d].y;
      assert e.minX.value == ps[a].x || e.minX.value == ps[|ps| - 1].x;
      assert e.maxX.value == ps[b].x || e.maxX.value == ps[|ps| - 1].x;
      assert e.minY.value == ps[c].y || e.minY.value == ps[|ps| - 1].y;
      assert e.maxY.value == ps[d].y || e.maxY.value == ps[|ps| - 1].y;
    }
  }

  function Max(a: real, b: real): real {
    if a >= b then a else b
  }

  /** The tightest box around the points, padded on every side by a tenth
      of its larger extent; 0..100 on both axes with no buildings. */
  function BoundsOf(bs: seq<Building>): MapBounds {
    if |bs| == 0 then Finite(Bounds(0.0, 100.0, 0.0, 100.0))
    else
      var ps := Flat(bs, |bs|);
      if ps == [] then Unbounded
      else
        var e := ExtentOf(ps);
        var x0, x1, y0, y1 := e.minX.value, e.maxX.value, e.minY.value, e.maxY.value;
        var padding := Max(x1 - x0, y1 - y0) * 0.1;
        Finite(Bounds(x0 - padding, x1 + padding, y0 - padding, y1 + padding))
  }

  /** A tight box of a non-empty list of points is wider than a single
      point exactly when two of the points differ. */
  lemma {:induction false} ExtentSpreads(ps: seq<XY>)
    requires ps != []
    ensures var e := ExtentOf(ps);
            (e.minX.value < e.maxX.value || e.minY.value < e.maxY.value) <==> exists k :: 0 <= k < |ps| && ps[k] != ps[0]
  {
    ExtentIsTight(ps);
    if exists k :: 0 <= k < |ps| && ps[k] != ps[0] {
      var k :| 0 <= k < |ps| && ps[k] != ps[0];
      assert ps[k].x != ps[0].x || ps[k].y != ps[0].y;
    } else {
      assert forall k :: 0 <= k < |ps| ==> ps[k] == ps[0];
    }
  }

  /** Padding by a tenth of the larger side keeps the box around its
      contents, and gives both sides a positive length exactly when one of
      them had one. */
  lemma Padded(x0: real, x1: real, y0: real, y1: real)
    requires x0 <= x1 && y0 <= y1
    ensures var padding := Max(x1 - x0, y1 - y0) * 0.1;
            padding >= 0.0 &&
            ((x0 - padding < x1 + padding && y0 - padding < y1 + padding) <==> (x0 < x1 || y0 < y1))
  {
  }

  /** The bounds contain every coordinate, and they have a positive extent
      on both axes exactly when two of the coordinates differ. */
  lemma BoundsContainAll(bs: seq<Building>)
    requires |bs| > 0 && Flat(bs, |bs|) != []
    ensures var ps, b := Flat(bs, |bs|), BoundsOf(bs).b;
            BoundsOf(bs).Finite? &&
            (forall k :: 0 <= k < |ps| ==> b.minX <= ps[k].x <= b.maxX && b.minY <= ps[k].y <= b.maxY) &&
            ((b.minX < b.maxX && b.minY < b.maxY) <==> exists k :: 0 <= k < |ps| && ps[k] != ps[0])
  {
    var ps := Flat(bs, |bs|);
    ExtentIsTight(ps);
    ExtentSpreads(ps);
    var e := ExtentOf(ps);
    Padded(e.minX.value, e.maxX.value, e.minY.value, e.maxY.value);
  }

  /** The inner `forEach` over one building's coordinates, starting from
      the extent of the coordinates already seen. */
  method WidenAll(ext0: Extent, c: seq<XY>, ghost seen: seq<XY>) returns (ext: Extent)
    requires ext0 == ExtentOf(seen)
    ensures ext == ExtentOf(seen + c)
  {
    ext := ext0;
    var j := 0;
    assert seen + c[..0] == seen;
    while j < |c|
      invariant 0 <= j <= |c|
      invariant ext == ExtentOf(seen + c[..j])
    {
      ghost var ps := seen + c[..j + 1];
      assert ps[..|ps| - 1] == seen + c[..j];
      ext := Extent(Some(Low(ext.minX, c[j].x)), Some(High(ext.maxX, c[j].x)),
                    Some(Low(ext.minY, c[j].y)), Some(High(ext.maxY, c[j].y)));
      j := j + 1;
    }
    assert c[..|c|] == c;
  }

  /** The bounds of the buildings: the nested `forEach` over every building's coordinates, or the default 0–100 square when there are no buildings. */
  method ComputeBounds(bs: seq<Building>) returns (r: MapBounds)
    ensures r == BoundsOf(bs)
  {
    if |bs| == 0 {
      return Finite(Bounds(0.0, 100.0, 0.0, 100.0));
    }
    var ext := Extent(None, None, None, None);
    var i := 0;
    while i < |bs|
      invariant 0 <= i <= |bs|
      invariant ext == ExtentOf(Flat(bs, i))
    {
      ext := WidenAll(ext, bs[i].projectedCoords, Flat(bs, i));
      i := i + 1;
    }
    if ext.minX.None? {
      return Unbounded;
    }
    var minX, maxX, minY, maxY := ext.minX.value, ext.maxX.value, ext.minY.value, ext.maxY.value;
    var padding := Max(maxX - minX, maxY - minY) * 0.1;
    r := Finite(Bounds(minX - padding, maxX + padding, minY - padding, maxY + padding));
  }

  const SvgSize: real := 1000.0
  const Margin: real := 20.0

  predicate NonDegenerate(b: Bounds) {
    b.maxX != b.minX && b.maxY != b.minY
  }

  function ScaleX(b: Bounds, x: real): real
    requires b.maxX != b.minX
  {
    ((x - b.minX) / (b.maxX - b.minX)) * (SvgSize - 2.0 * Margin) + Margin
  }

  function ScaleY(b: Bounds, y: real): real
    requires b.maxY != b.minY
  {
    ((y - b.minY) / (b.maxY - b.minY)) * (SvgSize - 2.0 * Margin) + Margin
  }

  function UnscaleX(b: Bounds, x: real): real {
    ((x - Margin) / (SvgSize - 2.0 * Margin)) * (b.maxX - b.minX) + b.minX
  }

  function UnscaleY(b: Bounds, y: real): real {
    ((y - Margin) / (SvgSize - 2.0 * Margin)) * (b.maxY - b.minY) + b.minY
  }

  lemma ScaleRoundTripAxis(lo: real, hi: real, v: real, s: real)
    requires lo != hi
    ensures (((v - lo) / (hi - lo)) * (SvgSize - 2.0 * Margin) + Margin - Margin) / (SvgSize - 2.0 * Margin) * (hi - lo) + lo == v
    ensures ((((s - Margin) / (SvgSize - 2.0 * Margin)) * (hi - lo) + lo - lo) / (hi - lo)) * (SvgSize - 2.0 * Margin) + Margin == s
  {
    var d := hi - lo;
    var t := (v - lo) / d;
    assert t * d == v - lo;
    assert (t * 960.0 + Margin - Margin) / 960.0 == t;
    var u := (s - Margin) / 960.0;
    assert u * 960.0 == s - Margin;
    assert (u * d + lo - lo) / d == u;
  }

  /** Unscaling undoes scaling and scaling undoes unscaling, on both axes,
      for bounds with a positive extent. */
  lemma ScaleRoundTrip(b: Bounds, x: real, y: real)
    requires NonDegenerate(b)
    ensures UnscaleX(b, ScaleX(b, x)) == x && UnscaleY(b, ScaleY(b, y)) == y
    ensures ScaleX(b, UnscaleX(b, x)) == x && ScaleY(b, UnscaleY(b, y)) == y
  {
    ScaleRoundTripAxis(b.minX, b.maxX, x, x);
    ScaleRoundTripAxis(b.minY, b.maxY, y, y);
  }

  /** Points inside the bounds land inside the drawing, within the margin. */
  lemma ScaleStaysInDrawing(b: Bounds, x: real, y: real)
    ensures b.minX < b.maxX && b.minX <= x <= b.maxX ==> Margin <= ScaleX(b, x) <= SvgSize - Margin
    ensures b.minY < b.maxY && b.minY <= y <= b.maxY ==> Margin <= ScaleY(b, y) <= SvgSize - Margin
  {
    if b.minX < b.maxX && b.minX <= x <= b.maxX {
      FractionWithin(b.minX, b.maxX, x);
    }
    if b.minY < b.maxY && b.minY <= y <= b.maxY {
      FractionWithin(b.minY, b.maxY, y);
    }
  }

  /** A value between lo and hi sits at a fraction of the way in [0, 1]. */
  lemma FractionWithin(lo: real, hi: real, v: real)
    requires lo < hi && lo <= v <= hi
    ensures 0.0 <= (v - lo) / (hi - lo) <= 1.0
  {
    var d := hi - lo;
    var t := (v - lo) / d;
    assert t * d == v - lo;
    FactorWithin(t, d, v - lo);
  }

  /** A factor that scales a positive d to some a in [0, d] is in [0, 1]. */
  lemma FactorWithin(t: real, d: real, a: real)
    requires d > 0.0 && t * d == a && 0.0 <= a <= d
    ensures 0.0 <= t <= 1.0
  {
    if t < 0.0 {
      ProductOrder(t, 0.0, d);
    } else if t > 1.0 {
      ProductOrder(1.0, t, d);
    }
  }

  /** Scaling by a positive factor keeps a strict order. */
  lemma ProductOrder(t: real, u: real, d: real)
    requires t < u && d > 0.0
    ensures t * d < u * d
  {
    assert u * d - t * d == (u - t) * d;
  }

  // ---------------------------------------------------------------------
  // Selection and height handlers

  /** The elements of s that keep accepts, in order. */
  function Filter<T>(s: seq<T>, keep: T -> bool): seq<T> {
    if s == [] then [] else (if keep(s[0]) then [s[0]] else []) + Filter(s[1..], keep)
  }

  lemma {:induction false} FilterMembers<T>(s: seq<T>, keep: T -> bool)
    ensures forall y :: y in Filter(s, keep) <==> y in s && keep(y)
    ensures |Filter(s, keep)| <= |s|
  {
    if s != [] {
      FilterMembers(s[1..], keep);
      assert s == [s[0]] + s[1..];
    }
  }

  lemma {:induction false} FilterAppend<T>(a: seq<T>, b: seq<T>, keep: T -> bool)
    ensures Filter(a + b, keep) == Filter(a, keep) + Filter(b, keep)
  {
    if a == [] {
      assert a + b == b;
    } else {
      var head := if keep(a[0]) then [a[0]] else [];
      var fa, fb := Filter(a[1..], keep), Filter(b, keep);
      assert (a + b)[1..] == a[1..] + b;
      assert Filter(a + b, keep) == head + Filter(a[1..] + b, keep);
      FilterAppend(a[1..], b, keep);
      assert head + (fa + fb) == (head + fa) + fb;
    }
  }

  lemma {:induction false} FilterAll<T>(s: seq<T>, keep: T -> bool)
    requires forall y :: y in s ==> keep(y)
    ensures Filter(s, keep) == s
  {
    if s != [] {
      FilterAll(s[1..], keep);
    }
  }

  function Other(x: Key): Key -> bool {
    y => y != x
  }

  /** `list.filter(y => y !== x)` */
  function Remove(s: seq<Key>, x: Key): (r: seq<Key>)
    ensures x !in r
    ensures forall y :: y != x ==> (y in r <==> y in s)
    ensures |r| <= |s|
  {
    FilterMembers(s, Other(x));
    Filter(s, Other(x))
  }

  lemma RemoveAbsent(s: seq<Key>, x: Key)
    requires x !in s
    ensures Remove(s, x) == s
  {
    FilterAll(s, Other(x));
  }

  lemma RemoveAppend(a: seq<Key>, b: seq<Key>, x: Key)
    ensures Remove(a + b, x) == Remove(a, x) + Remove(b, x)
  {
    FilterAppend(a, b, Other(x));
  }

  /** `handleBuildingClick`: a selected id is removed (every occurrence),
      an unselected one appended. */
  function Click(prev: seq<Key>, id: Key): (r: seq<Key>)
    ensures id in r <==> id !in prev
    ensures forall y :: y != id ==> (y in r <==> y in prev)
  {
    if id in prev then Remove(prev, id) else prev + [id]
  }

  /** Clicking an unselected building twice restores the selection. */
  lemma ClickTwiceRestores(prev: seq<Key>, id: Key)
    requires id !in prev
    ensures Click(Click(prev, id), id) == prev
  {
    RemoveAppend(prev, [id], id);
    RemoveAbsent(prev, id);
    assert [id][1..] == [];
    assert Remove([id], id) == Filter([id][1..], Other(id));
  }

  /** The given ids that are not selected yet, in their order. */
  function NewIds(ids: seq<Key>, prev: seq<Key>): (r: seq<Key>)
    ensures forall y :: y in r <==> y in ids && y !in prev
  {
    if ids == [] then [] else (if ids[0] in prev then [] else [ids[0]]) + NewIds(ids[1..], prev)
  }

  /** `handlePolygonSelect` */
  function PolygonSelect(prev: seq<Key>, ids: seq<Key>): (r: seq<Key>)
    ensures |r| >= |prev| && r[..|prev|] == prev
    ensures forall y :: y in ids ==> y in r
    ensures forall y :: y in r ==> y in prev || y in ids
  {
    prev + NewIds(ids, prev)
  }

  lemma {:induction false} NoNewIds(ids: seq<Key>, prev: seq<Key>)
    requires forall y :: y in ids ==> y in prev
    ensures NewIds(ids, prev) == []
  {
    if ids != [] {
      assert ids[0] in ids;
      NoNewIds(ids[1..], prev);
    }
  }

  /** Selecting the same polygon twice is selecting it once. */
  lemma PolygonSelectIdempotent(prev: seq<Key>, ids: seq<Key>)
    ensures PolygonSelect(PolygonSelect(prev, ids), ids) == PolygonSelect(prev, ids)
  {
    NoNewIds(ids, PolygonSelect(prev, ids));
  }

  /** `handleHeightChange`: the buildings with that id get height
      `max(1, h)`, the others are unchanged. */
  function HeightChange(bs: seq<Building>, id: Key, h: real): (r: seq<Building>)
    ensures |r| == |bs|
    ensures forall k :: 0 <= k < |bs| ==>
              r[k].id == bs[k].id && r[k].projectedCoords == bs[k].projectedCoords &&
              r[k].height == (if bs[k].id == id then Max(1.0, h) else bs[k].height)
  {
    seq(|bs|, k requires 0 <= k < |bs| => if bs[k].id == id then bs[k].(height := Max(1.0, h)) else bs[k])
  }

  /** After a height change the changed buildings are at least one metre
      high, and changing a second time overrides the first. */
  lemma HeightChangeOverrides(bs: seq<Building>, id: Key, h1: real, h2: real)
    ensures forall k :: 0 <= k < |bs| && bs[k].id == id ==> HeightChange(bs, id, h1)[k].height >= 1.0
    ensures HeightChange(HeightChange(bs, id, h1), id, h2) == HeightChange(bs, id, h2)
  {
  }

  // ---------------------------------------------------------------------
  // exportToOBJ

  /** The lines of the OBJ text; numbers are kept as numbers. */
  datatype ObjLine = Header | BuildingComment(n: nat) | Group(n: nat) | Vertex(x: real, y: real, z: real) | Face(a: int, b: int, c: int)

  /** One ring of vertices at height h (the OBJ y axis), z mirrored. */
  function Layer(c: seq<XY>, h: real): (r: seq<ObjLine>)
    ensures |r| == |c|
  {
    seq(|c|, k requires 0 <= k < |c| => Vertex(c[k].x, h, -c[k].y))
  }

  /** The fan of the bottom ring, from vertex s. */
  function BottomFaces(s: int, n: int): (r: seq<ObjLine>)
    requires n >= 3
  {
    seq(n - 3, k requires 0 <= k < n - 3 => Face(s, s + k + 1, s + k + 2))
  }

  /** The fan of the top ring, wound the other way. */
  function TopFaces(s: int, n: int): (r: seq<ObjLine>)
    requires n >= 3
  {
    seq(n - 3, k requires 0 <= k < n - 3 => Face(s + n, s + n + k + 2, s + n + k + 1))
  }

  /** The two triangles of side i, the last side wrapping to vertex 0. */
  function Side(s: int, n: int, i: nat): seq<ObjLine>
    requires n >= 3
  {
    var next := s + (i + 1) % (n - 1);
    [Face(s + i, next, next + n), Face(s + i, next + n, s + n + i)]
  }

  function SideFaces(s: int, n: int, m: nat): (r: seq<ObjLine>)
    requires n >= 3
    ensures |r| == 2 * m
  {
    if m == 0 then [] else SideFaces(s, n, m - 1) + Side(s, n, m - 1)
  }

  /** The text of one building numbered `index` whose vertices start at s:
      nothing when it has fewer than 3 coordinates. */
  function BuildingBlock(b: Building, index: nat, s: int): seq<ObjLine> {
    var c, n := b.projectedCoords, |b.projectedCoords|;
    if n < 3 then []
    else [BuildingComment(index + 1), Group(index + 1)] + Layer(c, 0.0) + Layer(c, b.height) +
         BottomFaces(s, n) + TopFaces(s, n) + SideFaces(s, n, n - 1)
  }

  /** How far a building moves the vertex counter. */
  function VerticesUsed(b: Building): nat {
    if |b.projectedCoords| < 3 then 0 else 2 * |b.projectedCoords|
  }

  /** The counter before building i: 1 plus the vertices written so far. */
  function StartOf(bs: seq<Building>, i: nat): (r: int)
    requires i <= |bs|
    ensures r >= 1
  {
    if i == 0 then 1 else StartOf(bs, i - 1) + VerticesUsed(bs[i - 1])
  }

  function ObjOf(bs: seq<Building>, i: nat): seq<ObjLine>
    requires i <= |bs|
  {
    if i == 0 then [Header] else ObjOf(bs, i - 1) + BuildingBlock(bs[i - 1], i - 1, StartOf(bs, i - 1))
  }

  predicate FaceWithin(l: ObjLine, lo: int, hi: int) {
    l.Face? && lo <= l.a <= hi && lo <= l.b <= hi && lo <= l.c <= hi
  }

  lemma {:induction false} SideFacesWithin(s: int, n: int, m: nat)
    requires n >= 3 && m <= n - 1
    ensures forall k :: 0 <= k < |SideFaces(s, n, m)| ==> FaceWithin(SideFaces(s, n, m)[k], s, s + 2 * n - 1)
  {
    if m > 0 {
      SideFacesWithin(s, n, m - 1);
      var i := m - 1;
      assert 0 <= (i + 1) % (n - 1) < n - 1;
      var r := SideFaces(s, n, m);
      forall k | 0 <= k < |r|
        ensures FaceWithin(r[k], s, s + 2 * n - 1)
      {
        if k >= 2 * (m - 1) {
          assert r[k] == Side(s, n, i)[k - 2 * (m - 1)];
        } else {
          assert r[k] == SideFaces(s, n, m - 1)[k];
        }
      }
    }
  }

  /** A building with n >= 3 coordinates writes a comment and a group line,
      2n vertices (n at height 0, then n at its height), n-3 bottom faces,
      n-3 top faces and 2(n-1) side faces, every face within its own
      vertices s..s+2n-1. */
  lemma BlockShape(b: Building, index: nat, s: int)
    requires |b.projectedCoords| >= 3
    ensures var c, n := b.projectedCoords, |b.projectedCoords|;
            var block := BuildingBlock(b, index, s);
            var faces := block[2 + 2 * n..];
            |block| == 2 + 2 * n + (n - 3) + (n - 3) + 2 * (n - 1) &&
            block[2..2 + 2 * n] == Layer(c, 0.0) + Layer(c, b.height) &&
            (forall k :: 0 <= k < |faces| ==> FaceWithin(faces[k], s, s + 2 * n - 1))
  {
    var c, n := b.projectedCoords, |b.projectedCoords|;
    var block := BuildingBlock(b, index, s);
    var faces := BottomFaces(s, n) + TopFaces(s, n) + SideFaces(s, n, n - 1);
    assert block == [BuildingComment(index + 1), Group(index + 1)] + (Layer(c, 0.0) + Layer(c, b.height)) + faces;
    assert block[2 + 2 * n..] == faces;
    SideFacesWithin(s, n, n - 1);
    forall k | 0 <= k < |faces|
      ensures FaceWithin(faces[k], s, s + 2 * n - 1)
    {
      if k >= 2 * (n - 3) {
        assert faces[k] == SideFaces(s, n, n - 1)[k - 2 * (n - 3)];
      } else if k >= n - 3 {
        assert faces[k] == TopFaces(s, n)[k - (n - 3)];
      } else {
        assert faces[k] == BottomFaces(s, n)[k];
      }
    }
  }

  /** Buildings with fewer than 3 coordinates write nothing and leave the
      counter alone; each building's vertices follow the previous ones. */
  lemma CounterAdvance(bs: seq<Building>, i: nat)
    requires i < |bs|
    ensures StartOf(bs, i + 1) == StartOf(bs, i) + VerticesUsed(bs[i])
    ensures |bs[i].projectedCoords| < 3 ==> ObjOf(bs, i + 1) == ObjOf(bs, i) && StartOf(bs, i + 1) == StartOf(bs, i)
    ensures ObjOf(bs, i + 1)[..|ObjOf(bs, i)|] == ObjOf(bs, i)
  {
  }

  method EmitLayer(c: seq<XY>, h: real, start: int) returns (lines: seq<ObjLine>, next: int)
    ensures lines == Layer(c, h) && next == start + |c|
  {
    lines := [];
    next := start;
    var k := 0;
    while k < |c|
      invariant 0 <= k <= |c|
      invariant lines == Layer(c[..k], h) && next == start + k
    {
      lines := lines + [Vertex(c[k].x, h, -c[k].y)];
      next := next + 1;
      k := k + 1;
    }
    assert c[..|c|] == c;
  }

  method EmitFans(s: int, n: int) returns (lines: seq<ObjLine>)
    requires n >= 3
    ensures lines == BottomFaces(s, n) + TopFaces(s, n)
  {
    var bottom := [];
    var i := 2;
    while i < n - 1
      invariant 2 <= i <= n - 1
      invariant bottom == BottomFaces(s, i + 1)
    {
      bottom := bottom + [Face(s, s + i - 1, s + i)];
      i := i + 1;
    }
    var top := [];
    i := 2;
    while i < n - 1
      invariant 2 <= i <= n - 1
      invariant top == seq(i - 2, k requires 0 <= k < i - 2 => Face(s + n, s + n + k + 2, s + n + k + 1))
    {
      top := top + [Face(s + n, s + n + i, s + n + i - 1)];
      i := i + 1;
    }
    lines := bottom + top;
  }

  method EmitSides(s: int, n: int) returns (lines: seq<ObjLine>)
    requires n >= 3
    ensures lines == SideFaces(s, n, n - 1)
  {
    lines := [];
    var i := 0;
    while i < n - 1
      invariant 0 <= i <= n - 1
      invariant lines == SideFaces(s, n, i)
    {
      var current := s + i;
      var next := s + (i + 1) % (n - 1);
      var currentTop := s + n + i;
      var nextTop := s + n + (i + 1) % (n - 1);
      lines := lines + [Face(current, next, nextTop), Face(current, nextTop, currentTop)];
      i := i + 1;
    }
  }

  /** The body of the `forEach` callback for one building. */
  method EmitBuilding(b: Building, index: nat, vertexIndex: int) returns (lines: seq<ObjLine>, next: int)
    ensures lines == BuildingBlock(b, index, vertexIndex)
    ensures next == vertexIndex + VerticesUsed(b)
  {
    var coords := b.projectedCoords;
    if |coords| < 3 {
      return [], vertexIndex;
    }
    var startVertex := vertexIndex;
    var bottom, top, fans, sides;
    bottom, next := EmitLayer(coords, 0.0, vertexIndex);
    top, next := EmitLayer(coords, b.height, next);
    fans := EmitFans(startVertex, |coords|);
    sides := EmitSides(startVertex, |coords|);
    lines := [BuildingComment(index + 1), Group(index + 1)] + bottom + top + fans + sides;
    assert fans == BottomFaces(startVertex, |coords|) + TopFaces(startVertex, |coords|);
    assert lines == [BuildingComment(index + 1), Group(index + 1)] + bottom + top +
                    BottomFaces(startVertex, |coords|) + TopFaces(startVertex, |coords|) + sides;
  }

  /** The text and the counter once the first i buildings are written. */
  predicate Emitted(bs: seq<Building>, i: nat, content: seq<ObjLine>, vertexIndex: int)
    requires i <= |bs|
  {
    content == ObjOf(bs, i) && vertexIndex == StartOf(bs, i)
  }

  /** One turn of the `forEach`: building i appended. */
  method EmitNext(bs: seq<Building>, i: nat, content0: seq<ObjLine>, vertexIndex0: int)
    returns (content: seq<ObjLine>, vertexIndex: int)
    requires i < |bs| && Emitted(bs, i, content0, vertexIndex0)
    ensures Emitted(bs, i + 1, content, vertexIndex)
  {
    var block;
    block, vertexIndex := EmitBuilding(bs[i], i, vertexIndex0);
    content := content0 + block;
  }

  /** `exportToOBJ`, with the file download left out. */
  method ExportToOBJ(bs: seq<Building>) returns (objContent: seq<ObjLine>)
    ensures objContent == ObjOf(bs, |bs|)
  {
    objContent := [Header];
    var vertexIndex := 1;
    var i := 0;
    while i < |bs|
      invariant 0 <= i <= |bs|
      invariant Emitted(bs, i, objContent, vertexIndex)
    {
      objContent, vertexIndex := EmitNext(bs, i, objContent, vertexIndex);
      i := i + 1;
    }
  }
}
