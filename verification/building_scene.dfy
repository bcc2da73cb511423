/** The data helpers of the 3D scene: buildings extracted from OSM ways
    with an estimated height, water ways classified as lines or polygons
    on a slightly enlarged window, the "render when any corner is inside"
    filter, and the two colour updates. */
module BuildingScene {
  import opened Common
  import opened Osm
  import opened Text

  /** A building to extrude: id, footprint, height in metres, colour. */
  datatype Building = Building(id: string, coordinates: seq<Point>, height: real, color: string)

  const White: string := "#ffffff"
  const MinHeight: real := 2.0
  const MaxHeight: real := 300.0
  const FootInMetres: real := 0.3048

  // ---------------------------------------------------------------------
  // Height

  /** The height tag as compared: trimmed, then lower-cased. */
  function HeightText(t: Tags): string
    requires "height" in t
  {
    Lower(Trim(t["height"]))
  }

  predicate InFeet(s: string) {
    Contains(s, "ft") || Contains(s, "feet")
  }

  /** The height before clamping. A `height` tag is read by its leading
      number, converted from feet when the text says so; with no leading
      number it is `parseFloat(tag) || 3`. Without a `height` tag, a positive
      `building:levels` gives three metres a level. Otherwise 3. */
  function RawHeight(t: Tags, parseFloat: string -> Option<real>): real {
    if HasTag(t, "height") then
      var hv := HeightText(t);
      match LeadingNumber(hv)
      case Some(v) => if InFeet(hv) then v * FootInMetres else v
      case None =>
        (match parseFloat(t["height"])
         case Some(x) => if x != 0.0 then x else 3.0
         case None => 3.0)
    else if HasTag(t, "building:levels") then
      match parseFloat(t["building:levels"])
      case Some(l) => if l > 0.0 then l * 3.0 else 3.0
      case None => 3.0
    else 3.0
  }

  /** `if (h < 2) h = 2; if (h > 300) h = 300;` */
  function Clamp(h: real): (r: real)
    ensures MinHeight <= r <= MaxHeight
    ensures MinHeight <= h <= MaxHeight ==> r == h
  {
    if h < MinHeight then MinHeight else if h > MaxHeight then MaxHeight else h
  }

  /** The `let height` computation of `processOSMData`, step by step. */
  method EstimateHeight(t: Tags, parseFloat: string -> Option<real>) returns (height: real)
    ensures height == Clamp(RawHeight(t, parseFloat))
    ensures MinHeight <= height <= MaxHeight
  {
    height := 3.0;
    if HasTag(t, "height") {
      var heightValue := HeightText(t);
      var match_ := LeadingNumber(heightValue);
      if match_.Some? {
        var numericHeight := match_.value;
        if Contains(heightValue, "ft") || Contains(heightValue, "feet") {
          numericHeight := numericHeight * FootInMetres;
        }
        height := numericHeight;
      } else {
        var parsed := parseFloat(t["height"]);
        height := if parsed.Some? && parsed.value != 0.0 then parsed.value else 3.0;
      }
    } else if HasTag(t, "building:levels") {
      var levels := parseFloat(t["building:levels"]);
      if levels.Some? && levels.value > 0.0 {
        height := levels.value * 3.0;
      }
    }
    if height < MinHeight {
      height := MinHeight;
    }
    if height > MaxHeight {
      height := MaxHeight;
    }
  }

  /** A height tag with a leading number is read in metres, or in feet
      when its text mentions `ft` or `feet`. */
  lemma HeightFromTag(t: Tags, parseFloat: string -> Option<real>)
    requires HasTag(t, "height") && LeadingNumber(HeightText(t)).Some?
    ensures var v := LeadingNumber(HeightText(t)).value;
            RawHeight(t, parseFloat) == if InFeet(HeightText(t)) then v * FootInMetres else v
    ensures RawHeight(t, parseFloat) >= 0.0
  {
  }

  /** Without a `height` tag, positive levels give three metres each;
      anything else gives the default 3. */
  lemma HeightFromLevels(t: Tags, parseFloat: string -> Option<real>)
    requires !HasTag(t, "height")
    ensures HasTag(t, "building:levels") && parseFloat(t["building:levels"]).Some? &&
            parseFloat(t["building:levels"]).value > 0.0 ==>
              RawHeight(t, parseFloat) == parseFloat(t["building:levels"]).value * 3.0
    ensures !(HasTag(t, "building:levels") && parseFloat(t["building:levels"]).Some? &&
              parseFloat(t["building:levels"]).value > 0.0) ==>
              RawHeight(t, parseFloat) == 3.0
  {
  }

  lemma {:induction false} DigitsHaveNoLetters(s: string)
    requires forall k :: 0 <= k < |s| ==> IsDigit(s[k])
    ensures !Contains(s, "ft") && !Contains(s, "feet")
    ensures Lower(s) == s
  {
    if s != [] {
      DigitsHaveNoLetters(s[1..]);
    }
  }

  /** A plain decimal height between 2 and 300, such as `"20"`, is taken
      as that many metres whatever the parser does. */
  lemma PlainHeight(t: Tags, n: nat, parseFloat: string -> Option<real>)
    requires "height" in t && t["height"] == Decimal(n)
    requires 2 <= n <= 300
    ensures Clamp(RawHeight(t, parseFloat)) == n as real
  {
    var s := Decimal(n);
    DecimalIsDigits(n);
    assert !IsSpace(s[0]) && !IsSpace(s[|s| - 1]);
    assert TrimStart(s) == s;
    assert Trim(s) == s;
    DigitsHaveNoLetters(s);
    LeadingNumberOfDecimal(n);
  }

  // ---------------------------------------------------------------------
  // processOSMData

  /** `element.id?.toString() || \`building-${index}\`` */
  function BuildingId(id: Option<int>, index: nat): (r: string)
    ensures id.Some? ==> r == IntText(id.value)
    ensures id.None? ==> r == Label("building-", index)
  {
    match id
    case Some(n) => IntText(n)
    case None => Label("building-", index)
  }

  predicate IsBuildingWay(e: Element) {
    e.Way? && HasTag(e.tags, "building")
  }

  function BuildingOf(e: Element, index: nat, m: map<int, Point>, parseFloat: string -> Option<real>): Building
    requires e.Way?
  {
    Building(BuildingId(e.wayId, index), Resolve(e.nodes, m), Clamp(RawHeight(e.tags, parseFloat)), White)
  }

  /** The positions, in order, of the building ways among the first n
      elements. */
  function BuildingWays(es: seq<Element>, n: nat): (r: seq<nat>)
    requires n <= |es|
    ensures forall j :: 0 <= j < |r| ==> r[j] < n && IsBuildingWay(es[r[j]])
  {
    if n == 0 then []
    else if IsBuildingWay(es[n - 1]) then BuildingWays(es, n - 1) + [n - 1]
    else BuildingWays(es, n - 1)
  }

  /** The number of building ways among the first n elements. */
  function BuildingCount(es: seq<Element>, n: nat): nat
    requires n <= |es|
  {
    |BuildingWays(es, n)|
  }

  /** `f` applied to each position in `ways` and to its rank there. */
  function Numbered<T>(ways: seq<nat>, f: (nat, nat) --> T): (r: seq<T>)
    requires forall j :: 0 <= j < |ways| ==> f.requires(ways[j], j)
    ensures |r| == |ways|
  {
    seq(|ways|, j requires 0 <= j < |ways| => f(ways[j], j))
  }

  lemma NumberedAt<T>(ways: seq<nat>, f: (nat, nat) --> T, j: nat)
    requires forall j :: 0 <= j < |ways| ==> f.requires(ways[j], j)
    requires j < |ways|
    ensures Numbered(ways, f)[j] == f(ways[j], j)
  {
  }

  lemma NumberedSnoc<T>(ways: seq<nat>, x: nat, f: (nat, nat) --> T)
    requires forall j :: 0 <= j < |ways| ==> f.requires(ways[j], j)
    requires f.requires(x, |ways|)
    ensures Numbered(ways + [x], f) == Numbered(ways, f) + [f(x, |ways|)]
  {
    var longer := ways + [x];
    assert forall j :: 0 <= j < |longer| ==> f.requires(longer[j], j);
    var a, b := Numbered(longer, f), Numbered(ways, f) + [f(x, |ways|)];
    forall j | 0 <= j < |a| ensures a[j] == b[j] {
      if j < |ways| {
        assert (ways + [x])[j] == ways[j];
      }
    }
  }

  /** Building way k, numbered `index`, as `processOSMData` makes it. */
  function BuildingFor(es: seq<Element>, m: map<int, Point>, parseFloat: string -> Option<real>): (nat, nat) --> Building
  {
    (k: nat, index: nat) requires k < |es| && es[k].Way? => BuildingOf(es[k], index, m, parseFloat)
  }

  /** The buildings of the first n elements, in order, each numbered by
      its position among the building ways. */
  function BuildingsOf(es: seq<Element>, m: map<int, Point>, parseFloat: string -> Option<real>, n: nat): (r: seq<Building>)
    requires n <= |es|
    ensures |r| == BuildingCount(es, n)
  {
    Numbered(BuildingWays(es, n), BuildingFor(es, m, parseFloat))
  }

  /** The list of building positions only grows with n. */
  lemma {:induction false} BuildingWaysPrefix(es: seq<Element>, j: nat, n: nat)
    requires j <= n <= |es|
    ensures |BuildingWays(es, j)| <= |BuildingWays(es, n)|
    ensures BuildingWays(es, n)[..|BuildingWays(es, j)|] == BuildingWays(es, j)
    decreases n
  {
    if j < n {
      BuildingWaysPrefix(es, j, n - 1);
      var short, mid, long := BuildingWays(es, j), BuildingWays(es, n - 1), BuildingWays(es, n);
      assert long[..|mid|] == mid;
      assert long[..|short|] == long[..|mid|][..|short|];
    }
  }

  /** Building way k is at position `BuildingCount(es, k)` of the list. */
  lemma BuildingWayAt(es: seq<Element>, n: nat, k: nat)
    requires k < n <= |es| && IsBuildingWay(es[k])
    ensures BuildingCount(es, k) < BuildingCount(es, n) && BuildingWays(es, n)[BuildingCount(es, k)] == k
  {
    BuildingWaysPrefix(es, k + 1, n);
    var short, long := BuildingWays(es, k + 1), BuildingWays(es, n);
    assert short == BuildingWays(es, k) + [k];
    assert long[|BuildingWays(es, k)|] == long[..|short|][|BuildingWays(es, k)|];
  }

  /** Building way k is entry `BuildingCount(es, k)` of the result, with
      its resolved nodes as footprint, its id (or `building-<index>` when it
      has none), its clamped height and the default colour. */
  lemma BuildingOfEachWay(es: seq<Element>, m: map<int, Point>, parseFloat: string -> Option<real>, n: nat, k: nat)
    requires k < n <= |es| && IsBuildingWay(es[k])
    ensures BuildingCount(es, k) < |BuildingsOf(es, m, parseFloat, n)|
    ensures var b := BuildingsOf(es, m, parseFloat, n)[BuildingCount(es, k)];
            b.coordinates == Resolve(es[k].nodes, m) &&
            b.id == BuildingId(es[k].wayId, BuildingCount(es, k)) &&
            b.height == Clamp(RawHeight(es[k].tags, parseFloat)) && b.color == White
  {
    BuildingWayAt(es, n, k);
    NumberedAt(BuildingWays(es, n), BuildingFor(es, m, parseFloat), BuildingCount(es, k));
  }

  /** Every building has a height within the clamp bounds and the default
      colour. */
  lemma BuildingsBounded(es: seq<Element>, m: map<int, Point>, parseFloat: string -> Option<real>, n: nat)
    requires n <= |es|
    ensures var r := BuildingsOf(es, m, parseFloat, n);
            forall k :: 0 <= k < |r| ==> MinHeight <= r[k].height <= MaxHeight && r[k].color == White
  {
    var r := BuildingsOf(es, m, parseFloat, n);
    forall k | 0 <= k < |r| ensures MinHeight <= r[k].height <= MaxHeight && r[k].color == White {
      NumberedAt(BuildingWays(es, n), BuildingFor(es, m, parseFloat), k);
    }
  }

  /** One more element adds its building, if it is a building way, at the
      end. */
  lemma BuildingsStep(es: seq<Element>, m: map<int, Point>, parseFloat: string -> Option<real>, i: nat)
    requires i < |es|
    ensures BuildingsOf(es, m, parseFloat, i + 1) ==
            if IsBuildingWay(es[i])
            then BuildingsOf(es, m, parseFloat, i) + [BuildingOf(es[i], BuildingCount(es, i), m, parseFloat)]
            else BuildingsOf(es, m, parseFloat, i)
  {
    if IsBuildingWay(es[i]) {
      NumberedSnoc(BuildingWays(es, i), i, BuildingFor(es, m, parseFloat));
    }
  }

  /** The body of the `processOSMData` loop for building way k: its
      resolved footprint, its estimated height and the default colour. */
  method MakeBuilding(es: seq<Element>, k: nat, index: nat, m: map<int, Point>, parseFloat: string -> Option<real>)
    returns (b: Building)
    requires k < |es| && es[k].Way?
    ensures b == BuildingFor(es, m, parseFloat)(k, index)
  {
    var e := es[k];
    var coordinates := ResolveNodes(e.nodes, m);
    var height := EstimateHeight(e.tags, parseFloat);
    b := Building(BuildingId(e.wayId, index), coordinates, height, White);
  }

  /** `processOSMData`: no elements give no buildings; otherwise the node
      table is built and each building way is turned into a building. */
  method ProcessOSMData(es: seq<Element>, parseFloat: string -> Option<real>) returns (result: seq<Building>)
    ensures result == BuildingsOf(es, NodeMapOf(es), parseFloat, |es|)
    ensures |result| == BuildingCount(es, |es|)
  {
    if |es| == 0 {
      return [];
    }
    var m := BuildNodeMap(es);
    result := CollectBuildings(es, m, parseFloat);
  }

  /** The loop of `processOSMData` over the elements, with the node table
      already built. */
  method CollectBuildings(es: seq<Element>, m: map<int, Point>, parseFloat: string -> Option<real>) returns (result: seq<Building>)
    ensures result == BuildingsOf(es, m, parseFloat, |es|)
  {
    result := [];
    var i := 0;
    while i < |es|
      invariant 0 <= i <= |es|
      invariant result == BuildingsOf(es, m, parseFloat, i)
    {
      result := CollectNext(es, m, parseFloat, i, result);
      i := i + 1;
    }
  }

  /** One turn of the loop: element i adds its building when it is a
      building way. */
  method CollectNext(es: seq<Element>, m: map<int, Point>, parseFloat: string -> Option<real>, i: nat, result0: seq<Building>)
    returns (result: seq<Building>)
    requires i < |es| && result0 == BuildingsOf(es, m, parseFloat, i)
    ensures result == BuildingsOf(es, m, parseFloat, i + 1)
  {
    BuildingsStep(es, m, parseFloat, i);
    result := result0;
    if IsBuildingWay(es[i]) {
      var building := MakeBuilding(es, i, |result|, m, parseFloat);
      result := result + [building];
    }
  }

  // ---------------------------------------------------------------------
  // processWaterData

  const WaterTolerance: real := 0.0005

  /** The window enlarged by the tolerance on every side. */
  function Expand(w: Window): (r: Window)
    ensures ValidWindow(w) ==> ValidWindow(r)
    ensures forall p :: InWindow(p, w) ==> InWindow(p, r)
  {
    Window(w.north + WaterTolerance, w.south - WaterTolerance, w.east + WaterTolerance, w.west - WaterTolerance)
  }

  datatype WaterKind = PolygonWater | LineWater

  /** A water feature for the scene; `waterwayType` is absent when neither
      tag is there, `width` only on lines that carry a parsable width. */
  datatype Water = Water(coordinates: seq<Point>, kind: WaterKind, waterwayType: Option<string>, width: Option<real>, id: string)

  predicate IsWaterWay(e: Element) {
    e.Way? && (HasTag(e.tags, "waterway") || TagIs(e.tags, "natural", "water"))
  }

  predicate PolygonTagged(t: Tags) {
    TagIs(t, "natural", "water") || TagIs(t, "waterway", "riverbank") || TagIs(t, "waterway", "basin")
  }

  predicate LineTagged(t: Tags) {
    TagIs(t, "waterway", "river") || TagIs(t, "waterway", "stream") || TagIs(t, "waterway", "drain") ||
    TagIs(t, "waterway", "ditch") || TagIs(t, "waterway", "brook")
  }

  /** `waterway || natural` */
  function WaterType(t: Tags): Option<string> {
    if HasTag(t, "waterway") then Some(t["waterway"])
    else if "natural" in t then Some(t["natural"])
    else None
  }

  /** `tags.width ? parseFloat(tags.width) : undefined`, NaN read as absent. */
  function WaterWidth(t: Tags, parseFloat: string -> Option<real>): Option<real> {
    if HasTag(t, "width") then parseFloat(t["width"]) else None
  }

  /** The classification of one water way from its filtered points. */
  function ClassifyWater(t: Tags, fs: seq<Point>, id: string, parseFloat: string -> Option<real>): (r: Option<Water>)
    ensures r.Some? ==> r.value.coordinates == fs && r.value.id == id
    ensures PolygonTagged(t) ==> r.Some? && r.value.kind == PolygonWater
    ensures !PolygonTagged(t) && |fs| > 2 && fs[0] == fs[|fs| - 1] ==> r.Some? && r.value.kind == PolygonWater
    ensures r.Some? && r.value.kind == LineWater ==> LineTagged(t) && |fs| >= 2
    ensures !PolygonTagged(t) && !(|fs| > 2 && fs[0] == fs[|fs| - 1]) && LineTagged(t) && |fs| >= 2 ==>
              r == Some(Water(fs, LineWater, Some(t["waterway"]), WaterWidth(t, parseFloat), id))
    ensures !PolygonTagged(t) && !(LineTagged(t) && |fs| >= 2) && |fs| > 2 ==> r.Some? && r.value.kind == PolygonWater
    ensures r.Some? && r.value.kind == PolygonWater ==> r.value.waterwayType == WaterType(t) && r.value.width.None?
    ensures r.None? <==> !PolygonTagged(t) && |fs| <= 2 && !(LineTagged(t) && |fs| == 2)
  {
    var isClosed := |fs| > 2 && fs[0] == fs[|fs| - 1];
    if PolygonTagged(t) || isClosed then Some(Water(fs, PolygonWater, WaterType(t), None, id))
    else if LineTagged(t) && |fs| >= 2 then Some(Water(fs, LineWater, Some(t["waterway"]), WaterWidth(t, parseFloat), id))
    else if |fs| > 2 then Some(Water(fs, PolygonWater, WaterType(t), None, id))
    else None
  }

  /** The callback of `ways.map(...)` for one way: none when every listed
      node is missing, otherwise its points in the enlarged window,
      classified. */
  function WaterOf(e: Element, m: map<int, Point>, w: Window, parseFloat: string -> Option<real>): (r: Option<Water>)
    requires e.Way? && e.wayId.Some?
    ensures |e.nodes| > 0 && Resolve(e.nodes, m) == [] ==> r.None?
    ensures r.Some? ==> r.value.coordinates == FilterIn(Resolve(e.nodes, m), Expand(w))
  {
    var coords := Resolve(e.nodes, m);
    if |e.nodes| > 0 && |coords| == 0 then None
    else ClassifyWater(e.tags, FilterIn(coords, Expand(w)), IntText(e.wayId.value), parseFloat)
  }

  function WatersOf(es: seq<Element>, m: map<int, Point>, w: Window, parseFloat: string -> Option<real>, n: nat): (r: seq<Water>)
    requires n <= |es|
    requires forall k :: 0 <= k < |es| && IsWaterWay(es[k]) ==> es[k].wayId.Some?
    ensures |r| <= n
    ensures forall k :: 0 <= k < |r| ==> AllIn(r[k].coordinates, Expand(w))
  {
    if n == 0 then []
    else
      var init := WatersOf(es, m, w, parseFloat, n - 1);
      if IsWaterWay(es[n - 1]) then
        var r := WaterOf(es[n - 1], m, w, parseFloat);
        init + (if r.Some? then [r.value] else [])
      else init
  }

  lemma ResolveFrom(ids: seq<int>, m: map<int, Point>, i: nat)
    requires i < |ids|
    ensures Resolve(ids[i..], m) == (if ids[i] in m then [m[ids[i]]] else []) + Resolve(ids[i + 1..], m)
  {
    assert ids[i..][1..] == ids[i + 1..];
  }

  /** The node loop of `processWaterData`, counting the missing nodes. */
  method ResolveCounting(ids: seq<int>, m: map<int, Point>) returns (coords: seq<Point>, missing: nat)
    ensures coords == Resolve(ids, m)
    ensures missing + |coords| == |ids|
  {
    coords := [];
    missing := 0;
    var i := 0;
    while i < |ids|
      invariant 0 <= i <= |ids|
      invariant coords + Resolve(ids[i..], m) == Resolve(ids, m)
      invariant missing + |coords| == i
    {
      ResolveFrom(ids, m, i);
      var rest := Resolve(ids[i + 1..], m);
      if ids[i] in m {
        assert coords + Resolve(ids[i..], m) == (coords + [m[ids[i]]]) + rest;
        coords := coords + [m[ids[i]]];
      } else {
        assert Resolve(ids[i..], m) == rest;
        missing := missing + 1;
      }
      i := i + 1;
    }
    assert ids[|ids|..] == [];
    assert coords + [] == coords;
  }

  /** `processWaterData`. Every water way must carry an id, which the
      scene turns into text. */
  method ProcessWaterData(es: seq<Element>, w: Window, parseFloat: string -> Option<real>) returns (result: seq<Water>)
    requires forall k :: 0 <= k < |es| && IsWaterWay(es[k]) ==> es[k].wayId.Some?
    ensures result == WatersOf(es, NodeMapOf(es), w, parseFloat, |es|)
    ensures forall k :: 0 <= k < |result| ==> AllIn(result[k].coordinates, Expand(w))
  {
    if |es| == 0 {
      return [];
    }
    var m := BuildNodeMap(es);
    result := [];
    var i := 0;
    while i < |es|
      invariant 0 <= i <= |es|
      invariant result == WatersOf(es, m, w, parseFloat, i)
    {
      var e := es[i];
      if IsWaterWay(e) {
        var coordinates, missingNodesCount := ResolveCounting(e.nodes, m);
        if !(missingNodesCount > 0 && |e.nodes| > 0 && missingNodesCount == |e.nodes|) {
          var filtered := FilterIn(coordinates, Expand(w));
          var r := ClassifyWater(e.tags, filtered, IntText(e.wayId.value), parseFloat);
          if r.Some? {
            result := result + [r.value];
          }
        }
      }
      i := i + 1;
    }
  }

  // ---------------------------------------------------------------------
  // Rendering filter and colour updates

  /** `building.coordinates.some(inside)` */
  predicate IsBuildingInBounds(b: Building, w: Window) {
    AnyIn(b.coordinates, w)
  }

  /** The buildings that are rendered, in order. */
  function Rendered(bs: seq<Building>, w: Window): (r: seq<Building>)
    ensures |r| <= |bs|
  {
    if bs == [] then []
    else (if IsBuildingInBounds(bs[0], w) then [bs[0]] else []) + Rendered(bs[1..], w)
  }

  /** Rendered buildings come from the list and each has a corner in the
      window. */
  lemma {:induction false} RenderedSound(bs: seq<Building>, w: Window)
    ensures forall k :: 0 <= k < |Rendered(bs, w)| ==> IsBuildingInBounds(Rendered(bs, w)[k], w) && Rendered(bs, w)[k] in bs
  {
    if bs != [] {
      RenderedSound(bs[1..], w);
      var r, rest := Rendered(bs, w), Rendered(bs[1..], w);
      forall k | 0 <= k < |r| ensures IsBuildingInBounds(r[k], w) && r[k] in bs {
        if IsBuildingInBounds(bs[0], w) && k > 0 {
          assert r[k] == rest[k - 1];
          assert rest[k - 1] in bs[1..];
        } else if !IsBuildingInBounds(bs[0], w) {
          assert r[k] == rest[k];
          assert rest[k] in bs[1..];
        }
      }
    }
  }

  /** A building is rendered exactly when one of its corners is in the window. */
  lemma {:induction false} RenderedIff(bs: seq<Building>, w: Window, b: Building)
    requires b in bs
    ensures b in Rendered(bs, w) <==> IsBuildingInBounds(b, w)
  {
    if bs[0] != b {
      RenderedIff(bs[1..], w, b);
    } else {
      RenderedSound(bs[1..], w);
    }
  }

  /** The scene's building list and its current selection. */
  datatype SceneState = SceneState(buildings: seq<Building>, selected: Option<string>)

  predicate SelectionSet(s: Option<string>) {
    s.Some? && s.value != ""
  }

  /** `changeBuildingColor`: with a selection, the buildings whose id is the
      selection take the colour; in every case the selection is cleared. */
  function ChangeBuildingColor(st: SceneState, color: string): (r: SceneState)
    ensures r.selected.None?
    ensures |r.buildings| == |st.buildings|
    ensures forall k :: 0 <= k < |st.buildings| ==>
              var b, b' := st.buildings[k], r.buildings[k];
              b'.id == b.id && b'.coordinates == b.coordinates && b'.height == b.height &&
              b'.color == (if SelectionSet(st.selected) && b.id == st.selected.value then color else b.color)
  {
    if SelectionSet(st.selected) then
      SceneState(seq(|st.buildings|, k requires 0 <= k < |st.buildings| =>
                   if st.buildings[k].id == st.selected.value then st.buildings[k].(color := color) else st.buildings[k]),
                 None)
    else SceneState(st.buildings, None)
  }

  /** `resetColors`: every building white, nothing else touched. */
  function ResetColors(bs: seq<Building>): (r: seq<Building>)
    ensures |r| == |bs|
    ensures forall k :: 0 <= k < |bs| ==> r[k] == bs[k].(color := White)
  {
    seq(|bs|, k requires 0 <= k < |bs| => bs[k].(color := White))
  }

  /** Resetting twice is resetting once, and resetting after a colour
      change leaves the same buildings as resetting before it. */
  lemma ResetAbsorbsColorChange(st: SceneState, color: string)
    ensures ResetColors(ResetColors(st.buildings)) == ResetColors(st.buildings)
    ensures ResetColors(ChangeBuildingColor(st, color).buildings) == ResetColors(st.buildings)
  {
  }
}
