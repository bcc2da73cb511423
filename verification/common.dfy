/** Values shared by every part of the model: optional values, geographic
    points and windows, JavaScript-like property values, and the decimal
    rendering of counters used in generated identifiers. */
module Common {

  datatype Option<+T> = None | Some(value: T) {
    function GetOr(default: T): T {
      match this
      case Some(v) => v
      case None => default
    }
  }

  /** A GeoJSON position: longitude first, latitude second. */
  datatype Point = Point(lon: real, lat: real)

  /** A rectangular geographic window in decimal degrees. */
  datatype Window = Window(north: real, south: real, east: real, west: real)

  /** The guard the HTTP layer applies before any processing runs. */
  predicate ValidWindow(w: Window) {
    w.north > w.south && w.east > w.west
  }

  /** Inclusive containment, as every in-bounds test of the system writes it. */
  predicate InWindow(p: Point, w: Window) {
    w.west <= p.lon <= w.east && w.south <= p.lat <= w.north
  }

  predicate AllIn(ps: seq<Point>, w: Window) {
    forall k :: 0 <= k < |ps| ==> InWindow(ps[k], w)
  }

  predicate AnyIn(ps: seq<Point>, w: Window) {
    exists k :: 0 <= k < |ps| && InWindow(ps[k], w)
  }

  /** The coordinates of `ps` that lie in `w`, in order (`coords.filter(inBounds)`). */
  function FilterIn(ps: seq<Point>, w: Window): (r: seq<Point>)
    ensures |r| <= |ps|
    ensures AllIn(r, w)
  {
    if ps == [] then []
    else (if InWindow(ps[0], w) then [ps[0]] else []) + FilterIn(ps[1..], w)
  }

  lemma {:induction false} FilterInKeepsInside(ps: seq<Point>, w: Window)
    requires AllIn(ps, w)
    ensures FilterIn(ps, w) == ps
  {
    if ps != [] {
      FilterInKeepsInside(ps[1..], w);
    }
  }

  lemma {:induction false} FilterInMembers(ps: seq<Point>, w: Window, p: Point)
    ensures p in FilterIn(ps, w) <==> p in ps && InWindow(p, w)
  {
    if ps != [] {
      FilterInMembers(ps[1..], w, p);
      assert ps == [ps[0]] + ps[1..];
    }
  }

  /** A first-to-last reversal (`[...xs].reverse()`). */
  function Reverse<T>(xs: seq<T>): (r: seq<T>)
    ensures |r| == |xs|
    ensures forall k :: 0 <= k < |xs| ==> r[k] == xs[|xs| - 1 - k]
  {
    if xs == [] then [] else Reverse(xs[1..]) + [xs[0]]
  }

  /** Loose JavaScript values that appear as properties and tags. */
  datatype Value = Str(s: string) | Num(x: real) | Bool(b: bool) | Obj(fields: map<string, string>) | Undefined

  type Tags = map<string, string>
  type Props = map<string, Value>

  /** JavaScript truthiness of a value (NaN is not representable). */
  predicate Truthy(v: Value) {
    match v
    case Str(s) => s != ""
    case Num(x) => x != 0.0
    case Bool(b) => b
    case Obj(_) => true
    case Undefined => false
  }

  /** `tags?.[k]` used as a condition: present and not the empty string. */
  predicate HasTag(t: Tags, k: string) {
    k in t && t[k] != ""
  }

  /** `tags?.[k] === v` */
  predicate TagIs(t: Tags, k: string, v: string) {
    k in t && t[k] == v
  }

  /** Tags spread into an object of values (`{...tags}`). */
  function LiftTags(t: Tags): (r: Props)
    ensures r.Keys == t.Keys
    ensures forall k :: k in t ==> r[k] == Str(t[k])
  {
    map k | k in t :: Str(t[k])
  }

  /** `a || b` on values. */
  function Or(a: Value, b: Value): (r: Value)
    ensures Truthy(a) ==> r == a
    ensures !Truthy(a) ==> r == b
  {
    if Truthy(a) then a else b
  }

  /** Property lookup that yields `undefined` for a missing key. */
  function Get(p: Props, k: string): Value {
    if k in p then p[k] else Undefined
  }

  /** The character of the decimal digit d. */
  function DigitChar(d: nat): (c: char)
    requires d < 10
    ensures '0' <= c <= '9' && c as int - '0' as int == d
  {
    ('0' as int + d) as char
  }

  /** The decimal text JavaScript prints for a natural number. */
  function Decimal(n: nat): (r: string)
    ensures |r| >= 1
    decreases n
  {
    if n < 10 then [DigitChar(n)] else Decimal(n / 10) + [DigitChar(n % 10)]
  }

  /** The decimal text JavaScript prints for an integer. */
  function IntText(n: int): (r: string)
    ensures |r| >= 1
  {
    if n < 0 then "-" + Decimal(-n) else Decimal(n)
  }

  /** A template string `${prefix}${n}`. */
  function Label(prefix: string, n: nat): string {
    prefix + Decimal(n)
  }

  /** A template string `${prefix}${i}-${k}`. */
  function Label2(prefix: string, i: nat, k: nat): string {
    prefix + Decimal(i) + "-" + Decimal(k)
  }
}
