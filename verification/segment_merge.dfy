/** The endpoint-joining loop that both river pipelines run: repeated
    passes over the list of lines, each pass gluing onto every unused line
    the later unused lines whose endpoints come close, until a pass joins
    nothing. The two pipelines differ only in what "close" means and in
    whose properties a joined line keeps, so both are parameters here. */
module SegmentMerge {
  import opened Common

  /** A GeoJSON LineString feature: its coordinates and its properties. */
  datatype Line = Line(coords: seq<Point>, props: Props)

  /** What a pipeline decides: when two endpoints are close, and the
      properties of a joined line from those of the current line and of
      the line joined onto it. */
  datatype Policy = Policy(close: (Point, Point) -> bool, combine: (Props, Props) -> Props)

  predicate WellFormed(l: Line) {
    |l.coords| >= 2
  }

  predicate AllWellFormed(ls: seq<Line>) {
    forall k :: 0 <= k < |ls| ==> WellFormed(ls[k])
  }

  function Start(l: Line): Point
    requires WellFormed(l)
  {
    l.coords[0]
  }

  function End(l: Line): Point
    requires WellFormed(l)
  {
    l.coords[|l.coords| - 1]
  }

  ghost predicate Symmetric(close: (Point, Point) -> bool) {
    forall p, q :: close(p, q) == close(q, p)
  }

  /** Some endpoint of `a` is close to some endpoint of `b`. */
  predicate CanJoin(a: Line, b: Line, close: (Point, Point) -> bool)
    requires WellFormed(a) && WellFormed(b)
  {
    close(End(a), Start(b)) || close(Start(a), End(b)) ||
    close(End(a), End(b)) || close(Start(a), Start(b))
  }

  /** No two lines of `ls` at positions i < j can be joined. */
  predicate NoJoinablePair(ls: seq<Line>, close: (Point, Point) -> bool)
    requires AllWellFormed(ls)
  {
    forall i, j :: 0 <= i < j < |ls| ==> !CanJoin(ls[i], ls[j], close)
  }

  /** `x + y[1..]` where the last point of `x` and the first of `y` were
      found close: two point lists glued at a (nearly) shared endpoint. */
  predicate GluedAt(r: seq<Point>, x: seq<Point>, y: seq<Point>, close: (Point, Point) -> bool) {
    |x| >= 1 && |y| >= 1 && (close(x[|x| - 1], y[0]) || close(y[0], x[|x| - 1])) && r == x + y[1..]
  }

  /** `r` glues `a` and `b`, each taken forwards or backwards, in either order. */
  predicate Glues(r: seq<Point>, a: seq<Point>, b: seq<Point>, close: (Point, Point) -> bool) {
    GluedAt(r, a, b, close) || GluedAt(r, b, a, close) ||
    GluedAt(r, a, Reverse(b), close) || GluedAt(r, Reverse(a), b, close)
  }

  /** One join attempt of `current` with `other`, the four cases tried in the
      order end-to-start, start-to-end, end-to-end (other reversed) and
      start-to-start (current reversed). */
  function TryJoin(current: Line, other: Line, pol: Policy): (r: Option<Line>)
    requires WellFormed(current) && WellFormed(other)
    ensures r.Some? <==> CanJoin(current, other, pol.close)
    ensures r.Some? ==> WellFormed(r.value)
    ensures r.Some? ==> |r.value.coords| == |current.coords| + |other.coords| - 1
    ensures r.Some? ==> Glues(r.value.coords, current.coords, other.coords, pol.close)
  {
    var props := pol.combine(current.props, other.props);
    if pol.close(End(current), Start(other)) then
      Some(Line(current.coords + other.coords[1..], props))
    else if pol.close(Start(current), End(other)) then
      Some(Line(other.coords + current.coords[1..], props))
    else if pol.close(End(current), End(other)) then
      Some(Line(current.coords + Reverse(other.coords)[1..], props))
    else if pol.close(Start(current), Start(other)) then
      Some(Line(Reverse(current.coords) + other.coords[1..], props))
    else None
  }

  /** The joined line takes its properties from the policy, and the earlier
      cases take precedence over the later ones. */
  lemma JoinOrder(current: Line, other: Line, pol: Policy)
    requires WellFormed(current) && WellFormed(other)
    ensures CanJoin(current, other, pol.close) ==>
              TryJoin(current, other, pol).value.props == pol.combine(current.props, other.props)
    ensures pol.close(End(current), Start(other)) ==>
              TryJoin(current, other, pol).value.coords == current.coords + other.coords[1..]
    ensures !pol.close(End(current), Start(other)) && pol.close(Start(current), End(other)) ==>
              TryJoin(current, other, pol).value.coords == other.coords + current.coords[1..]
    ensures !pol.close(End(current), Start(other)) && !pol.close(Start(current), End(other)) &&
            pol.close(End(current), End(other)) ==>
              TryJoin(current, other, pol).value.coords == current.coords + Reverse(other.coords)[1..]
    ensures !pol.close(End(current), Start(other)) && !pol.close(Start(current), End(other)) &&
            !pol.close(End(current), End(other)) && pol.close(Start(current), Start(other)) ==>
              TryJoin(current, other, pol).value.coords == Reverse(current.coords) + other.coords[1..]
  {
  }

  /** Every point of every line lies in `w`. */
  predicate LinesIn(ls: seq<Line>, w: Window) {
    forall k :: 0 <= k < |ls| ==> AllIn(ls[k].coords, w)
  }

  /** The points of a point list, as a set. */
  function Elems(ps: seq<Point>): set<Point> {
    set p | p in ps
  }

  /** Every point of every line of `ls`. */
  function Points(ls: seq<Line>): set<Point> {
    if ls == [] then {} else Points(ls[..|ls| - 1]) + Elems(ls[|ls| - 1].coords)
  }

  lemma PointsAppend(ls: seq<Line>, l: Line)
    ensures Points(ls + [l]) == Points(ls) + Elems(l.coords)
  {
    assert (ls + [l])[..|ls|] == ls;
  }

  lemma {:induction false} PointsHas(ls: seq<Line>, j: nat)
    requires j < |ls|
    ensures Elems(ls[j].coords) <= Points(ls)
  {
    if j < |ls| - 1 {
      PointsHas(ls[..|ls| - 1], j);
    }
  }

  /** Lines whose points all come from lines inside a window are inside it. */
  lemma {:induction false} PointsStayIn(ls: seq<Line>, src: seq<Line>, w: Window)
    requires LinesIn(src, w) && Points(ls) <= Points(src)
    ensures LinesIn(ls, w)
  {
    forall p | p in Points(src) ensures InWindow(p, w) {
      PointsIn(src, w, p);
    }
    forall k | 0 <= k < |ls| ensures AllIn(ls[k].coords, w) {
      PointsHas(ls, k);
      forall m | 0 <= m < |ls[k].coords| ensures InWindow(ls[k].coords[m], w) {
        assert ls[k].coords[m] in Elems(ls[k].coords);
      }
    }
  }

  lemma {:induction false} PointsIn(ls: seq<Line>, w: Window, p: Point)
    requires LinesIn(ls, w) && p in Points(ls)
    ensures InWindow(p, w)
  {
    var init, last := ls[..|ls| - 1], ls[|ls| - 1];
    if p in Points(init) {
      assert LinesIn(init, w) by {
        forall k | 0 <= k < |init| ensures AllIn(init[k].coords, w) {
          assert init[k] == ls[k];
        }
      }
      PointsIn(init, w, p);
    } else {
      var m :| 0 <= m < |last.coords| && last.coords[m] == p;
      assert AllIn(ls[|ls| - 1].coords, w);
    }
  }

  /** A join only reuses points of the two lines. */
  lemma JoinPoints(current: Line, other: Line, pol: Policy)
    requires WellFormed(current) && WellFormed(other)
    requires CanJoin(current, other, pol.close)
    ensures Elems(TryJoin(current, other, pol).value.coords) <= Elems(current.coords) + Elems(other.coords)
  {
    var r := TryJoin(current, other, pol).value.coords;
    var a, b := current.coords, other.coords;
    forall p | p in r
      ensures p in a || p in b
    {
      var k :| 0 <= k < |r| && r[k] == p;
      if GluedAt(r, a, b, pol.close) {
        if k >= |a| { assert r[k] == b[k - |a| + 1]; }
      } else if GluedAt(r, b, a, pol.close) {
        if k >= |b| { assert r[k] == a[k - |b| + 1]; }
      } else if GluedAt(r, a, Reverse(b), pol.close) {
        if k >= |a| { assert r[k] == Reverse(b)[k - |a| + 1]; }
      } else {
        if k < |a| { assert r[k] == Reverse(a)[k]; } else { assert r[k] == b[k - |a| + 1]; }
      }
    }
  }

  lemma {:induction false} BoundedSetSize(s: set<int>, n: nat)
    requires forall k :: k in s ==> 0 <= k < n
    ensures |s| <= n
  {
    if n == 0 {
      assert forall k :: k !in s;
      assert s == {};
    } else {
      BoundedSetSize(s - {n - 1}, n - 1);
    }
  }

  /** The point-to-point steps of a line: one fewer than its points. A
      join glues two lines at one shared end, so it keeps the steps of
      both. */
  function Steps(l: Line): int {
    |l.coords| - 1
  }

  /** The steps of all lines of `ls`. */
  function TotalSteps(ls: seq<Line>): int {
    if ls == [] then 0 else TotalSteps(ls[..|ls| - 1]) + Steps(ls[|ls| - 1])
  }

  lemma TotalStepsAppend(ls: seq<Line>, l: Line)
    ensures TotalSteps(ls + [l]) == TotalSteps(ls) + Steps(l)
  {
    assert (ls + [l])[..|ls|] == ls;
  }

  /** Every line has a step, so only the empty list has no steps. */
  lemma {:induction false} StepsCountLines(ls: seq<Line>)
    requires AllWellFormed(ls)
    ensures TotalSteps(ls) >= |ls|
    ensures TotalSteps(ls) == 0 <==> ls == []
  {
    if ls != [] {
      StepsCountLines(ls[..|ls| - 1]);
    }
  }

  /** The steps of the lines of `rivers` below `n` whose index is in `used`. */
  function UsedSteps(rivers: seq<Line>, used: set<int>, n: nat): int
    requires n <= |rivers|
  {
    if n == 0 then 0
    else UsedSteps(rivers, used, n - 1) + (if n - 1 in used then Steps(rivers[n - 1]) else 0)
  }

  lemma {:induction false} UsedStepsAdd(rivers: seq<Line>, used: set<int>, j: int, n: nat)
    requires n <= |rivers| && j !in used && 0 <= j
    ensures UsedSteps(rivers, used + {j}, n) == UsedSteps(rivers, used, n) + (if j < n then Steps(rivers[j]) else 0)
  {
    if n > 0 {
      UsedStepsAdd(rivers, used, j, n - 1);
    }
  }

  lemma {:induction false} UsedStepsNone(rivers: seq<Line>, n: nat)
    requires n <= |rivers|
    ensures UsedSteps(rivers, {}, n) == 0
  {
    if n > 0 {
      UsedStepsNone(rivers, n - 1);
    }
  }

  lemma {:induction false} UsedStepsAll(rivers: seq<Line>, used: set<int>, n: nat)
    requires n <= |rivers|
    requires forall k :: 0 <= k < n ==> k in used
    ensures UsedSteps(rivers, used, n) == TotalSteps(rivers[..n])
  {
    if n > 0 {
      UsedStepsAll(rivers, used, n - 1);
      assert rivers[..n][..n - 1] == rivers[..n - 1];
    }
  }

  /** The members of `s` in `[lo, hi)`, in increasing order. */
  function Ascending(s: set<int>, lo: int, hi: int): seq<int>
    decreases hi - lo
  {
    if hi <= lo then [] else Ascending(s, lo, hi - 1) + (if hi - 1 in s then [hi - 1] else [])
  }

  lemma {:induction false} AscendingSame(s: set<int>, t: set<int>, lo: int, hi: int)
    requires forall k :: lo <= k < hi ==> (k in s <==> k in t)
    ensures Ascending(s, lo, hi) == Ascending(t, lo, hi)
    decreases hi - lo
  {
    if lo < hi {
      AscendingSame(s, t, lo, hi - 1);
    }
  }

  /** `start` joined in turn with the lines of `rivers` at the positions
      `idx`, or None as soon as one of those joins fails. */
  function Chain(start: Line, rivers: seq<Line>, idx: seq<int>, pol: Policy): Option<Line>
    decreases |idx|
  {
    if idx == [] then Some(start)
    else
      match Chain(start, rivers, idx[..|idx| - 1], pol)
      case None => None
      case Some(before) =>
        var j := idx[|idx| - 1];
        if 0 <= j < |rivers| && WellFormed(before) && WellFormed(rivers[j]) then TryJoin(before, rivers[j], pol)
        else None
  }

  /** What line i has become after looking at the lines before `j`: line i
      joined with each absorbed line in index order, its steps those of
      line i and of the absorbed lines together, its points taken from the
      lines; with nothing absorbed, line i itself, joinable with none of the
      unused lines looked at. */
  ghost predicate Absorbed(rivers: seq<Line>, pol: Policy, i: nat, used0: set<int>, j: int,
                           current: Line, used: set<int>, added: nat)
    requires AllWellFormed(rivers) && i < |rivers| && j <= |rivers|
  {
    WellFormed(current) && i !in used && used0 <= used && |used| == |used0| + added &&
    (forall k :: k in used ==> 0 <= k < |rivers|) &&
    (forall k :: k in used && k !in used0 ==> i < k < j) &&
    Chain(rivers[i], rivers, Ascending(used - used0, i + 1, j), pol) == Some(current) &&
    Steps(current) + UsedSteps(rivers, used0, |rivers|) == Steps(rivers[i]) + UsedSteps(rivers, used, |rivers|) &&
    Elems(current.coords) <= Points(rivers) &&
    (added == 0 ==> current == rivers[i] && used == used0) &&
    (added == 0 ==> forall b :: i < b < j && b !in used0 ==> !CanJoin(rivers[i], rivers[b], pol.close))
  }

  /** Line j joined onto the current line keeps the absorbed state. */
  lemma AbsorbStep(rivers: seq<Line>, pol: Policy, i: nat, used0: set<int>, j: nat,
                   current: Line, used: set<int>, added: nat)
    requires AllWellFormed(rivers) && i < j < |rivers| && j !in used
    requires Absorbed(rivers, pol, i, used0, j, current, used, added)
    requires CanJoin(current, rivers[j], pol.close)
    ensures Absorbed(rivers, pol, i, used0, j + 1, TryJoin(current, rivers[j], pol).value, used + {j}, added + 1)
  {
    var joined := TryJoin(current, rivers[j], pol).value;
    var used' := used + {j};
    var d, d' := used - used0, used' - used0;
    AscendingSame(d', d, i + 1, j);
    var idx := Ascending(d, i + 1, j);
    assert Ascending(d', i + 1, j + 1) == idx + [j];
    assert (idx + [j])[..|idx|] == idx;
    assert Chain(rivers[i], rivers, Ascending(d', i + 1, j + 1), pol) == Some(joined);
    UsedStepsAdd(rivers, used, j, |rivers|);
    assert Steps(joined) + UsedSteps(rivers, used0, |rivers|) == Steps(rivers[i]) + UsedSteps(rivers, used', |rivers|);
    JoinPoints(current, rivers[j], pol);
    PointsHas(rivers, j);
    assert Elems(joined.coords) <= Points(rivers);
  }

  /** Line j left alone keeps the absorbed state. */
  lemma SkipStep(rivers: seq<Line>, pol: Policy, i: nat, used0: set<int>, j: nat,
                 current: Line, used: set<int>, added: nat)
    requires AllWellFormed(rivers) && i < j < |rivers|
    requires Absorbed(rivers, pol, i, used0, j, current, used, added)
    requires j in used || !CanJoin(current, rivers[j], pol.close)
    ensures Absorbed(rivers, pol, i, used0, j + 1, current, used, added)
  {
    var d := used - used0;
    assert j !in d;
    assert Ascending(d, i + 1, j + 1) == Ascending(d, i + 1, j) + [];
    assert Ascending(d, i + 1, j) + [] == Ascending(d, i + 1, j);
  }

  /** The inner `for` of a pass: line i absorbs, in index order, each
      later unused line it can be joined with, marking it used. The result
      is line i joined with the absorbed lines in index order, it has
      their steps together and only their points; without a join, line i
      is unchanged and no later unused line can be joined with it. */
  method Absorb(rivers: seq<Line>, pol: Policy, i: nat, used0: set<int>)
    returns (current: Line, used: set<int>, added: nat)
    requires AllWellFormed(rivers) && i < |rivers| && i !in used0
    requires forall k :: k in used0 ==> 0 <= k < |rivers|
    ensures WellFormed(current)
    ensures i !in used && used0 <= used && |used| == |used0| + added
    ensures forall k :: k in used ==> 0 <= k < |rivers|
    ensures forall k :: k in used && k !in used0 ==> i < k
    ensures Chain(rivers[i], rivers, Ascending(used - used0, i + 1, |rivers|), pol) == Some(current)
    ensures Steps(current) + UsedSteps(rivers, used0, |rivers|) == Steps(rivers[i]) + UsedSteps(rivers, used, |rivers|)
    ensures Elems(current.coords) <= Points(rivers)
    ensures added == 0 ==> current == rivers[i] && used == used0
    ensures added == 0 ==> forall b :: i < b < |rivers| && b !in used0 ==> !CanJoin(rivers[i], rivers[b], pol.close)
  {
    current, used, added := rivers[i], used0, 0;
    var j := i + 1;
    assert Ascending(used - used0, i + 1, j) == [];
    PointsHas(rivers, i);
    while j < |rivers|
      invariant i + 1 <= j <= |rivers|
      invariant Absorbed(rivers, pol, i, used0, j, current, used, added)
    {
      if j !in used {
        var joined := TryJoin(current, rivers[j], pol);
        if joined.Some? {
          AbsorbStep(rivers, pol, i, used0, j, current, used, added);
          current := joined.value;
          used := used + {j};
          added := added + 1;
        } else {
          SkipStep(rivers, pol, i, used0, j, current, used, added);
        }
      } else {
        SkipStep(rivers, pol, i, used0, j, current, used, added);
      }
      j := j + 1;
    }
    AbsorbedAll(rivers, pol, i, used0, current, used, added);
  }

  lemma AbsorbedAll(rivers: seq<Line>, pol: Policy, i: nat, used0: set<int>, current: Line, used: set<int>, added: nat)
    requires AllWellFormed(rivers) && i < |rivers|
    requires Absorbed(rivers, pol, i, used0, |rivers|, current, used, added)
    ensures WellFormed(current)
    ensures i !in used && used0 <= used && |used| == |used0| + added
    ensures forall k :: k in used ==> 0 <= k < |rivers|
    ensures forall k :: k in used && k !in used0 ==> i < k
    ensures Chain(rivers[i], rivers, Ascending(used - used0, i + 1, |rivers|), pol) == Some(current)
    ensures Steps(current) + UsedSteps(rivers, used0, |rivers|) == Steps(rivers[i]) + UsedSteps(rivers, used, |rivers|)
    ensures Elems(current.coords) <= Points(rivers)
    ensures added == 0 ==> current == rivers[i] && used == used0
    ensures added == 0 ==> forall b :: i < b < |rivers| && b !in used0 ==> !CanJoin(rivers[i], rivers[b], pol.close)
  {
  }

  /** The bookkeeping of a pass before line i: the lines written so far
      are well formed, every line before i is used, and each used line
      was either written or absorbed (`joins` of them). */
  ghost predicate PassShape(rivers: seq<Line>, i: nat, out: seq<Line>, used: set<int>, merged: bool, joins: nat)
  {
    AllWellFormed(out) &&
    (forall k :: k in used ==> 0 <= k < |rivers|) &&
    (forall k :: 0 <= k < i ==> k in used) &&
    |out| + joins == |used| &&
    (merged <==> joins > 0)
  }

  /** As long as a pass has joined nothing, it has written the first i
      lines as they were, and none of them can be joined with a later one. */
  ghost predicate PassFresh(rivers: seq<Line>, pol: Policy, i: nat, out: seq<Line>, used: set<int>, merged: bool)
    requires AllWellFormed(rivers) && i <= |rivers|
  {
    !merged ==>
      out == rivers[..i] && (forall k :: k in used ==> k < i) &&
      forall a, b :: 0 <= a < i && a < b < |rivers| ==> !CanJoin(rivers[a], rivers[b], pol.close)
  }

  /** The state of a pass before line i: its bookkeeping, the written lines
      carrying the steps of the used lines and only their points, and the
      untouched prefix while nothing is joined. */
  ghost predicate Passing(rivers: seq<Line>, pol: Policy, i: nat, out: seq<Line>, used: set<int>, merged: bool, joins: nat)
    requires AllWellFormed(rivers) && i <= |rivers|
  {
    PassShape(rivers, i, out, used, merged, joins) &&
    TotalSteps(out) == UsedSteps(rivers, used, |rivers|) &&
    Points(out) <= Points(rivers) &&
    PassFresh(rivers, pol, i, out, used, merged)
  }

  lemma ShapeWrite(rivers: seq<Line>, i: nat, out: seq<Line>, used0: set<int>, merged: bool, joins: nat,
                   current: Line, used: set<int>, added: nat)
    requires i < |rivers| && PassShape(rivers, i, out, used0, merged, joins)
    requires WellFormed(current)
    requires i !in used && used0 <= used && |used| == |used0| + added
    requires forall k :: k in used ==> 0 <= k < |rivers|
    ensures PassShape(rivers, i + 1, out + [current], used + {i}, merged || added > 0, joins + added)
  {
    var out' := out + [current];
    forall k | 0 <= k < |out'| ensures WellFormed(out'[k]) {
      if k < |out| {
        assert out'[k] == out[k];
      }
    }
  }

  /** Writing the absorbing line keeps the written steps equal to the
      used steps. */
  lemma WriteKeepsSteps(rivers: seq<Line>, i: nat, out: seq<Line>, used0: set<int>, used: set<int>, current: Line)
    requires i < |rivers| && i !in used
    requires TotalSteps(out) == UsedSteps(rivers, used0, |rivers|)
    requires Steps(current) + UsedSteps(rivers, used0, |rivers|) == Steps(rivers[i]) + UsedSteps(rivers, used, |rivers|)
    ensures TotalSteps(out + [current]) == UsedSteps(rivers, used + {i}, |rivers|)
  {
    TotalStepsAppend(out, current);
    UsedStepsAdd(rivers, used, i, |rivers|);
  }

  /** Line i written unchanged, no line before it joinable with a later
      one, and line i joinable with no later unused line: the first i + 1
      lines are written and none of them is joinable with a later one. */
  lemma FreshWrite(rivers: seq<Line>, pol: Policy, i: nat, out: seq<Line>, used0: set<int>, merged: bool,
                   current: Line, used: set<int>, added: nat)
    requires AllWellFormed(rivers) && i < |rivers|
    requires PassFresh(rivers, pol, i, out, used0, merged)
    requires added == 0 ==> current == rivers[i] && used == used0
    requires added == 0 ==> forall b :: i < b < |rivers| && b !in used0 ==> !CanJoin(rivers[i], rivers[b], pol.close)
    ensures PassFresh(rivers, pol, i + 1, out + [current], used + {i}, merged || added > 0)
  {
    if !(merged || added > 0) {
      assert rivers[..i + 1] == rivers[..i] + [rivers[i]];
    }
  }

  /** One turn of the outer `for`: an unused line i absorbs what it can and
      is written; a used one is skipped. */
  method PassStep(rivers: seq<Line>, pol: Policy, i: nat, out0: seq<Line>, used0: set<int>, merged0: bool, ghost joins0: nat)
    returns (out: seq<Line>, used: set<int>, merged: bool, ghost joins: nat)
    requires AllWellFormed(rivers) && i < |rivers|
    requires Passing(rivers, pol, i, out0, used0, merged0, joins0)
    ensures Passing(rivers, pol, i + 1, out, used, merged, joins)
  {
    if i in used0 {
      return out0, used0, merged0, joins0;
    }
    var current, used1, added := Absorb(rivers, pol, i, used0);
    ShapeWrite(rivers, i, out0, used0, merged0, joins0, current, used1, added);
    WriteKeepsSteps(rivers, i, out0, used0, used1, current);
    FreshWrite(rivers, pol, i, out0, used0, merged0, current, used1, added);
    PointsAppend(out0, current);
    out, used, merged, joins := out0 + [current], used1 + {i}, merged0 || added > 0, joins0 + added;
  }

  /** One `for` pass with its `used` set: every unused line absorbs, in
      index order, each later unused line it can be joined with. The pass
      keeps the lines' steps; a pass that joins nothing hands back its
      input unchanged, and that input has no joinable pair; a pass that
      joins something shortens the list. */
  method MergePass(rivers: seq<Line>, pol: Policy) returns (out: seq<Line>, merged: bool)
    requires AllWellFormed(rivers)
    ensures AllWellFormed(out)
    ensures TotalSteps(out) == TotalSteps(rivers)
    ensures |out| <= |rivers|
    ensures merged ==> |out| < |rivers|
    ensures !merged ==> out == rivers && NoJoinablePair(rivers, pol.close)
    ensures Points(out) <= Points(rivers)
  {
    out := [];
    merged := false;
    var used: set<int> := {};
    UsedStepsNone(rivers, |rivers|);
    ghost var joins: nat := 0;
    var i := 0;
    while i < |rivers|
      invariant 0 <= i <= |rivers|
      invariant Passing(rivers, pol, i, out, used, merged, joins)
    {
      out, used, merged, joins := PassStep(rivers, pol, i, out, used, merged, joins);
      i := i + 1;
    }
    BoundedSetSize(used, |rivers|);
    UsedStepsAll(rivers, used, |rivers|);
    assert rivers[..|rivers|] == rivers;
  }

  /** `while (merged) { … }`: passes until one joins nothing. Each joining
      pass removes at least one line, so the loop ends; at the end no two
      lines can be joined, there are no more lines than at the start, the
      steps of all lines are kept, and there are lines left exactly when
      there were lines to start with. */
  method MergeAll(lines: seq<Line>, pol: Policy) returns (result: seq<Line>)
    requires AllWellFormed(lines)
    ensures AllWellFormed(result)
    ensures TotalSteps(result) == TotalSteps(lines)
    ensures |result| <= |lines|
    ensures result == [] <==> lines == []
    ensures NoJoinablePair(result, pol.close)
    ensures Points(result) <= Points(lines)
  {
    result := lines;
    var merged := true;
    while merged
      invariant AllWellFormed(result)
      invariant TotalSteps(result) == TotalSteps(lines)
      invariant |result| <= |lines|
      invariant !merged ==> NoJoinablePair(result, pol.close)
      invariant Points(result) <= Points(lines)
      decreases |result| + (if merged then 1 else 0)
    {
      result, merged := MergePass(result, pol);
    }
    StepsCountLines(lines);
    StepsCountLines(result);
  }

  /** No endpoint of a line is close to an endpoint of another line. */
  predicate EndpointsApart(ls: seq<Line>, close: (Point, Point) -> bool)
    requires AllWellFormed(ls)
  {
    forall i, j :: 0 <= i < |ls| && 0 <= j < |ls| && i != j ==>
      !close(Start(ls[i]), Start(ls[j])) && !close(Start(ls[i]), End(ls[j])) &&
      !close(End(ls[i]), Start(ls[j])) && !close(End(ls[i]), End(ls[j]))
  }

  /** With a symmetric closeness, the fixpoint of the merge loop leaves
      every pair of distinct lines with all four endpoint pairs apart. */
  lemma FixpointEndpointsApart(ls: seq<Line>, close: (Point, Point) -> bool)
    requires AllWellFormed(ls)
    requires Symmetric(close)
    requires NoJoinablePair(ls, close)
    ensures EndpointsApart(ls, close)
  {
    forall i, j | 0 <= i < |ls| && 0 <= j < |ls| && i != j
      ensures !close(Start(ls[i]), Start(ls[j])) && !close(Start(ls[i]), End(ls[j])) &&
              !close(End(ls[i]), Start(ls[j])) && !close(End(ls[i]), End(ls[j]))
    {
      if i < j {
        assert !CanJoin(ls[i], ls[j], close);
      } else {
        assert !CanJoin(ls[j], ls[i], close);
        assert close(Start(ls[i]), End(ls[j])) == close(End(ls[j]), Start(ls[i]));
        assert close(End(ls[i]), Start(ls[j])) == close(Start(ls[j]), End(ls[i]));
        assert close(Start(ls[i]), Start(ls[j])) == close(Start(ls[j]), Start(ls[i]));
        assert close(End(ls[i]), End(ls[j])) == close(End(ls[j]), End(ls[i]));
      }
    }
  }
}
