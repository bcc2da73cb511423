/** The raw Overpass element array every processor consumes, the node
    lookup table built from it, and way resolution through that table. */
module Osm {
  import opened Common

  /** An Overpass "out body" element. A missing `nodes` list or `tags`
      object is modelled as the empty one, which every reader treats alike. */
  datatype Element =
    | Node(id: int, lat: real, lon: real)
    | Way(wayId: Option<int>, nodes: seq<int>, tags: Tags)
    | Other

  /** The lookup table after `nodesMap.set(id, [lon, lat])` for every node
      of `es`, in order: a later node with the same id replaces an earlier one. */
  function NodeMapOf(es: seq<Element>): map<int, Point>
    decreases |es|
  {
    if es == [] then map[]
    else
      var m := NodeMapOf(es[..|es| - 1]);
      var e := es[|es| - 1];
      if e.Node? then m[e.id := Point(e.lon, e.lat)] else m
  }

  /** Index of the last node with identifier `id` in `es`. */
  predicate IsLastNode(es: seq<Element>, id: int, k: int) {
    0 <= k < |es| && es[k].Node? && es[k].id == id &&
    forall j :: k < j < |es| ==> !(es[j].Node? && es[j].id == id)
  }

  /** The table holds exactly the node identifiers of `es`. */
  lemma {:induction false} NodeMapKeys(es: seq<Element>, id: int)
    ensures id in NodeMapOf(es) <==> exists k :: 0 <= k < |es| && es[k].Node? && es[k].id == id
  {
    if es != [] {
      var init := es[..|es| - 1];
      NodeMapKeys(init, id);
      var e := es[|es| - 1];
      if id in NodeMapOf(es) && !(e.Node? && e.id == id) {
        var k :| 0 <= k < |init| && init[k].Node? && init[k].id == id;
        assert es[k] == init[k];
      } else if e.Node? && e.id == id {
        assert es[|es| - 1] == e;
      } else {
        forall k | 0 <= k < |init| ensures es[k] == init[k] {}
      }
    }
  }

  /** Each identifier is mapped to the coordinates of its last occurrence. */
  lemma {:induction false} NodeMapLastWins(es: seq<Element>, id: int, k: int)
    requires IsLastNode(es, id, k)
    ensures id in NodeMapOf(es) && NodeMapOf(es)[id] == Point(es[k].lon, es[k].lat)
  {
    var init := es[..|es| - 1];
    if k < |es| - 1 {
      assert IsLastNode(init, id, k);
      NodeMapLastWins(init, id, k);
    }
  }

  /** `elements.forEach(e => if node, nodesMap.set(e.id, [e.lon, e.lat]))` */
  method BuildNodeMap(es: seq<Element>) returns (m: map<int, Point>)
    ensures m == NodeMapOf(es)
  {
    m := map[];
    var i := 0;
    while i < |es|
      invariant 0 <= i <= |es|
      invariant m == NodeMapOf(es[..i])
    {
      assert es[..i + 1][..i] == es[..i];
      if es[i].Node? {
        m := m[es[i].id := Point(es[i].lon, es[i].lat)];
      }
      i := i + 1;
    }
    assert es[..|es|] == es;
  }

  /** `ids.map(id => nodesMap.get(id)).filter(c => c !== undefined)` */
  function Resolve(ids: seq<int>, m: map<int, Point>): (r: seq<Point>)
    ensures |r| <= |ids|
  {
    if ids == [] then []
    else (if ids[0] in m then [m[ids[0]]] else []) + Resolve(ids[1..], m)
  }

  /** Identifiers of `ids` that the table knows, in order. */
  function Known(ids: seq<int>, m: map<int, Point>): (r: seq<int>)
    ensures |r| <= |ids|
    ensures forall k :: 0 <= k < |r| ==> r[k] in m
  {
    if ids == [] then []
    else (if ids[0] in m then [ids[0]] else []) + Known(ids[1..], m)
  }

  /** Resolution keeps the known identifiers in order and drops the rest:
      the k-th point is the table entry of the k-th known identifier. */
  lemma {:induction false} ResolveIsLookupOfKnown(ids: seq<int>, m: map<int, Point>)
    ensures |Resolve(ids, m)| == |Known(ids, m)|
    ensures forall k :: 0 <= k < |Known(ids, m)| ==> Resolve(ids, m)[k] == m[Known(ids, m)[k]]
  {
    if ids != [] {
      ResolveIsLookupOfKnown(ids[1..], m);
    }
  }

  /** When every identifier is known nothing is dropped. */
  lemma {:induction false} ResolveAllKnown(ids: seq<int>, m: map<int, Point>)
    requires forall k :: 0 <= k < |ids| ==> ids[k] in m
    ensures |Resolve(ids, m)| == |ids|
    ensures forall k :: 0 <= k < |ids| ==> Resolve(ids, m)[k] == m[ids[k]]
  {
    if ids != [] {
      ResolveAllKnown(ids[1..], m);
    }
  }

  /** When no identifier is known nothing remains. */
  lemma {:induction false} ResolveNoneKnown(ids: seq<int>, m: map<int, Point>)
    requires forall k :: 0 <= k < |ids| ==> ids[k] !in m
    ensures Resolve(ids, m) == []
  {
    if ids != [] {
      ResolveNoneKnown(ids[1..], m);
    }
  }

  /** The `forEach` loop that pushes each found node's coordinates. */
  method ResolveNodes(ids: seq<int>, m: map<int, Point>) returns (coords: seq<Point>)
    ensures coords == Resolve(ids, m)
  {
    coords := [];
    var i := 0;
    while i < |ids|
      invariant 0 <= i <= |ids|
      invariant coords + Resolve(ids[i..], m) == Resolve(ids, m)
    {
      assert ids[i..][1..] == ids[i + 1..];
      if ids[i] in m {
        coords := coords + [m[ids[i]]];
      }
      i := i + 1;
    }
  }
}
