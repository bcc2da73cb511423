/** The second copy of the scene helpers. Its `processOSMData`, bounds
    filter and colour updates do the same computation on the current
    building list as the first copy, so they are modelled once, in
    `BuildingScene`; the lemmas here state the properties this copy is
    read for. */
module MapScene {
  import opened Common
  import opened Text
  import opened BuildingScene

  lemma {:induction false} DecimalStartsWithDigit(n: nat)
    ensures IsDigit(Decimal(n)[0])
  {
    DecimalIsDigits(n);
  }

  /** The id is `building-<index>` exactly when the element has no id: the
      text of an id starts with a digit or a minus sign, never with `b`. */
  lemma IdFallsBackOnlyWhenMissing(id: Option<int>, index: nat)
    ensures BuildingId(id, index) == Label("building-", index) <==> id.None?
  {
    if id.Some? {
      var n := id.value;
      var t := IntText(n);
      if n < 0 {
        assert t[0] == '-';
      } else {
        DecimalStartsWithDigit(n);
      }
      assert Label("building-", index)[0] == 'b';
    }
  }

  /** With a `height` tag that does not start with a digit, the height is
      `parseFloat(tag) || 3` before clamping. */
  lemma HeightFallsBackToParse(t: Tags, parseFloat: string -> Option<real>)
    requires HasTag(t, "height") && LeadingNumber(HeightText(t)).None?
    ensures parseFloat(t["height"]).Some? && parseFloat(t["height"]).value != 0.0 ==>
              RawHeight(t, parseFloat) == parseFloat(t["height"]).value
    ensures !(parseFloat(t["height"]).Some? && parseFloat(t["height"]).value != 0.0) ==>
              RawHeight(t, parseFloat) == 3.0
  {
  }

  /** When every building has a corner in the window, all of them are
      rendered, in order. */
  lemma {:induction false} AllInsideAllRendered(bs: seq<Building>, w: Window)
    requires forall k :: 0 <= k < |bs| ==> IsBuildingInBounds(bs[k], w)
    ensures Rendered(bs, w) == bs
  {
    if bs != [] {
      AllInsideAllRendered(bs[1..], w);
    }
  }

  /** Rendering keeps the relative order of the buildings: the rendered
      list of a concatenation is the concatenation of the rendered lists. */
  lemma {:induction false} RenderedSplits(a: seq<Building>, b: seq<Building>, w: Window)
    ensures Rendered(a + b, w) == Rendered(a, w) + Rendered(b, w)
  {
    if a != [] {
      assert (a + b)[1..] == a[1..] + b;
      RenderedSplits(a[1..], b, w);
      assert (a + b)[0] == a[0];
    } else {
      assert a + b == b;
    }
  }

  /** A colour change without a selection changes no building. */
  lemma ColorChangeNeedsSelection(st: SceneState, color: string)
    requires !SelectionSet(st.selected)
    ensures ChangeBuildingColor(st, color).buildings == st.buildings
  {
  }

  /** Resetting keeps every field but the colour. */
  lemma ResetKeepsOtherFields(bs: seq<Building>, k: nat)
    requires k < |bs|
    ensures var b := ResetColors(bs)[k];
            b.id == bs[k].id && b.coordinates == bs[k].coordinates && b.height == bs[k].height && b.color == White
  {
  }
}
