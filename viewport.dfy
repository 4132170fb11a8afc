/**
 * Viewport overflow detector (STEP 4): every text element's outer box is
 * compared with the fixed 1920 x 1080 slide viewport.
 */
module Viewport {
  import opened TextUtil
  import opened BoxModel
  import opened Container

  const ViewportWidth: real := 1920.0
  const ViewportHeight: real := 1080.0

  /** Position of an edge in a viewport finding's `directions` list. */
  function ViewportRank(d: Direction): nat {
    match d
    case Left => 0
    case Top => 1
    case Right => 2
    case Bottom => 3
  }

  /** The px overflow past each viewport edge and the edges concerned. */
  datatype ViewportOverflow = ViewportOverflow(left: real, top: real, right: real, bottom: real, directions: seq<Direction>)

  datatype ViewportFinding = ViewportFinding(percent: real, text: ElementRef, overflow: ViewportOverflow)

  /** `part` as a percentage of a viewport dimension. */
  function Percentage(part: real, whole: real): real
    requires whole > 0.0
  {
    part / whole * 100.0
  }

  /** `Math.max` of four numbers. */
  function Max4(a: real, b: real, c: real, d: real): (m: real)
    ensures m >= a && m >= b && m >= c && m >= d
    ensures m == a || m == b || m == c || m == d
  {
    Max(Max(Max(a, b), c), d)
  }

  /** The edges with a positive overflow, in the order left, top, right, bottom. */
  function ViewportDirections(left: real, top: real, right: real, bottom: real): (ds: seq<Direction>)
    ensures Left in ds <==> left > 0.0
    ensures Top in ds <==> top > 0.0
    ensures Right in ds <==> right > 0.0
    ensures Bottom in ds <==> bottom > 0.0
    ensures forall i, j :: 0 <= i < j < |ds| ==> ViewportRank(ds[i]) < ViewportRank(ds[j])
  {
    (if left > 0.0 then [Left] else [])
    + (if top > 0.0 then [Top] else [])
    + (if right > 0.0 then [Right] else [])
    + (if bottom > 0.0 then [Bottom] else [])
  }

  /** The viewport finding, if any, for one text element. */
  function CheckViewport(e: ElementBox): (r: Option<ViewportFinding>)
    ensures r.Some? <==> !InsideViewport(e.outer)
    ensures r.Some? ==> r.value.text == e.Ref()
  {
    var o := e.outer;
    var left, top := Max(0.0, -o.left), Max(0.0, -o.top);
    var right, bottom := Max(0.0, o.Right() - ViewportWidth), Max(0.0, o.Bottom() - ViewportHeight);
    if left > 0.0 || top > 0.0 || right > 0.0 || bottom > 0.0 then
      var percent := Max4(Percentage(left, ViewportWidth), Percentage(top, ViewportHeight),
                          Percentage(right, ViewportWidth), Percentage(bottom, ViewportHeight));
      Some(ViewportFinding(percent, e.Ref(), ViewportOverflow(left, top, right, bottom,
        ViewportDirections(left, top, right, bottom))))
    else None
  }

  /** The outer box lies within `[0, 1920] x [0, 1080]`. */
  predicate InsideViewport(r: Rect) {
    0.0 <= r.left && r.Right() <= ViewportWidth && 0.0 <= r.top && r.Bottom() <= ViewportHeight
  }

  /**
   * A finding is reported exactly when the outer box leaves the viewport; its
   * percentage is positive and is the largest edge overflow relative to the
   * viewport width (left, right) or height (top, bottom), and its directions
   * are exactly the edges crossed.
   */
  lemma ViewportFindingSpec(e: ElementBox)
    ensures CheckViewport(e).Some? <==> !InsideViewport(e.outer)
    ensures var r, o := CheckViewport(e), e.outer;
      r.Some? ==>
        && r.value.percent > 0.0
        && r.value.percent >= Percentage(Max(0.0, -o.left), ViewportWidth)
        && r.value.percent >= Percentage(Max(0.0, -o.top), ViewportHeight)
        && r.value.percent >= Percentage(Max(0.0, o.Right() - ViewportWidth), ViewportWidth)
        && r.value.percent >= Percentage(Max(0.0, o.Bottom() - ViewportHeight), ViewportHeight)
        && (r.value.percent == Percentage(Max(0.0, -o.left), ViewportWidth)
            || r.value.percent == Percentage(Max(0.0, -o.top), ViewportHeight)
            || r.value.percent == Percentage(Max(0.0, o.Right() - ViewportWidth), ViewportWidth)
            || r.value.percent == Percentage(Max(0.0, o.Bottom() - ViewportHeight), ViewportHeight))
    ensures var r, o := CheckViewport(e), e.outer;
      r.Some? ==>
        && (Left in r.value.overflow.directions <==> o.left < 0.0)
        && (Top in r.value.overflow.directions <==> o.top < 0.0)
        && (Right in r.value.overflow.directions <==> o.Right() > ViewportWidth)
        && (Bottom in r.value.overflow.directions <==> o.Bottom() > ViewportHeight)
  {
    var r, o := CheckViewport(e), e.outer;
    if r.Some? {
      var left, top := Max(0.0, -o.left), Max(0.0, -o.top);
      var right, bottom := Max(0.0, o.Right() - ViewportWidth), Max(0.0, o.Bottom() - ViewportHeight);
      assert left > 0.0 || top > 0.0 || right > 0.0 || bottom > 0.0;
      if left > 0.0 {
        assert Percentage(left, ViewportWidth) > 0.0;
      } else if top > 0.0 {
        assert Percentage(top, ViewportHeight) > 0.0;
      } else if right > 0.0 {
        assert Percentage(right, ViewportWidth) > 0.0;
      } else {
        assert Percentage(bottom, ViewportHeight) > 0.0;
      }
    }
  }

  /** The viewport findings of the text elements, in order. */
  function ViewportFindings(texts: seq<ElementBox>): seq<ViewportFinding> {
    if texts == [] then []
    else
      var n := |texts| - 1;
      var f := CheckViewport(texts[n]);
      ViewportFindings(texts[..n]) + (if f.Some? then [f.value] else [])
  }

  /** STEP 4: one pass over the text elements. */
  method DetectViewportOverflow(texts: seq<ElementBox>) returns (findings: seq<ViewportFinding>)
    ensures findings == ViewportFindings(texts)
  {
    findings := [];
    for i := 0 to |texts|
      invariant findings == ViewportFindings(texts[..i])
    {
      assert texts[..i + 1][..i] == texts[..i];
      var finding := CheckViewport(texts[i]);
      if finding.Some? {
        findings := findings + [finding.value];
      }
    }
    assert texts[..|texts|] == texts;
  }

  /** At most one finding per text element. */
  lemma {:induction false} ViewportFindingsLength(texts: seq<ElementBox>)
    ensures |ViewportFindings(texts)| <= |texts|
  {
    if texts != [] {
      ViewportFindingsLength(texts[..|texts| - 1]);
    }
  }

  /** Every finding is the finding of a text element whose outer box leaves the viewport. */
  lemma {:induction false} ViewportFindingsSound(texts: seq<ElementBox>, f: ViewportFinding) returns (k: nat)
    requires f in ViewportFindings(texts)
    ensures k < |texts| && !InsideViewport(texts[k].outer) && CheckViewport(texts[k]) == Some(f)
  {
    var n := |texts| - 1;
    if f in ViewportFindings(texts[..n]) {
      k := ViewportFindingsSound(texts[..n], f);
      assert texts[..n][k] == texts[k];
    } else {
      k := n;
    }
  }

  /** Every text element whose outer box leaves the viewport contributes its finding. */
  lemma {:induction false} ViewportFindingsComplete(texts: seq<ElementBox>, k: nat) returns (m: nat)
    requires k < |texts| && !InsideViewport(texts[k].outer)
    ensures CheckViewport(texts[k]).Some?
    ensures m < |ViewportFindings(texts)| && ViewportFindings(texts)[m] == CheckViewport(texts[k]).value
  {
    var n := |texts| - 1;
    if k < n {
      m := ViewportFindingsComplete(texts[..n], k);
      assert texts[..n][k] == texts[k];
    } else {
      m := |ViewportFindings(texts[..n])|;
    }
  }
}
