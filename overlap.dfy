/**
 * Overlap detector: every pair `i < j` of text elements whose outer boxes
 * intersect is measured; the intersection area as a percentage of the
 * smaller of the two outer-box areas is reported when it reaches 5%.
 */
module Overlap {
  import opened TextUtil
  import opened BoxModel

  /** Smallest overlap, in percent of the smaller outer box, that is reported. */
  const OverlapThreshold: real := 5.0

  /** The intersection rectangle reported with a finding (`overlap_area`). */
  datatype OverlapArea = OverlapArea(left: real, top: real, width: real, height: real, area: real)

  datatype OverlapFinding = OverlapFinding(
    percent: real,
    element1: ElementRef,
    element2: ElementRef,
    overlapArea: OverlapArea)

  /** The quick-rejection test: the boxes are disjoint or only touch on some axis. */
  predicate QuickReject(a: Rect, b: Rect) {
    a.Right() <= b.left || b.Right() <= a.left || a.Bottom() <= b.top || b.Bottom() <= a.top
  }

  /** The intersection of two rectangles: the larger lefts/tops, the smaller rights/bottoms. */
  function Intersection(a: Rect, b: Rect): (r: Rect)
    ensures !QuickReject(a, b) && a.width > 0.0 && b.width > 0.0 ==> r.width > 0.0
    ensures !QuickReject(a, b) && a.height > 0.0 && b.height > 0.0 ==> r.height > 0.0
    ensures a.left <= r.left && b.left <= r.left && a.top <= r.top && b.top <= r.top
    ensures r.Right() <= a.Right() && r.Right() <= b.Right()
    ensures r.Bottom() <= a.Bottom() && r.Bottom() <= b.Bottom()
  {
    var left := Max(a.left, b.left);
    var top := Max(a.top, b.top);
    Rect(left, top, Min(a.Right(), b.Right()) - left, Min(a.Bottom(), b.Bottom()) - top)
  }

  function Area(r: Rect): real { r.width * r.height }

  /**
   * The overlap percentage of two outer boxes, `None` when the smaller area is
   * 0: the source then divides 0 by 0 (see ZeroAreaMeansNoOverlap), a NaN that
   * never reaches the threshold.
   */
  function OverlapPercent(a: Rect, b: Rect): Option<real> {
    var smaller := Min(Area(a), Area(b));
    if smaller == 0.0 then None
    else Some(Area(Intersection(a, b)) / smaller * 100.0)
  }

  /** The finding, if any, for one pair of text elements (the body of the inner loop). */
  function PairFinding(e1: ElementBox, e2: ElementBox): (r: Option<OverlapFinding>)
    ensures QuickReject(e1.outer, e2.outer) ==> r.None?
    ensures r.Some? ==> r.value.percent >= OverlapThreshold
    ensures r.Some? ==> r.value.element1 == e1.Ref() && r.value.element2 == e2.Ref()
  {
    if QuickReject(e1.outer, e2.outer) then None
    else
      var pct := OverlapPercent(e1.outer, e2.outer);
      if pct.Some? && pct.value >= OverlapThreshold then
        var i := Intersection(e1.outer, e2.outer);
        Some(OverlapFinding(pct.value, e1.Ref(), e2.Ref(),
          OverlapArea(i.left, i.top, i.width, i.height, Area(i))))
      else None
  }

  /**
   * When the boxes are not rejected but the smaller area is 0, the overlap
   * area is 0 too, so the source computes 0 / 0: modelling that case as "no
   * percentage" loses nothing.
   */
  lemma ZeroAreaMeansNoOverlap(a: Rect, b: Rect)
    requires !QuickReject(a, b)
    requires Min(Area(a), Area(b)) == 0.0
    ensures Area(Intersection(a, b)) == 0.0
  {
    var i := Intersection(a, b);
    if a.width * a.height == 0.0 && Area(a) <= Area(b) {
      ZeroSideMeansZeroIntersection(a, b);
    } else {
      ZeroSideMeansZeroIntersection(b, a);
      assert Intersection(a, b) == Intersection(b, a);
    }
  }

  /** A box of zero width (height) that is not rejected meets the other in zero width (height). */
  lemma ZeroSideMeansZeroIntersection(z: Rect, o: Rect)
    requires !QuickReject(z, o)
    requires z.width * z.height == 0.0
    ensures Area(Intersection(z, o)) == 0.0
  {
    var i := Intersection(z, o);
    if z.width == 0.0 {
      assert i.width == 0.0;
    } else {
      assert z.height == 0.0;
      assert i.height == 0.0;
    }
  }

  /** The percentage does not depend on the order of the two elements. */
  lemma OverlapPercentSymmetric(a: Rect, b: Rect)
    ensures QuickReject(a, b) == QuickReject(b, a)
    ensures Intersection(a, b) == Intersection(b, a)
    ensures OverlapPercent(a, b) == OverlapPercent(b, a)
  {
  }

  lemma MulMono(x: real, y: real, w: real, h: real)
    requires 0.0 < x <= w && 0.0 < y <= h
    ensures 0.0 < x * y <= w * h
  {
    assert 0.0 < x * y;
    assert x * y <= w * y;
    assert w * y <= w * h;
  }

  lemma DivAtMostOne(x: real, m: real)
    requires 0.0 < x <= m
    ensures 0.0 < x / m * 100.0 <= 100.0
  {
    assert x / m <= 1.0;
  }

  /** Two boxes of positive size that are not rejected meet in a box no larger than either. */
  lemma IntersectionAreaBounds(a: Rect, b: Rect)
    requires a.width > 0.0 && a.height > 0.0 && b.width > 0.0 && b.height > 0.0
    requires !QuickReject(a, b)
    ensures 0.0 < Area(Intersection(a, b)) <= Area(a)
    ensures Area(Intersection(a, b)) <= Area(b)
  {
    var i := Intersection(a, b);
    IntersectionWithin(i, a);
    IntersectionWithin(i, b);
  }

  /** A box of positive size whose sides are no longer than another's has no larger area. */
  lemma IntersectionWithin(i: Rect, a: Rect)
    requires 0.0 < i.width <= a.width && 0.0 < i.height <= a.height
    ensures 0.0 < Area(i) <= Area(a)
  {
    MulMono(i.width, i.height, a.width, a.height);
  }

  /** With positive outer widths and heights the intersection never exceeds the smaller box. */
  lemma OverlapPercentAtMost100(a: Rect, b: Rect)
    requires a.width > 0.0 && a.height > 0.0 && b.width > 0.0 && b.height > 0.0
    requires !QuickReject(a, b)
    ensures OverlapPercent(a, b).Some?
    ensures 0.0 < OverlapPercent(a, b).value <= 100.0
  {
    IntersectionAreaBounds(a, b);
    var area := Area(Intersection(a, b));
    var smaller := Min(Area(a), Area(b));
    assert 0.0 < area <= smaller;
    DivAtMostOne(area, smaller);
  }

  /** The pairs `(i, j)` with `i < row` and every `j > i`, in loop order. */
  function PairsBefore(texts: seq<ElementBox>, row: nat): seq<OverlapFinding>
    requires row <= |texts|
  {
    if row == 0 then [] else PairsBefore(texts, row - 1) + RowFindings(texts, row - 1, |texts|)
  }

  /** The findings of row `i`: pairs `(i, j)` with `i < j < upTo`, in loop order. */
  function RowFindings(texts: seq<ElementBox>, i: nat, upTo: nat): seq<OverlapFinding>
    requires i < upTo <= |texts|
    decreases upTo
  {
    if upTo == i + 1 then []
    else
      var pair := PairFinding(texts[i], texts[upTo - 1]);
      RowFindings(texts, i, upTo - 1) + (if pair.Some? then [pair.value] else [])
  }

  /** All findings of the detector, in the order the nested loop emits them. */
  function OverlapFindings(texts: seq<ElementBox>): seq<OverlapFinding> {
    PairsBefore(texts, |texts|)
  }

  /** The inner `for j > i` loop of STEP 2: the findings of row `i`, in order. */
  method ScanRow(texts: seq<ElementBox>, i: nat) returns (row: seq<OverlapFinding>)
    requires i < |texts|
    ensures row == RowFindings(texts, i, |texts|)
  {
    row := [];
    for j := i + 1 to |texts|
      invariant row == RowFindings(texts, i, j)
    {
      var pair := PairFinding(texts[i], texts[j]);
      if pair.Some? {
        row := row + [pair.value];
      }
    }
  }

  /** STEP 2: the nested `for i / for j > i` loop with quick rejection. */
  method DetectOverlaps(texts: seq<ElementBox>) returns (findings: seq<OverlapFinding>)
    ensures findings == OverlapFindings(texts)
  {
    findings := [];
    for i := 0 to |texts|
      invariant findings == PairsBefore(texts, i)
    {
      var row := ScanRow(texts, i);
      findings := findings + row;
    }
  }

  /** The `m`-th finding of row `i` comes from some pair `(i, j)` with `j < upTo`. */
  lemma {:induction false} RowFindingsSound(texts: seq<ElementBox>, i: nat, upTo: nat, m: nat)
    returns (j: nat)
    requires i < upTo <= |texts|
    requires m < |RowFindings(texts, i, upTo)|
    ensures i < j < upTo && PairFinding(texts[i], texts[j]) == Some(RowFindings(texts, i, upTo)[m])
  {
    if m < |RowFindings(texts, i, upTo - 1)| {
      j := RowFindingsSound(texts, i, upTo - 1, m);
    } else {
      j := upTo - 1;
    }
  }

  /** Every pair `(i, j)` with `j < upTo` that yields a finding contributes it to row `i`. */
  lemma {:induction false} RowFindingsComplete(texts: seq<ElementBox>, i: nat, j: nat, upTo: nat) returns (m: nat)
    requires i < j < upTo <= |texts|
    requires PairFinding(texts[i], texts[j]).Some?
    ensures m < |RowFindings(texts, i, upTo)| && RowFindings(texts, i, upTo)[m] == PairFinding(texts[i], texts[j]).value
  {
    if j < upTo - 1 {
      m := RowFindingsComplete(texts, i, j, upTo - 1);
    } else {
      m := |RowFindings(texts, i, upTo - 1)|;
    }
  }

  /** The `m`-th finding of the first `row` rows comes from some pair `(i, j)` with `i < row`. */
  lemma {:induction false} PairsBeforeSound(texts: seq<ElementBox>, row: nat, m: nat)
    returns (i: nat, j: nat)
    requires row <= |texts|
    requires m < |PairsBefore(texts, row)|
    ensures i < row && i < j < |texts| && PairFinding(texts[i], texts[j]) == Some(PairsBefore(texts, row)[m])
  {
    var before := |PairsBefore(texts, row - 1)|;
    if m < before {
      i, j := PairsBeforeSound(texts, row - 1, m);
    } else {
      i := row - 1;
      j := RowFindingsSound(texts, row - 1, |texts|, m - before);
    }
  }

  /** Every pair `(i, j)` with `i < row` that yields a finding contributes it to the first `row` rows. */
  lemma {:induction false} PairsBeforeComplete(texts: seq<ElementBox>, row: nat, i: nat, j: nat) returns (m: nat)
    requires i < row <= |texts| && i < j < |texts|
    requires PairFinding(texts[i], texts[j]).Some?
    ensures m < |PairsBefore(texts, row)| && PairsBefore(texts, row)[m] == PairFinding(texts[i], texts[j]).value
  {
    if i < row - 1 {
      m := PairsBeforeComplete(texts, row - 1, i, j);
    } else {
      var k := RowFindingsComplete(texts, i, j, |texts|);
      m := |PairsBefore(texts, row - 1)| + k;
    }
  }

  /**
   * A finding is reported exactly when some pair `i < j` of text elements
   * yields it; hence every reported percentage is at least 5, and no pair
   * whose outer boxes are disjoint or touching is ever reported.
   */
  lemma OverlapFindingsMembers(texts: seq<ElementBox>, f: OverlapFinding)
    ensures f in OverlapFindings(texts) <==>
      exists i, j :: 0 <= i < j < |texts| && PairFinding(texts[i], texts[j]) == Some(f)
    ensures f in OverlapFindings(texts) ==> f.percent >= OverlapThreshold
  {
    if f in OverlapFindings(texts) {
      var m :| 0 <= m < |OverlapFindings(texts)| && OverlapFindings(texts)[m] == f;
      var i, j := PairsBeforeSound(texts, |texts|, m);
    }
    if exists i, j :: 0 <= i < j < |texts| && PairFinding(texts[i], texts[j]) == Some(f) {
      var i, j :| 0 <= i < j < |texts| && PairFinding(texts[i], texts[j]) == Some(f);
      var m := PairsBeforeComplete(texts, |texts|, i, j);
    }
  }
}
