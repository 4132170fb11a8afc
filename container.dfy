/**
 * Container resolver and overflow detector (STEP 3). For every relationship
 * taken from the input document, the matching text element of the output
 * slide is looked up, its container is resolved among the output's named
 * `div` elements, and the text's border box is compared with the
 * container's content box.
 */
module Container {
  import opened TextUtil
  import opened BoxModel
  import opened Relationships

  /** Overflow of at most this many px on an edge is tolerated. */
  const Epsilon: real := 1.0

  const OutsideVertically: string := "Text is completely outside parent vertically"
  const OutsideHorizontally: string := "Text is completely outside parent horizontally"

  datatype Direction = Left | Right | Top | Bottom

  /** Position of an edge in a container finding's `directions` list. */
  function ContainerRank(d: Direction): nat {
    match d
    case Left => 0
    case Right => 1
    case Top => 2
    case Bottom => 3
  }

  /** The descriptive fields a container finding copies from the parent. */
  datatype ParentRef = ParentRef(tag: string, cls: string, zIndex: int)

  /** The `overflow` part of a container finding. */
  datatype ContainerOverflow =
    | CompletelyOutside(horizontalOverlap: bool, verticalOverlap: bool, message: string)
    | PartialOverflow(left: real, right: real, top: real, bottom: real, directions: seq<Direction>)

  /**
   * A percentage as the source's floating-point arithmetic yields it: a
   * positive overflow divided by a zero size is Infinity, and 0 / 0 is NaN.
   */
  datatype Percent = Finite(value: real) | Infinite | NotANumber

  datatype ContainerFinding = ContainerFinding(
    percent: Percent,
    text: ElementRef,
    parent: ParentRef,
    overflow: ContainerOverflow)

  /** `part / whole * 100` for a non-negative `part`. */
  function EdgePercent(part: real, whole: real): Percent
    requires part >= 0.0
  {
    if whole != 0.0 then Finite(part / whole * 100.0)
    else if part > 0.0 then Infinite
    else NotANumber
  }

  /** `Math.max` of two percentages: NaN wins over everything, then Infinity. */
  function MaxPercent(a: Percent, b: Percent): Percent {
    if a.NotANumber? || b.NotANumber? then NotANumber
    else if a.Infinite? || b.Infinite? then Infinite
    else Finite(if a.value >= b.value then a.value else b.value)
  }

  /** `Math.max` of four percentages. */
  function MaxOfFour(a: Percent, b: Percent, c: Percent, d: Percent): (m: Percent)
    ensures m.NotANumber? <==> a.NotANumber? || b.NotANumber? || c.NotANumber? || d.NotANumber?
    ensures m.Finite? <==> a.Finite? && b.Finite? && c.Finite? && d.Finite?
    ensures m.Finite? ==> m.value >= a.value && m.value >= b.value && m.value >= c.value && m.value >= d.value
    ensures m.Finite? ==> m.value == a.value || m.value == b.value || m.value == c.value || m.value == d.value
  {
    MaxPercent(MaxPercent(MaxPercent(a, b), c), d)
  }

  // ---------------------------------------------------------------------------
  // Looking up the text element
  // ---------------------------------------------------------------------------

  /** The `find` predicate: same tag, class and 80-character text, and some text. */
  predicate MatchesText(e: ElementBox, rel: Relationship) {
    e.tag == rel.textTag && e.cls == rel.textClass && e.text == rel.textContent && e.hasText
  }

  /** `elements.find(...)`: the index of the first matching element. */
  function FindText(elements: seq<ElementBox>, rel: Relationship): (r: Option<nat>)
    ensures r.Some? ==> r.value < |elements| && MatchesText(elements[r.value], rel)
    ensures r.Some? ==> forall k :: 0 <= k < r.value ==> !MatchesText(elements[k], rel)
    ensures r.None? <==> forall k :: 0 <= k < |elements| ==> !MatchesText(elements[k], rel)
  {
    if elements == [] then None
    else if MatchesText(elements[0], rel) then Some(0)
    else
      match FindText(elements[1..], rel)
      case None => None
      case Some(k) => Some(k + 1)
  }

  // ---------------------------------------------------------------------------
  // Resolving the container
  // ---------------------------------------------------------------------------

  /** A parent candidate for a text of z-index `z`: a `div` of class `cls` strictly below it. */
  predicate IsCandidate(e: ElementBox, cls: string, z: int) {
    e.tag == "div" && e.cls == cls && e.zIndex < z
  }

  predicate HasCandidate(elements: seq<ElementBox>, cls: string, z: int) {
    exists i :: 0 <= i < |elements| && IsCandidate(elements[i], cls, z)
  }

  /**
   * The `reduce` over the candidates among the first `n` elements: the
   * candidate closest below `z`, the earliest one on ties because only a
   * strictly smaller distance replaces the current choice.
   */
  function ClosestCandidate(elements: seq<ElementBox>, n: nat, cls: string, z: int): (r: Option<nat>)
    requires n <= |elements|
    ensures r.None? <==> forall k :: 0 <= k < n ==> !IsCandidate(elements[k], cls, z)
    ensures r.Some? ==> r.value < n && IsCandidate(elements[r.value], cls, z)
    ensures r.Some? ==> forall k :: 0 <= k < n && IsCandidate(elements[k], cls, z) ==>
      z - elements[r.value].zIndex <= z - elements[k].zIndex
    ensures r.Some? ==> forall k :: 0 <= k < r.value && IsCandidate(elements[k], cls, z) ==>
      z - elements[r.value].zIndex < z - elements[k].zIndex
  {
    if n == 0 then None
    else
      var best := ClosestCandidate(elements, n - 1, cls, z);
      var p := elements[n - 1];
      if !IsCandidate(p, cls, z) then best
      else if best.None? then Some(n - 1)
      else if z - p.zIndex < z - elements[best.value].zIndex then Some(n - 1)
      else best
  }

  /** The index in `classes` of the first class, nearest first, that has a candidate. */
  function FirstResolvable(elements: seq<ElementBox>, z: int, classes: seq<string>): (r: Option<nat>)
    ensures r.Some? ==> r.value < |classes| && HasCandidate(elements, classes[r.value], z)
    ensures r.Some? ==> forall j :: 0 <= j < r.value ==> !HasCandidate(elements, classes[j], z)
    ensures r.None? <==> forall j :: 0 <= j < |classes| ==> !HasCandidate(elements, classes[j], z)
  {
    if classes == [] then None
    else if HasCandidate(elements, classes[0], z) then Some(0)
    else
      match FirstResolvable(elements, z, classes[1..])
      case None => None
      case Some(k) => Some(k + 1)
  }

  /** The container of a text of z-index `z` whose `div` ancestors have classes `classes`. */
  function ResolveParent(elements: seq<ElementBox>, z: int, classes: seq<string>): Option<nat> {
    match FirstResolvable(elements, z, classes)
    case None => None
    case Some(k) => ClosestCandidate(elements, |elements|, classes[k], z)
  }

  /**
   * The chosen container is a `div` below the text whose class is the first
   * ancestor class having any candidate; among that class's candidates it is
   * closest in z-index, and the earliest such one. No container is chosen
   * exactly when no ancestor class has a candidate.
   */
  lemma ResolveParentSpec(elements: seq<ElementBox>, z: int, classes: seq<string>)
    ensures var r := ResolveParent(elements, z, classes);
      r.None? <==> forall j :: 0 <= j < |classes| ==> !HasCandidate(elements, classes[j], z)
    ensures var r := ResolveParent(elements, z, classes);
      r.Some? ==> exists k :: (0 <= k < |classes|
        && (forall j :: 0 <= j < k ==> !HasCandidate(elements, classes[j], z))
        && IsCandidate(elements[r.value], classes[k], z)
        && (forall i :: 0 <= i < |elements| && IsCandidate(elements[i], classes[k], z) ==>
              z - elements[r.value].zIndex <= z - elements[i].zIndex)
        && (forall i :: 0 <= i < r.value && IsCandidate(elements[i], classes[k], z) ==>
              z - elements[r.value].zIndex < z - elements[i].zIndex))
  {
    var first := FirstResolvable(elements, z, classes);
    if first.Some? {
      var k := first.value;
      var r := ClosestCandidate(elements, |elements|, classes[k], z);
      assert r.Some?;
      assert 0 <= k < |classes| && IsCandidate(elements[r.value], classes[k], z);
    }
  }

  /** The `for (ancestorClass of divAncestors)` loop with its `break`. */
  method ResolveContainer(elements: seq<ElementBox>, z: int, classes: seq<string>) returns (parent: Option<nat>)
    ensures parent == ResolveParent(elements, z, classes)
  {
    parent := None;
    var i := 0;
    while i < |classes|
      invariant 0 <= i <= |classes|
      invariant forall j :: 0 <= j < i ==> !HasCandidate(elements, classes[j], z)
    {
      var candidate := ClosestCandidate(elements, |elements|, classes[i], z);
      if candidate.Some? {
        assert HasCandidate(elements, classes[i], z) by {
          assert IsCandidate(elements[candidate.value], classes[i], z);
        }
        parent := candidate;
        return;
      }
      i := i + 1;
    }
  }

  // ---------------------------------------------------------------------------
  // Comparing the text with its container
  // ---------------------------------------------------------------------------

  /** The text's border box and the container's content box overlap horizontally. */
  predicate HorizontalOverlap(text: Rect, area: Rect) {
    !(text.Right() <= area.left || text.left >= area.Right())
  }

  predicate VerticalOverlap(text: Rect, area: Rect) {
    !(text.Bottom() <= area.top || text.top >= area.Bottom())
  }

  /** How far the text sticks out past each edge of the content area, 0 when it does not. */
  function OverflowLeft(text: Rect, area: Rect): real {
    if text.left < area.left then area.left - text.left else 0.0
  }
  function OverflowRight(text: Rect, area: Rect): real {
    if text.Right() > area.Right() then text.Right() - area.Right() else 0.0
  }
  function OverflowTop(text: Rect, area: Rect): real {
    if text.top < area.top then area.top - text.top else 0.0
  }
  function OverflowBottom(text: Rect, area: Rect): real {
    if text.Bottom() > area.Bottom() then text.Bottom() - area.Bottom() else 0.0
  }

  /** The edges whose overflow exceeds the tolerance, in the order left, right, top, bottom. */
  function ContainerDirections(left: real, right: real, top: real, bottom: real): (ds: seq<Direction>)
    ensures Left in ds <==> left > Epsilon
    ensures Right in ds <==> right > Epsilon
    ensures Top in ds <==> top > Epsilon
    ensures Bottom in ds <==> bottom > Epsilon
    ensures forall i, j :: 0 <= i < j < |ds| ==> ContainerRank(ds[i]) < ContainerRank(ds[j])
  {
    (if left > Epsilon then [Left] else [])
    + (if right > Epsilon then [Right] else [])
    + (if top > Epsilon then [Top] else [])
    + (if bottom > Epsilon then [Bottom] else [])
  }

  function ParentRefOf(e: ElementBox): ParentRef {
    ParentRef(e.tag, e.cls, e.zIndex)
  }

  /** The container finding, if any, for one text element and its resolved container. */
  function CheckContainer(text: ElementBox, parent: ElementBox): (r: Option<ContainerFinding>)
    ensures r.Some? ==> r.value.text == text.Ref() && r.value.parent == ParentRefOf(parent)
  {
    var h, v := HorizontalOverlap(text.box, parent.content), VerticalOverlap(text.box, parent.content);
    if !h || !v then
      Some(ContainerFinding(Finite(100.0), text.Ref(), ParentRefOf(parent),
        CompletelyOutside(h, v, if h then OutsideVertically else OutsideHorizontally)))
    else PartialOverflowCheck(text, parent)
  }

  /** The per-edge comparison, for a text box that meets the content area on both axes. */
  function PartialOverflowCheck(text: ElementBox, parent: ElementBox): (r: Option<ContainerFinding>)
    ensures r.Some? ==> r.value.text == text.Ref() && r.value.parent == ParentRefOf(parent)
  {
    var t, a := text.box, parent.content;
    var left, right := OverflowLeft(t, a), OverflowRight(t, a);
    var top, bottom := OverflowTop(t, a), OverflowBottom(t, a);
    if left > Epsilon || right > Epsilon || top > Epsilon || bottom > Epsilon then
      var percent := MaxOfFour(EdgePercent(left, a.width), EdgePercent(right, a.width),
                               EdgePercent(top, a.height), EdgePercent(bottom, a.height));
      Some(ContainerFinding(percent, text.Ref(), ParentRefOf(parent),
        PartialOverflow(left, right, top, bottom, ContainerDirections(left, right, top, bottom))))
    else None
  }

  /**
   * A text box disjoint from the content area on either axis yields exactly
   * one 100% "completely outside" finding; the message names the vertical
   * axis only when the boxes do overlap horizontally.
   */
  lemma CompletelyOutsideFinding(text: ElementBox, parent: ElementBox)
    requires !HorizontalOverlap(text.box, parent.content) || !VerticalOverlap(text.box, parent.content)
    ensures var r := CheckContainer(text, parent);
      && r.Some? && r.value.percent == Finite(100.0) && r.value.overflow.CompletelyOutside?
      && (r.value.overflow.message == OutsideVertically <==> HorizontalOverlap(text.box, parent.content))
      && (r.value.overflow.message == OutsideHorizontally <==> !HorizontalOverlap(text.box, parent.content))
  {
  }

  /**
   * When the boxes overlap on both axes, a finding is reported exactly when
   * the text passes some edge of the content area by more than 1 px; for a
   * content area of non-zero size its percentage is the largest of the four
   * edge overflows, each relative to the content width (left, right) or
   * height (top, bottom).
   */
  lemma PartialOverflowFinding(text: ElementBox, parent: ElementBox)
    requires HorizontalOverlap(text.box, parent.content) && VerticalOverlap(text.box, parent.content)
    ensures var t, a := text.box, parent.content;
      CheckContainer(text, parent).Some? <==>
        (t.left < a.left - Epsilon || t.Right() > a.Right() + Epsilon
         || t.top < a.top - Epsilon || t.Bottom() > a.Bottom() + Epsilon)
    ensures var r, t, a := CheckContainer(text, parent), text.box, parent.content;
      r.Some? && a.width != 0.0 && a.height != 0.0 ==>
        && r.value.overflow.PartialOverflow?
        && r.value.percent.Finite?
        && r.value.percent.value >= OverflowLeft(t, a) / a.width * 100.0
        && r.value.percent.value >= OverflowRight(t, a) / a.width * 100.0
        && r.value.percent.value >= OverflowTop(t, a) / a.height * 100.0
        && r.value.percent.value >= OverflowBottom(t, a) / a.height * 100.0
        && (r.value.percent.value == OverflowLeft(t, a) / a.width * 100.0
            || r.value.percent.value == OverflowRight(t, a) / a.width * 100.0
            || r.value.percent.value == OverflowTop(t, a) / a.height * 100.0
            || r.value.percent.value == OverflowBottom(t, a) / a.height * 100.0)
  {
  }

  /**
   * A content area of zero width or height makes a partial finding's
   * percentage Infinity or NaN, never a number.
   */
  lemma DegenerateContainerPercent(text: ElementBox, parent: ElementBox)
    requires HorizontalOverlap(text.box, parent.content) && VerticalOverlap(text.box, parent.content)
    requires parent.content.width == 0.0 || parent.content.height == 0.0
    ensures var r := CheckContainer(text, parent);
      r.Some? ==> !r.value.percent.Finite?
  {
  }

  /** A text box of positive size inside the content area is never reported. */
  lemma InsideMeansNoFinding(text: ElementBox, parent: ElementBox)
    requires text.box.width > 0.0 && text.box.height > 0.0
    requires parent.content.left <= text.box.left && text.box.Right() <= parent.content.Right()
    requires parent.content.top <= text.box.top && text.box.Bottom() <= parent.content.Bottom()
    ensures CheckContainer(text, parent).None?
  {
  }

  /** A partial finding's directions are exactly the edges passed by more than 1 px. */
  lemma DirectionsMatchOverflow(text: ElementBox, parent: ElementBox)
    ensures var r := CheckContainer(text, parent);
      r.Some? && r.value.overflow.PartialOverflow? ==>
        var o := r.value.overflow;
        && o.directions != []
        && (Left in o.directions <==> text.box.left + Epsilon < parent.content.left)
        && (Right in o.directions <==> text.box.Right() > parent.content.Right() + Epsilon)
        && (Top in o.directions <==> text.box.top + Epsilon < parent.content.top)
        && (Bottom in o.directions <==> text.box.Bottom() > parent.content.Bottom() + Epsilon)
  {
  }

  // ---------------------------------------------------------------------------
  // The detector
  // ---------------------------------------------------------------------------

  /** The finding, if any, for one relationship. */
  function RelationFinding(elements: seq<ElementBox>, rel: Relationship): Option<ContainerFinding>
  {
    match FindText(elements, rel)
    case None => None
    case Some(t) =>
      match ResolveParent(elements, elements[t].zIndex, rel.divAncestors)
      case None => None
      case Some(p) => CheckContainer(elements[t], elements[p])
  }

  /** The container findings for all relationships, in relationship order. */
  function ContainerFindings(elements: seq<ElementBox>, relations: seq<Relationship>): seq<ContainerFinding>
  {
    if relations == [] then []
    else
      var n := |relations| - 1;
      var f := RelationFinding(elements, relations[n]);
      ContainerFindings(elements, relations[..n]) + (if f.Some? then [f.value] else [])
  }

  /** The body of the STEP 3 loop for one relationship. */
  method CheckRelation(elements: seq<ElementBox>, rel: Relationship) returns (found: Option<ContainerFinding>)
    ensures found == RelationFinding(elements, rel)
  {
    found := None;
    var textIndex := FindText(elements, rel);
    if textIndex.Some? {
      var textEl := elements[textIndex.value];
      var parentIndex := ResolveContainer(elements, textEl.zIndex, rel.divAncestors);
      if parentIndex.Some? {
        found := CheckContainer(textEl, elements[parentIndex.value]);
      }
    }
  }

  /** STEP 3: one pass over the relationships; each yields at most one finding. */
  method DetectContainerOverflow(elements: seq<ElementBox>, relations: seq<Relationship>)
    returns (findings: seq<ContainerFinding>)
    ensures findings == ContainerFindings(elements, relations)
  {
    findings := [];
    for i := 0 to |relations|
      invariant findings == ContainerFindings(elements, relations[..i])
    {
      assert relations[..i + 1][..i] == relations[..i];
      var finding := CheckRelation(elements, relations[i]);
      if finding.Some? {
        findings := findings + [finding.value];
      }
    }
    assert relations[..|relations|] == relations;
  }

  /**
   * A relationship's finding names the text element that matches the
   * relationship and a `div` container strictly below it in z-index.
   */
  lemma RelationFindingSpec(elements: seq<ElementBox>, rel: Relationship)
    ensures var f := RelationFinding(elements, rel);
      f.Some? ==>
        && f.value.text.tag == rel.textTag && f.value.text.cls == rel.textClass
        && f.value.text.content == rel.textContent
        && f.value.parent.tag == "div" && f.value.parent.zIndex < f.value.text.zIndex
  {
    var t := FindText(elements, rel);
    if t.Some? {
      ResolveParentSpec(elements, elements[t.value].zIndex, rel.divAncestors);
    }
  }

  /** At most one finding per relationship. */
  lemma {:induction false} ContainerFindingsLength(elements: seq<ElementBox>, relations: seq<Relationship>)
    ensures |ContainerFindings(elements, relations)| <= |relations|
  {
    if relations != [] {
      ContainerFindingsLength(elements, relations[..|relations| - 1]);
    }
  }

  /**
   * Every finding is the finding of some relationship: it names that
   * relationship's text and a `div` container strictly below the text.
   */
  lemma {:induction false} ContainerFindingsSound(elements: seq<ElementBox>, relations: seq<Relationship>, f: ContainerFinding)
    returns (k: nat)
    requires f in ContainerFindings(elements, relations)
    ensures k < |relations| && RelationFinding(elements, relations[k]) == Some(f)
    ensures f.text.tag == relations[k].textTag && f.text.cls == relations[k].textClass
      && f.text.content == relations[k].textContent
    ensures f.parent.tag == "div" && f.parent.zIndex < f.text.zIndex
  {
    var n := |relations| - 1;
    if f in ContainerFindings(elements, relations[..n]) {
      k := ContainerFindingsSound(elements, relations[..n], f);
      assert relations[..n][k] == relations[k];
    } else {
      k := n;
    }
    RelationFindingSpec(elements, relations[k]);
  }

  /** Every relationship that yields a finding contributes it to STEP 3's list. */
  lemma {:induction false} ContainerFindingsComplete(elements: seq<ElementBox>, relations: seq<Relationship>, k: nat) returns (m: nat)
    requires k < |relations| && RelationFinding(elements, relations[k]).Some?
    ensures m < |ContainerFindings(elements, relations)|
    ensures ContainerFindings(elements, relations)[m] == RelationFinding(elements, relations[k]).value
  {
    var n := |relations| - 1;
    if k < n {
      m := ContainerFindingsComplete(elements, relations[..n], k);
      assert relations[..n][k] == relations[k];
    } else {
      m := |ContainerFindings(elements, relations[..n])|;
    }
  }

  /** A relationship whose text cannot be found, or that has no container, yields nothing. */
  lemma NoMatchNoFinding(elements: seq<ElementBox>, rel: Relationship)
    requires (forall k :: 0 <= k < |elements| ==> !MatchesText(elements[k], rel))
      || (forall t :: 0 <= t < |elements| && MatchesText(elements[t], rel) ==>
            forall j :: 0 <= j < |rel.divAncestors| ==> !HasCandidate(elements, rel.divAncestors[j], elements[t].zIndex))
    ensures RelationFinding(elements, rel).None?
  {
    var t := FindText(elements, rel);
    if t.Some? {
      ResolveParentSpec(elements, elements[t.value].zIndex, rel.divAncestors);
    }
  }
}
