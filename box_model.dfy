/**
 * Box-model builder: turns the per-element values a rendering engine reports
 * for each child of the slide's content root into three rectangles (the
 * authored border box, the content box inside border and padding, and the
 * outer box grown by margin and shifted up by the extra-leading correction).
 *
 * The rendering engine itself is not modelled: computed-style values and the
 * rendered rectangle arrive as plain numbers in a `RawElement`, and CSS
 * strings have already been parsed (`None` is a value `parseFloat` could
 * not read).
 */
module BoxModel {
  import opened TextUtil

  /** Four per-side lengths in px: margin, padding or border width. */
  datatype Sides = Sides(top: real, right: real, bottom: real, left: real) {
    predicate NonNegative() {
      top >= 0.0 && right >= 0.0 && bottom >= 0.0 && left >= 0.0
    }
  }

  /** The computed `line-height` value, already classified. */
  datatype LineHeight =
    | Normal                // the keyword `normal`
    | Px(px: real)          // a value ending in `px`
    | Unitless(factor: real) // any other value starting with a number
    | Other                 // anything `parseFloat` cannot read

  /** What the rendering engine reports for one child of the content root. */
  datatype RawElement = RawElement(
    tag: string,             // lower-cased tag name
    className: string,
    textContent: string,     // untrimmed text content
    display: string,
    visibility: string,
    rectWidth: real,         // rendered bounding rectangle
    rectHeight: real,
    margin: Sides,
    padding: Sides,
    border: Sides,
    fontSize: Option<real>,
    lineHeight: LineHeight,
    inlineLeft: Option<real>,  // authored inline style
    inlineTop: Option<real>,
    inlineWidth: Option<real>,
    inlineHeight: Option<real>,
    zIndex: int,
    position: string)

  datatype Rect = Rect(left: real, top: real, width: real, height: real) {
    function Right(): real { left + width }
    function Bottom(): real { top + height }
  }

  /** `Math.max` and `Math.min` of two numbers. */
  function Max(a: real, b: real): real { if a >= b then a else b }
  function Min(a: real, b: real): real { if a <= b then a else b }

  /** The descriptive fields a finding copies from an element. */
  datatype ElementRef = ElementRef(tag: string, cls: string, content: string, zIndex: int)

  /** One analysed element of the output slide. */
  datatype ElementBox = ElementBox(
    tag: string,
    cls: string,
    text: string,       // trimmed text, cut to 80 characters
    hasText: bool,
    box: Rect,          // border box from the authored inline geometry
    content: Rect,      // border box minus border and padding
    outer: Rect,        // border box plus margin, shifted by the leading correction
    zIndex: int,
    position: string,
    margin: Sides,
    padding: Sides,
    border: Sides)
  {
    function Ref(): ElementRef { ElementRef(tag, cls, text, zIndex) }
  }

  const DefaultFontSize: real := 16.0
  const NormalLineHeightFactor: real := 1.2

  /** `parseFloat(v) || fallback`: a missing, unparsable or zero value gives the fallback. */
  function OrElse(v: Option<real>, fallback: real): real {
    if v.Some? && v.value != 0.0 then v.value else fallback
  }

  /** Hidden elements and elements with an empty rendered rectangle are never analysed. */
  predicate IsSkipped(e: RawElement) {
    e.display == "none" || e.visibility == "hidden" || e.rectWidth == 0.0 || e.rectHeight == 0.0
  }

  function FontSize(e: RawElement): (r: real)
    ensures r != 0.0
    ensures e.fontSize.None? ==> r == DefaultFontSize
    ensures e.fontSize.Some? && e.fontSize.value != 0.0 ==> r == e.fontSize.value
    ensures e.fontSize == Some(0.0) ==> r == DefaultFontSize
  {
    OrElse(e.fontSize, DefaultFontSize)
  }

  /** The line height in px: `normal` is 1.2 em, px is taken as is, a number scales the font size. */
  function ResolveLineHeight(lh: LineHeight, fontSize: real, renderedHeight: real): real {
    match lh
    case Normal => fontSize * NormalLineHeightFactor
    case Px(px) => px
    case Unitless(factor) => factor * fontSize
    case Other => renderedHeight
  }

  function LineHeightOf(e: RawElement): real {
    ResolveLineHeight(e.lineHeight, FontSize(e), e.rectHeight)
  }

  /**
   * The top half of the extra leading: half of the amount by which the line
   * height exceeds the rendered height, or 0 when it does not.
   */
  function LineHeightTop(e: RawElement): (r: real)
    ensures r >= 0.0
    ensures r == 0.0 <==> LineHeightOf(e) <= e.rectHeight
    ensures r > 0.0 ==> e.rectHeight + 2.0 * r == LineHeightOf(e)
  {
    var extra := if LineHeightOf(e) - e.rectHeight > 0.0 then LineHeightOf(e) - e.rectHeight else 0.0;
    extra / 2.0
  }

  /** Builds the three boxes of one element. */
  function BuildBox(e: RawElement): (r: ElementBox)
    // identity: trimmed text, cut to 80 characters
    ensures r.hasText <==> Trim(e.textContent) != []
    ensures r.text == Snippet(Trim(e.textContent)) && |r.text| <= SnippetLength
    ensures r.tag == e.tag && r.cls == e.className && r.zIndex == e.zIndex
  {
    var text := Trim(e.textContent);
    var left := OrElse(e.inlineLeft, 0.0);
    var top := OrElse(e.inlineTop, 0.0);
    var width := OrElse(e.inlineWidth, e.rectWidth);
    var height := OrElse(e.inlineHeight, e.rectHeight);
    var p, b, m := e.padding, e.border, e.margin;
    var contentWidth := width - p.left - p.right - b.left - b.right;
    var contentHeight := height - p.top - p.bottom - b.top - b.bottom;
    ElementBox(
      e.tag, e.className, Snippet(text), |text| > 0,
      Rect(left, top, width, height),
      Rect(left + b.left + p.left, top + b.top + p.top, contentWidth, contentHeight),
      Rect(left - m.left, top - m.top - LineHeightTop(e), width + m.left + m.right, height + m.top + m.bottom),
      e.zIndex, e.position, m, p, b)
  }

  /**
   * Box arithmetic: the content box is the border box minus border and
   * padding on every side; the outer box is the border box plus margin,
   * moved up by the leading correction at the top AND at the bottom (it is
   * shifted, not grown).
   */
  lemma BoxArithmetic(e: RawElement)
    ensures var r := BuildBox(e);
      && r.content.left == r.box.left + e.border.left + e.padding.left
      && r.content.Right() == r.box.Right() - e.padding.right - e.border.right
      && r.content.top == r.box.top + e.border.top + e.padding.top
      && r.content.Bottom() == r.box.Bottom() - e.padding.bottom - e.border.bottom
    ensures var r := BuildBox(e);
      && r.outer.left == r.box.left - e.margin.left
      && r.outer.Right() == r.box.Right() + e.margin.right
      && r.outer.top == r.box.top - e.margin.top - LineHeightTop(e)
      && r.outer.Bottom() == r.box.Bottom() + e.margin.bottom - LineHeightTop(e)
  {
  }

  /**
   * With non-negative padding and border the content box lies inside the
   * border box; with non-negative margins the outer box reaches at least as
   * far left, right and up as the border box. Its bottom edge is moved up by
   * the leading correction, so no vertical containment holds below.
   */
  lemma BoxContainment(e: RawElement)
    ensures var r := BuildBox(e);
      e.padding.NonNegative() && e.border.NonNegative() ==>
        && r.box.left <= r.content.left && r.content.Right() <= r.box.Right()
        && r.box.top <= r.content.top && r.content.Bottom() <= r.box.Bottom()
    ensures var r := BuildBox(e);
      e.margin.NonNegative() ==>
        r.outer.left <= r.box.left && r.box.Right() <= r.outer.Right() && r.outer.top <= r.box.top
  {
  }

  /** The authored inline geometry wins; a missing or zero value falls back to 0 or the rendered size. */
  lemma InlineGeometryDefaults(e: RawElement)
    ensures BuildBox(e).box.left == (if e.inlineLeft.Some? then e.inlineLeft.value else 0.0)
    ensures BuildBox(e).box.top == (if e.inlineTop.Some? then e.inlineTop.value else 0.0)
    ensures e.inlineWidth.None? || e.inlineWidth.value == 0.0 ==> BuildBox(e).box.width == e.rectWidth
    ensures e.inlineWidth.Some? && e.inlineWidth.value != 0.0 ==> BuildBox(e).box.width == e.inlineWidth.value
    ensures e.inlineHeight.None? || e.inlineHeight.value == 0.0 ==> BuildBox(e).box.height == e.rectHeight
    ensures e.inlineHeight.Some? && e.inlineHeight.value != 0.0 ==> BuildBox(e).box.height == e.inlineHeight.value
  {
  }

  /**
   * Line-height resolution: `normal` is 1.2 times the font size (16 * 1.2
   * when the font size cannot be read), and a value that cannot be read falls back to the rendered height, which
   * leaves no leading to correct.
   */
  lemma LineHeightResolution(e: RawElement)
    ensures e.lineHeight == Normal ==> LineHeightOf(e) == FontSize(e) * 1.2
    ensures e.lineHeight == Normal && e.fontSize.None? ==> LineHeightOf(e) == 19.2
    ensures e.lineHeight.Px? ==> LineHeightOf(e) == e.lineHeight.px
    ensures e.lineHeight.Unitless? ==> LineHeightOf(e) == e.lineHeight.factor * FontSize(e)
    ensures e.lineHeight == Other ==> LineHeightTop(e) == 0.0
  {
  }

  /** The elements of the slide that are analysed, in document order (STEP 1). */
  function BuildElements(raws: seq<RawElement>): seq<ElementBox>
  {
    if raws == [] then []
    else
      var n := |raws| - 1;
      BuildElements(raws[..n]) + (if IsSkipped(raws[n]) then [] else [BuildBox(raws[n])])
  }

  /** At most one box per element. */
  lemma {:induction false} BuildElementsLength(raws: seq<RawElement>)
    ensures |BuildElements(raws)| <= |raws|
  {
    if raws != [] {
      BuildElementsLength(raws[..|raws| - 1]);
    }
  }

  /** Every built box is the box of a visible, non-empty element. */
  lemma {:induction false} BuildElementsSound(raws: seq<RawElement>, e: ElementBox) returns (i: nat)
    requires e in BuildElements(raws)
    ensures i < |raws| && !IsSkipped(raws[i]) && e == BuildBox(raws[i])
  {
    var n := |raws| - 1;
    if e in BuildElements(raws[..n]) {
      i := BuildElementsSound(raws[..n], e);
      assert raws[..n][i] == raws[i];
    } else {
      i := n;
    }
  }

  /** The box of every visible, non-empty element is built. */
  lemma {:induction false} BuildElementsComplete(raws: seq<RawElement>, i: nat)
    requires i < |raws| && !IsSkipped(raws[i])
    ensures BuildBox(raws[i]) in BuildElements(raws)
  {
    var n := |raws| - 1;
    if i < n {
      BuildElementsComplete(raws[..n], i);
      assert raws[..n][i] == raws[i];
    }
  }

  /** STEP 1 as a loop that pushes one box per visible, non-empty element. */
  method ParseElements(raws: seq<RawElement>) returns (elements: seq<ElementBox>)
    ensures elements == BuildElements(raws)
  {
    elements := [];
    for i := 0 to |raws|
      invariant elements == BuildElements(raws[..i])
    {
      assert raws[..i + 1][..i] == raws[..i];
      var raw := raws[i];
      if !IsSkipped(raw) {
        elements := elements + [BuildBox(raw)];
      }
    }
    assert raws[..|raws|] == raws;
  }

  predicate IsTextElement(e: ElementBox) {
    IsTextTag(e.tag) && e.hasText
  }

  /** The text elements: text-tagged boxes with non-empty text, in order. */
  function TextElements(elements: seq<ElementBox>): (r: seq<ElementBox>)
    ensures |r| <= |elements|
    ensures forall e :: e in r <==> e in elements && IsTextElement(e)
  {
    if elements == [] then []
    else (if IsTextElement(elements[0]) then [elements[0]] else []) + TextElements(elements[1..])
  }
}
