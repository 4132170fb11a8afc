/**
 * One slide pair: the relationships of the input document, the four
 * detection steps over the output slide, and the score.
 */
module Analysis {
  import opened BoxModel
  import opened Relationships
  import opened Overlap
  import opened Container
  import opened Viewport
  import opened Scorer

  /** A finding list with its `count`, as each detection step publishes it. */
  datatype Category<F> = Category(errors: seq<F>, count: nat)

  datatype DetectionResult = DetectionResult(
    overlap: Category<OverlapFinding>,
    containerOverflow: Category<ContainerFinding>,
    viewportOverflow: Category<ViewportFinding>,
    elementCount: nat,
    textElementCount: nat)

  /** What the analysis of one slide pair reports. */
  datatype SlideResult = SlideResult(
    name: string,
    score: real,
    totalErrors: nat,
    overlapErrors: nat,
    containerOverflowErrors: nat,
    viewportOverflowErrors: nat,
    details: DetectionResult)

  /**
   * The output-slide pipeline: parse the elements, select the text elements,
   * then run the overlap, container and viewport steps, publishing each
   * step's `count` right after it.
   */
  method AnalyzeOutput(raws: seq<RawElement>, relations: seq<Relationship>) returns (res: DetectionResult)
    ensures var elements := BuildElements(raws); var texts := TextElements(elements);
      && res.overlap.errors == OverlapFindings(texts)
      && res.containerOverflow.errors == ContainerFindings(elements, relations)
      && res.viewportOverflow.errors == ViewportFindings(texts)
    ensures res.overlap.count == |res.overlap.errors|
    ensures res.containerOverflow.count == |res.containerOverflow.errors|
    ensures res.viewportOverflow.count == |res.viewportOverflow.errors|
    ensures res.elementCount == |BuildElements(raws)| <= |raws|
    ensures res.textElementCount == |TextElements(BuildElements(raws))| <= res.elementCount
  {
    var elements := ParseElements(raws);
    BuildElementsLength(raws);
    var texts := TextElements(elements);
    var overlap := DetectOverlaps(texts);
    var overlapCategory := Category(overlap, |overlap|);
    var container := DetectContainerOverflow(elements, relations);
    var containerCategory := Category(container, |container|);
    var viewport := DetectViewportOverflow(texts);
    var viewportCategory := Category(viewport, |viewport|);
    res := DetectionResult(overlapCategory, containerCategory, viewportCategory, |elements|, |texts|);
  }

  /** The result of analysing one slide pair, as a function of the two documents. */
  function SlideResultOf(name: string, input: seq<InputElement>, output: seq<RawElement>): SlideResult
  {
    var elements := BuildElements(output);
    var texts := TextElements(elements);
    var o, c, v := OverlapFindings(texts), ContainerFindings(elements, RelationshipMap(input)), ViewportFindings(texts);
    var details := DetectionResult(Category(o, |o|), Category(c, |c|), Category(v, |v|), |elements|, |texts|);
    SlideResult(name, Score(o, c, v), |o| + |c| + |v|, |o|, |c|, |v|, details)
  }

  /** `analyzeSlidePair`: relationships, detection and score for one pair of documents. */
  method AnalyzeSlidePair(name: string, input: seq<InputElement>, output: seq<RawElement>) returns (result: SlideResult)
    ensures result == SlideResultOf(name, input, output)
  {
    var relations := ParseInputRelationships(input);
    var details := AnalyzeOutput(output, relations);
    var score := CalculateScore(details.overlap.errors, details.containerOverflow.errors, details.viewportOverflow.errors);
    var o, c, v := |details.overlap.errors|, |details.containerOverflow.errors|, |details.viewportOverflow.errors|;
    result := SlideResult(name, score, o + c + v, o, c, v, details);
  }

  /**
   * A slide's result carries the findings of the three detectors with their
   * counts, its score lies in `[0, 10]` and is the score of those findings,
   * `total_errors` is the sum of the three counts, and the score is 10
   * exactly when there is no finding.
   */
  lemma SlideResultSpec(name: string, input: seq<InputElement>, output: seq<RawElement>)
    ensures var result, d := SlideResultOf(name, input, output), SlideResultOf(name, input, output).details;
      && d.overlap.errors == OverlapFindings(TextElements(BuildElements(output)))
      && d.containerOverflow.errors == ContainerFindings(BuildElements(output), RelationshipMap(input))
      && d.viewportOverflow.errors == ViewportFindings(TextElements(BuildElements(output)))
      && d.overlap.count == |d.overlap.errors|
      && d.containerOverflow.count == |d.containerOverflow.errors|
      && d.viewportOverflow.count == |d.viewportOverflow.errors|
      && result.name == name
      && result.score == Score(d.overlap.errors, d.containerOverflow.errors, d.viewportOverflow.errors)
      && result.totalErrors == |d.overlap.errors| + |d.containerOverflow.errors| + |d.viewportOverflow.errors|
      && 0.0 <= result.score <= MaxScore
      && (result.score == MaxScore <==> result.totalErrors == 0)
  {
    var elements := BuildElements(output);
    var texts := TextElements(elements);
    ScoreBounds(OverlapFindings(texts), ContainerFindings(elements, RelationshipMap(input)), ViewportFindings(texts));
  }
}
