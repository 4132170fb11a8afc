/**
 * Batch step: every slide pair is analysed in turn; successful analyses are
 * sorted into five quality bands and their findings are gathered into one
 * list, failures are recorded with score 0 and `total_errors` -1, and the
 * average is taken over the positive scores only.
 */
module Batch {
  import opened BoxModel
  import opened Relationships
  import opened Overlap
  import opened Container
  import opened Viewport
  import opened Scorer
  import opened Analysis

  /** One slide pair: either both documents could be loaded, or loading failed with a message. */
  datatype SlideSource =
    | Loaded(name: string, input: seq<InputElement>, output: seq<RawElement>)
    | Unloadable(name: string, message: string)

  datatype SlideRecord =
    | Analysed(result: SlideResult)
    | Failed(name: string, score: real, totalErrors: int, error: string)
  {
    function Score(): real {
      match this
      case Analysed(r) => r.score
      case Failed(_, s, _, _) => s
    }
  }

  datatype Band = Excellent | Good | Fair | Poor | Critical

  /** The quality band of a score. */
  function BandOf(score: real): (b: Band)
    ensures b == Excellent <==> score >= 9.0
    ensures b == Good <==> 7.5 <= score < 9.0
    ensures b == Fair <==> 5.0 <= score < 7.5
    ensures b == Poor <==> 2.5 <= score < 5.0
    ensures b == Critical <==> score < 2.5
  {
    if score >= 9.0 then Excellent
    else if score >= 7.5 then Good
    else if score >= 5.0 then Fair
    else if score >= 2.5 then Poor
    else Critical
  }

  datatype Summary = Summary(excellent: nat, good: nat, fair: nat, poor: nat, critical: nat) {
    function Count(b: Band): nat {
      match b
      case Excellent => excellent
      case Good => good
      case Fair => fair
      case Poor => poor
      case Critical => critical
    }
    function Total(): nat { excellent + good + fair + poor + critical }
  }

  /** One entry of `all_errors`: a finding tagged with its slide and its kind. */
  datatype TaggedError =
    | TextOverlap(slide: string, overlap: OverlapFinding)
    | ContainerOverflowError(slide: string, container: ContainerFinding)
    | ViewportOverflowError(slide: string, viewport: ViewportFinding)

  datatype BatchResult = BatchResult(
    totalSlides: nat,
    averageScore: real,
    slides: seq<SlideRecord>,
    summary: Summary,
    allErrors: seq<TaggedError>)

  // ---------------------------------------------------------------------------
  // Specification of the batch loop, one slide at a time
  // ---------------------------------------------------------------------------

  function RecordOf(s: SlideSource): SlideRecord
  {
    match s
    case Loaded(name, input, output) => Analysed(SlideResultOf(name, input, output))
    case Unloadable(name, message) => Failed(name, 0.0, -1, message)
  }

  /** The record of each slide, in slide order. */
  function Records(slides: seq<SlideSource>): (records: seq<SlideRecord>)
    ensures |records| == |slides|
    ensures forall i :: 0 <= i < |slides| ==> records[i] == RecordOf(slides[i])
  {
    if slides == [] then []
    else Records(slides[..|slides| - 1]) + [RecordOf(slides[|slides| - 1])]
  }

  /** The summary after one more record: a successful analysis bumps exactly its band. */
  function Tally(summary: Summary, r: SlideRecord): Summary {
    if r.Failed? then summary
    else
      match BandOf(r.result.score)
      case Excellent => summary.(excellent := summary.excellent + 1)
      case Good => summary.(good := summary.good + 1)
      case Fair => summary.(fair := summary.fair + 1)
      case Poor => summary.(poor := summary.poor + 1)
      case Critical => summary.(critical := summary.critical + 1)
  }

  function SummaryOf(records: seq<SlideRecord>): Summary {
    if records == [] then Summary(0, 0, 0, 0, 0)
    else Tally(SummaryOf(records[..|records| - 1]), records[|records| - 1])
  }

  /** Each overlap finding of a slide, tagged with the slide's name. */
  function OverlapErrors(name: string, s: seq<OverlapFinding>): (t: seq<TaggedError>)
    ensures |t| == |s|
    ensures forall k :: 0 <= k < |s| ==> t[k] == TextOverlap(name, s[k])
  {
    if s == [] then [] else OverlapErrors(name, s[..|s| - 1]) + [TextOverlap(name, s[|s| - 1])]
  }

  function ContainerErrors(name: string, s: seq<ContainerFinding>): (t: seq<TaggedError>)
    ensures |t| == |s|
    ensures forall k :: 0 <= k < |s| ==> t[k] == ContainerOverflowError(name, s[k])
  {
    if s == [] then [] else ContainerErrors(name, s[..|s| - 1]) + [ContainerOverflowError(name, s[|s| - 1])]
  }

  function ViewportErrors(name: string, s: seq<ViewportFinding>): (t: seq<TaggedError>)
    ensures |t| == |s|
    ensures forall k :: 0 <= k < |s| ==> t[k] == ViewportOverflowError(name, s[k])
  {
    if s == [] then [] else ViewportErrors(name, s[..|s| - 1]) + [ViewportOverflowError(name, s[|s| - 1])]
  }

  /**
   * `all_errors` after one more record: a successful analysis appends its
   * overlaps, then its container overflows, then its viewport overflows.
   */
  function PushErrors(allErrors: seq<TaggedError>, r: SlideRecord): seq<TaggedError> {
    if r.Failed? then allErrors
    else
      var d, name := r.result.details, r.result.name;
      allErrors + OverlapErrors(name, d.overlap.errors)
      + ContainerErrors(name, d.containerOverflow.errors)
      + ViewportErrors(name, d.viewportOverflow.errors)
  }

  function AllErrors(records: seq<SlideRecord>): seq<TaggedError> {
    if records == [] then [] else PushErrors(AllErrors(records[..|records| - 1]), records[|records| - 1])
  }

  /** How many records have a positive score, and the sum of those scores. */
  function PositiveCount(records: seq<SlideRecord>): nat {
    if records == [] then 0
    else PositiveCount(records[..|records| - 1]) + (if records[|records| - 1].Score() > 0.0 then 1 else 0)
  }

  function PositiveSum(records: seq<SlideRecord>): real {
    if records == [] then 0.0
    else PositiveSum(records[..|records| - 1]) + (if records[|records| - 1].Score() > 0.0 then records[|records| - 1].Score() else 0.0)
  }

  /** `average_score`: the mean of the positive scores, 0 when there is none. */
  function AverageScore(records: seq<SlideRecord>): real {
    if PositiveCount(records) > 0 then PositiveSum(records) / PositiveCount(records) as real else 0.0
  }

  // ---------------------------------------------------------------------------
  // The batch loop
  // ---------------------------------------------------------------------------

  /** Pushes each overlap finding of a slide onto `all_errors`, in order. */
  method PushOverlapErrors(allErrors: seq<TaggedError>, name: string, s: seq<OverlapFinding>)
    returns (collected: seq<TaggedError>)
    ensures collected == allErrors + OverlapErrors(name, s)
  {
    collected := allErrors;
    for k := 0 to |s|
      invariant collected == allErrors + OverlapErrors(name, s[..k])
    {
      assert s[..k + 1][..k] == s[..k];
      collected := collected + [TextOverlap(name, s[k])];
    }
    assert s[..|s|] == s;
  }

  method PushContainerErrors(allErrors: seq<TaggedError>, name: string, s: seq<ContainerFinding>)
    returns (collected: seq<TaggedError>)
    ensures collected == allErrors + ContainerErrors(name, s)
  {
    collected := allErrors;
    for k := 0 to |s|
      invariant collected == allErrors + ContainerErrors(name, s[..k])
    {
      assert s[..k + 1][..k] == s[..k];
      collected := collected + [ContainerOverflowError(name, s[k])];
    }
    assert s[..|s|] == s;
  }

  method PushViewportErrors(allErrors: seq<TaggedError>, name: string, s: seq<ViewportFinding>)
    returns (collected: seq<TaggedError>)
    ensures collected == allErrors + ViewportErrors(name, s)
  {
    collected := allErrors;
    for k := 0 to |s|
      invariant collected == allErrors + ViewportErrors(name, s[..k])
    {
      assert s[..k + 1][..k] == s[..k];
      collected := collected + [ViewportOverflowError(name, s[k])];
    }
    assert s[..|s|] == s;
  }

  /** Appends the tagged findings of one analysed slide: overlaps, then container, then viewport overflows. */
  method CollectErrors(allErrors: seq<TaggedError>, r: SlideResult) returns (collected: seq<TaggedError>)
    ensures collected == PushErrors(allErrors, Analysed(r))
  {
    var d := r.details;
    collected := PushOverlapErrors(allErrors, r.name, d.overlap.errors);
    collected := PushContainerErrors(collected, r.name, d.containerOverflow.errors);
    collected := PushViewportErrors(collected, r.name, d.viewportOverflow.errors);
  }

  /** One iteration of the batch loop: the record of one slide pair, and `all_errors` grown by its findings. */
  method AnalyzeSlide(slide: SlideSource, allErrors: seq<TaggedError>) returns (record: SlideRecord, collected: seq<TaggedError>)
    ensures record == RecordOf(slide)
    ensures collected == PushErrors(allErrors, record)
  {
    match slide {
      case Loaded(name, input, output) =>
        var result := AnalyzeSlidePair(name, input, output);
        record := Analysed(result);
        collected := CollectErrors(allErrors, result);
      case Unloadable(name, message) =>
        record := Failed(name, 0.0, -1, message);
        collected := allErrors;
    }
  }

  /** The records of one more slide are the records so far and the record of that slide. */
  lemma RecordsSnoc(slides: seq<SlideSource>, i: nat)
    requires i < |slides|
    ensures Records(slides[..i + 1]) == Records(slides[..i]) + [RecordOf(slides[i])]
  {
    assert slides[..i + 1][..i] == slides[..i];
  }

  /** One more record advances the summary and `all_errors` by that record alone. */
  lemma AppendRecord(records: seq<SlideRecord>, r: SlideRecord)
    ensures SummaryOf(records + [r]) == Tally(SummaryOf(records), r)
    ensures AllErrors(records + [r]) == PushErrors(AllErrors(records), r)
  {
    assert (records + [r])[..|records|] == records;
  }

  /** `analyzeAllSlides`: analyse each pair, tally its band, gather its findings, then average. */
  method AnalyzeAllSlides(slides: seq<SlideSource>) returns (batch: BatchResult)
    ensures batch.totalSlides == |slides|
    ensures batch.slides == Records(slides)
    ensures batch.summary == SummaryOf(batch.slides)
    ensures batch.allErrors == AllErrors(batch.slides)
    ensures batch.averageScore == AverageScore(batch.slides)
    ensures 0.0 <= batch.averageScore <= MaxScore
    ensures |batch.allErrors| == ReportedErrors(batch.slides)
  {
    var records: seq<SlideRecord> := [];
    var summary := Summary(0, 0, 0, 0, 0);
    var allErrors: seq<TaggedError> := [];
    for i := 0 to |slides|
      invariant records == Records(slides[..i])
      invariant summary == SummaryOf(records)
      invariant allErrors == AllErrors(records)
    {
      var record;
      record, allErrors := AnalyzeSlide(slides[i], allErrors);
      RecordsSnoc(slides, i);
      AppendRecord(records, record);
      records := records + [record];
      summary := Tally(summary, record);
    }
    assert slides[..|slides|] == slides;
    var average := if PositiveCount(records) > 0 then PositiveSum(records) / PositiveCount(records) as real else 0.0;
    batch := BatchResult(|slides|, average, records, summary, allErrors);
    BatchTotals(slides);
  }

  // ---------------------------------------------------------------------------
  // Properties
  // ---------------------------------------------------------------------------

  /**
   * A loaded slide is analysed, with its name and a score in `[0, 10]`; an
   * unloadable one is recorded with score 0, `total_errors` -1 and its
   * message.
   */
  lemma RecordOfSpec(s: SlideSource)
    ensures s.Loaded? <==> RecordOf(s).Analysed?
    ensures s.Loaded? ==> RecordOf(s).result.name == s.name && 0.0 <= RecordOf(s).result.score <= MaxScore
    ensures s.Loaded? ==> var r := RecordOf(s).result;
      r.totalErrors == |r.details.overlap.errors| + |r.details.containerOverflow.errors| + |r.details.viewportOverflow.errors|
    ensures s.Unloadable? ==> RecordOf(s) == Failed(s.name, 0.0, -1, s.message)
  {
    if s.Loaded? {
      SlideResultSpec(s.name, s.input, s.output);
    }
  }

  function AnalysedCount(records: seq<SlideRecord>): nat {
    if records == [] then 0
    else AnalysedCount(records[..|records| - 1]) + (if records[|records| - 1].Analysed? then 1 else 0)
  }

  /** Each analysed slide lands in exactly one band, failed ones in none. */
  lemma {:induction false} SummaryCountsAnalysed(records: seq<SlideRecord>)
    ensures SummaryOf(records).Total() == AnalysedCount(records)
  {
    if records != [] {
      SummaryCountsAnalysed(records[..|records| - 1]);
    }
  }

  predicate InBand(r: SlideRecord, b: Band) {
    r.Analysed? && BandOf(r.result.score) == b
  }

  /** Tallying a record bumps the count of its band by one and leaves the others alone. */
  lemma TallyCount(summary: Summary, r: SlideRecord, b: Band)
    ensures Tally(summary, r).Count(b) == summary.Count(b) + (if InBand(r, b) then 1 else 0)
  {
  }

  /** The positions of the analysed records whose score falls in band `b`. */
  function BandIndices(records: seq<SlideRecord>, b: Band): set<nat> {
    set i: nat | i < |records| && InBand(records[i], b)
  }

  /** The positions in band `b` after one more record: the earlier ones, and the new one if it is in `b`. */
  lemma BandIndicesSnoc(records: seq<SlideRecord>, b: Band)
    requires records != []
    ensures var n := |records| - 1;
      BandIndices(records, b) == BandIndices(records[..n], b) + (if InBand(records[n], b) then {n} else {})
  {
    var n := |records| - 1;
    assert forall i :: 0 <= i < n ==> records[..n][i] == records[i];
  }

  /** A band's count is the number of analysed records whose score falls in it. */
  lemma {:induction false} SummaryCountsBand(records: seq<SlideRecord>, b: Band)
    ensures SummaryOf(records).Count(b) == |BandIndices(records, b)|
  {
    if records != [] {
      var n := |records| - 1;
      SummaryCountsBand(records[..n], b);
      TallyCount(SummaryOf(records[..n]), records[n], b);
      BandIndicesSnoc(records, b);
    } else {
      assert BandIndices(records, b) == {};
    }
  }

  function ReportedErrors(records: seq<SlideRecord>): nat {
    if records == [] then 0
    else
      var last := records[|records| - 1];
      ReportedErrors(records[..|records| - 1]) + (if last.Analysed? then last.result.totalErrors else 0)
  }

  /** `all_errors` holds exactly as many entries as the analysed slides report findings. */
  lemma {:induction false} AllErrorsCount(records: seq<SlideRecord>)
    requires forall i :: 0 <= i < |records| && records[i].Analysed? ==>
      var r := records[i].result;
      r.totalErrors == |r.details.overlap.errors| + |r.details.containerOverflow.errors| + |r.details.viewportOverflow.errors|
    ensures |AllErrors(records)| == ReportedErrors(records)
  {
    if records != [] {
      AllErrorsCount(records[..|records| - 1]);
    }
  }

  lemma {:induction false} PositiveSumBounds(records: seq<SlideRecord>)
    requires forall i :: 0 <= i < |records| ==> records[i].Score() <= MaxScore
    ensures 0.0 <= PositiveSum(records) <= MaxScore * PositiveCount(records) as real
    ensures PositiveCount(records) > 0 ==> PositiveSum(records) > 0.0
  {
    if records != [] {
      PositiveSumBounds(records[..|records| - 1]);
    }
  }

  /**
   * The average lies in `[0, 10]`; it is 0 exactly when no slide scored above
   * 0, so failed slides and slides scoring 0 do not pull it down.
   */
  lemma AverageScoreBounds(records: seq<SlideRecord>)
    requires forall i :: 0 <= i < |records| ==> records[i].Score() <= MaxScore
    ensures 0.0 <= AverageScore(records) <= MaxScore
    ensures AverageScore(records) == 0.0 <==> PositiveCount(records) == 0
  {
    PositiveSumBounds(records);
    var n := PositiveCount(records);
    if n > 0 {
      var s := PositiveSum(records);
      assert s / n as real <= MaxScore by {
        assert s <= MaxScore * n as real;
      }
      assert s / n as real > 0.0;
    }
  }

  /**
   * Over the records of any batch, the average lies in `[0, 10]` and
   * `all_errors` holds exactly the findings the analysed slides report.
   */
  lemma BatchTotals(slides: seq<SlideSource>)
    ensures 0.0 <= AverageScore(Records(slides)) <= MaxScore
    ensures |AllErrors(Records(slides))| == ReportedErrors(Records(slides))
  {
    var records := Records(slides);
    forall i | 0 <= i < |records|
      ensures records[i].Score() <= MaxScore
      ensures records[i].Analysed? ==> var r := records[i].result;
        r.totalErrors == |r.details.overlap.errors| + |r.details.containerOverflow.errors| + |r.details.viewportOverflow.errors|
    {
      RecordOfSpec(slides[i]);
    }
    AverageScoreBounds(records);
    AllErrorsCount(records);
  }

  /** A failed slide changes neither the average nor the band counts. */
  lemma FailedRecordIgnored(records: seq<SlideRecord>, name: string, error: string)
    ensures AverageScore(records + [Failed(name, 0.0, -1, error)]) == AverageScore(records)
    ensures SummaryOf(records + [Failed(name, 0.0, -1, error)]) == SummaryOf(records)
  {
    assert (records + [Failed(name, 0.0, -1, error)])[..|records|] == records;
  }
}
