# Slide layout-defect analyzer — a Dafny model

The error analyzer compares a generated slide (`output.html`) with its
template (`input.html`) and reports three kinds of layout defects, then
scores the slide from 0 to 10:

- **text overlap**: two text elements whose outer boxes (border box plus
  margin, shifted up by half the extra leading) overlap by at least 5% of
  the smaller box;
- **container overflow**: a text element that leaves the content area of
  the `div` that encloses it in the template. The container is the
  output's `div` of the nearest ancestor class that has a candidate below
  the text in z-index, and among those the closest in z-index. The result
  is either a 100% "completely outside" finding or a per-edge overflow
  beyond 1 px;
- **viewport overflow**: a text element whose outer box leaves the
  1920 x 1080 slide.

Every finding costs a penalty from a table. The score is what remains of
10 points, and never less than 0. A batch of slides is sorted into five
quality bands, and its average is taken over the positive scores.

The model follows the two JavaScript implementations of this pipeline:
`analyzer.js` in the browser and `all-over.js` under Puppeteer. Their
detection logic is the same. Finding payloads (`directions`, `message`,
`overlap_area`, `count`) follow `all-over.js`. The batch step follows
`analyzer.js`.

Modules, one per file, in pipeline order:

| file | module | models |
|---|---|---|
| `text.dfy` | `TextUtil` | JavaScript `trim`, the 80-character snippet, the text tags |
| `box_model.dfy` | `BoxModel` | STEP 1: raw element values to border, content and outer boxes |
| `relationships.dfy` | `Relationships` | the template's text-to-`div`-ancestor relationships |
| `overlap.dfy` | `Overlap` | STEP 2: the nested pair loop with quick rejection |
| `container.dfy` | `Container` | STEP 3: text lookup, container resolution, overflow |
| `viewport.dfy` | `Viewport` | STEP 4: the viewport check |
| `scorer.dfy` | `Scorer` | `calculateScore` |
| `analysis.dfy` | `Analysis` | one slide pair: relationships, detection, score |
| `batch.dfy` | `Batch` | `analyzeAllSlides`: bands, collected errors, average |

Each loop of the source is a method proved against a function that
specifies it. The method's `ensures` is that equation, and the properties
of the function are proved as lemmas.

The rendering engine is not modelled. Its answers are plain inputs:
- computed style, the rendered rectangle and the inline style arrive as numbers in a `RawElement`;
- the template's DOM arrives as explicit ancestor chains in an `InputElement`;
- a CSS value `parseFloat` cannot read is `None`;
- `line-height` is already classified as `Normal | Px | Unitless | Other`.

Coordinates are exact `real`s. The source's floating-point special values
are modelled where they can occur:
- A container percentage is a `Percent`: `Finite`, `Infinite` or `NotANumber`. A zero-size content area gives Infinity or NaN, and `Math.max` and `>=` treat these as JavaScript does.
- An overlap percentage is `None` when the smaller area is 0. `Overlap.ZeroAreaMeansNoOverlap` proves the source then computes 0 / 0. That is NaN, which never reaches the threshold.

## Model

Paths are relative to the repository root. `analyzer.js` and `all-over.js`
both live in `Converter/Converter/overlap/error-analyzer-web/`.

| member | source | states |
|---|---|---|
| TextUtil.LeadingTrimmableIsMaximal | Converter/Converter/overlap/error-analyzer-web/analyzer.js:425 | `trim` removes every leading whitespace character, and the first kept character is not whitespace |
| TextUtil.TrailingTrimmableIsMaximal | Converter/Converter/overlap/error-analyzer-web/analyzer.js:425 | `trim` removes every trailing whitespace character, and the last kept character is not whitespace |
| TextUtil.TrimIsSlice | Converter/Converter/overlap/error-analyzer-web/analyzer.js:425 | the trimmed text is a contiguous slice of the original, and everything cut off either end is whitespace |
| TextUtil.TrimmedEnds | Converter/Converter/overlap/error-analyzer-web/analyzer.js:425 | a non-empty trimmed text neither starts nor ends with whitespace |
| TextUtil.TrimEmptyIffBlank | Converter/Converter/overlap/error-analyzer-web/analyzer.js:345 | text trims to empty exactly when it is all whitespace, so `!textContent.trim()` rejects exactly the blank texts |
| TextUtil.Snippet | Converter/Converter/overlap/error-analyzer-web/analyzer.js:490 | `substring(0, 80)` is a prefix of at most 80 characters, and the whole string when it is that short |
| BoxModel.FontSize | Converter/Converter/overlap/error-analyzer-web/analyzer.js:445 | a readable, non-zero font size is used as is; a missing one or a parsed 0 gives 16, so the result is never 0 |
| BoxModel.LineHeightTop | Converter/Converter/overlap/error-analyzer-web/analyzer.js:458-459 | the leading correction is never negative; it is 0 exactly when the line height does not exceed the rendered height, and otherwise half the excess |
| BoxModel.LineHeightResolution | Converter/Converter/overlap/error-analyzer-web/all-over.js:154-168 | `normal` is 1.2 times the font size (19.2 px with no font size); px is used as is; a unitless value scales the font size; anything else gives the rendered height and so no correction |
| BoxModel.BuildBox | Converter/Converter/overlap/error-analyzer-web/analyzer.js:425-426 | an element has text exactly when its trimmed text is non-empty; it keeps that text cut to 80 characters, and keeps its tag, class and z-index |
| BoxModel.BoxArithmetic | Converter/Converter/overlap/error-analyzer-web/analyzer.js:474-485 | the content box is the border box minus border and padding on each side; the outer box is the border box plus margin, moved up at both top and bottom by the leading correction |
| BoxModel.BoxContainment | Converter/Converter/overlap/error-analyzer-web/analyzer.js:474-485 | non-negative padding and border keep the content box inside the border box; non-negative margins make the outer box reach at least as far left, right and up (bottom containment is not claimed) |
| BoxModel.InlineGeometryDefaults | Converter/Converter/overlap/error-analyzer-web/analyzer.js:462-465 | a missing or zero inline left/top is 0, a missing or zero inline width/height is the rendered size, and any other value is used as is |
| BoxModel.ParseElements | Converter/Converter/overlap/error-analyzer-web/analyzer.js:416-520 | the STEP 1 loop pushes exactly the specified box list, in document order |
| BoxModel.BuildElementsLength | Converter/Converter/overlap/error-analyzer-web/analyzer.js:416-423 | at most one box per element |
| BoxModel.BuildElementsSound | Converter/Converter/overlap/error-analyzer-web/analyzer.js:420-423 | every built box is the box of an element that is neither hidden nor of zero rendered width or height |
| BoxModel.BuildElementsComplete | Converter/Converter/overlap/error-analyzer-web/analyzer.js:420-423 | every element that is not hidden and not of zero size has its box built |
| BoxModel.TextElements | Converter/Converter/overlap/error-analyzer-web/analyzer.js:523-525 | the text elements are exactly the boxes with a text tag and non-empty text, and no more than the elements |
| Relationships.BodyDepth | Converter/Converter/overlap/error-analyzer-web/analyzer.js:350 | the ancestor walk stops at the first `body`, or when the parents run out |
| Relationships.CollectDivAncestors | Converter/Converter/overlap/error-analyzer-web/analyzer.js:347-355 | the `while` walk collects exactly the specified class list |
| Relationships.DivAncestorClassesMembers | Converter/Converter/overlap/error-analyzer-web/all-over.js:80-88 | the collected classes are exactly the non-empty class names of the `div` ancestors met before `body` |
| Relationships.DivAncestorClassesNearestFirst | Converter/Converter/overlap/error-analyzer-web/all-over.js:80-88 | the first collected class is that of the nearest named `div` ancestor |
| Relationships.ExtractRelationship | Converter/Converter/overlap/error-analyzer-web/analyzer.js:342-365 | one element contributes its relationship exactly when it is a visible, non-blank text element with a named `div` ancestor |
| Relationships.ParseInputRelationships | Converter/Converter/overlap/error-analyzer-web/analyzer.js:342-370 | the extractor loop builds exactly the specified relationship list, in document order |
| Relationships.RelationshipMapSound | Converter/Converter/overlap/error-analyzer-web/all-over.js:71-98 | every relationship comes from a visible, non-blank text element with a named `div` ancestor, and carries a non-empty text of at most 80 characters and a non-empty class list |
| Relationships.RelationshipMapComplete | Converter/Converter/overlap/error-analyzer-web/all-over.js:71-98 | every such element contributes its relationship |
| Overlap.Intersection | Converter/Converter/overlap/error-analyzer-web/analyzer.js:542-548 | the overlap rectangle lies within both boxes, and has positive width and height when the boxes are not rejected and have positive sizes |
| Overlap.PairFinding | Converter/Converter/overlap/error-analyzer-web/analyzer.js:536-570 | a quick-rejected pair yields nothing; a finding has percent at least 5 and names the two elements in loop order |
| Overlap.ZeroAreaMeansNoOverlap | Converter/Converter/overlap/error-analyzer-web/analyzer.js:551-554 | when the pair is not rejected but the smaller area is 0, the overlap area is 0 too, so the percentage is 0 / 0 |
| Overlap.OverlapPercentSymmetric | Converter/Converter/overlap/error-analyzer-web/analyzer.js:536-554 | rejection, overlap rectangle and percentage do not depend on the order of the two elements |
| Overlap.IntersectionAreaBounds | Converter/Converter/overlap/error-analyzer-web/analyzer.js:547-552 | for boxes of positive size that are not rejected, the overlap area is positive and no larger than either box |
| Overlap.OverlapPercentAtMost100 | Converter/Converter/overlap/error-analyzer-web/analyzer.js:551-554 | with positive outer widths and heights the percentage lies in (0, 100] |
| Overlap.ScanRow | Converter/Converter/overlap/error-analyzer-web/analyzer.js:531-571 | the inner `j > i` loop yields exactly the findings of row `i`, in order |
| Overlap.DetectOverlaps | Converter/Converter/overlap/error-analyzer-web/analyzer.js:530-572 | the nested loop yields exactly the specified findings, in loop order |
| Overlap.RowFindingsSound | Converter/Converter/overlap/error-analyzer-web/analyzer.js:531 | each finding of row `i` is the finding of a pair `(i, j)` with `j > i` |
| Overlap.RowFindingsComplete | Converter/Converter/overlap/error-analyzer-web/analyzer.js:531 | each pair `(i, j)` with `j > i` that yields a finding contributes it to row `i` |
| Overlap.PairsBeforeSound | Converter/Converter/overlap/error-analyzer-web/analyzer.js:530-531 | each finding of the first rows is the finding of a pair `i < j` among them |
| Overlap.PairsBeforeComplete | Converter/Converter/overlap/error-analyzer-web/analyzer.js:530-531 | each pair `i < j` that yields a finding contributes it |
| Overlap.OverlapFindingsMembers | Converter/Converter/overlap/error-analyzer-web/analyzer.js:530-570 | a finding is reported exactly when some pair `i < j` yields it, and every reported percentage is at least 5 |
| Container.MaxOfFour | Converter/Converter/overlap/error-analyzer-web/analyzer.js:644-645 | `Math.max` of four percentages is NaN if any is NaN, is finite only if all are, and is then the largest of the four |
| Container.FindText | Converter/Converter/overlap/error-analyzer-web/analyzer.js:578-585 | the first element that matches the relationship's tag, class and text and has text, or none when no element matches |
| Container.ClosestCandidate | Converter/Converter/overlap/error-analyzer-web/analyzer.js:590-601 | the `reduce` picks a candidate with minimal z-distance, and the earliest such one; it picks none exactly when there is no candidate |
| Container.FirstResolvable | Converter/Converter/overlap/error-analyzer-web/analyzer.js:589-604 | the first ancestor class, nearest first, that has any candidate |
| Container.ResolveParentSpec | Converter/Converter/overlap/error-analyzer-web/analyzer.js:589-606 | the container is a `div` below the text, of the first ancestor class with a candidate, with minimal z-distance and earliest on ties; there is none exactly when no class has a candidate |
| Container.ResolveContainer | Converter/Converter/overlap/error-analyzer-web/analyzer.js:589-604 | the `for`/`break` loop picks exactly the specified container |
| Container.ContainerDirections | Converter/Converter/overlap/error-analyzer-web/all-over.js:413-418 | the directions are exactly the edges overflowing by more than 1 px, in the order LEFT, RIGHT, TOP, BOTTOM |
| Container.CheckContainer | Converter/Converter/overlap/error-analyzer-web/analyzer.js:609-658 | a finding names the text element and its container |
| Container.CompletelyOutsideFinding | Converter/Converter/overlap/error-analyzer-web/all-over.js:337-366 | a text disjoint from the content area on either axis yields one 100% COMPLETELY_OUTSIDE finding, whose message says "vertically" exactly when the boxes overlap horizontally |
| Container.PartialOverflowFinding | Converter/Converter/overlap/error-analyzer-web/analyzer.js:629-658 | otherwise there is a finding exactly when some edge overflows by more than 1 px; with a content area of non-zero size its percentage is the largest edge percentage |
| Container.DegenerateContainerPercent | Converter/Converter/overlap/error-analyzer-web/analyzer.js:635-638 | with a content area of zero width or height, a partial finding's percentage is Infinity or NaN |
| Container.InsideMeansNoFinding | Converter/Converter/overlap/error-analyzer-web/analyzer.js:609-643 | a text box of positive size inside the content area yields no finding |
| Container.DirectionsMatchOverflow | Converter/Converter/overlap/error-analyzer-web/all-over.js:413-418 | a partial finding's directions are non-empty, and are exactly the edges the text passes by more than 1 px |
| Container.CheckRelation | Converter/Converter/overlap/error-analyzer-web/analyzer.js:577-658 | the body of the STEP 3 loop yields exactly the specified finding for one relationship |
| Container.DetectContainerOverflow | Converter/Converter/overlap/error-analyzer-web/analyzer.js:577-659 | STEP 3 yields exactly the specified findings, in relationship order |
| Container.RelationFindingSpec | Converter/Converter/overlap/error-analyzer-web/analyzer.js:578-606 | a relationship's finding names the text matching its tag, class and text, and a `div` container strictly below that text in z-index |
| Container.ContainerFindingsLength | Converter/Converter/overlap/error-analyzer-web/analyzer.js:577-659 | at most one finding per relationship |
| Container.ContainerFindingsSound | Converter/Converter/overlap/error-analyzer-web/analyzer.js:577-659 | every finding of STEP 3 is the finding of some relationship, names that relationship's text and a `div` container strictly below it |
| Container.ContainerFindingsComplete | Converter/Converter/overlap/error-analyzer-web/analyzer.js:577-659 | every relationship that yields a finding (a 100% completely-outside one or a partial overflow) contributes it to STEP 3's list, at some index |
| Container.NoMatchNoFinding | Converter/Converter/overlap/error-analyzer-web/analyzer.js:585-606 | a relationship whose text is not found, or that has no container, yields nothing |
| Viewport.ViewportDirections | Converter/Converter/overlap/error-analyzer-web/all-over.js:466-471 | the directions are exactly the edges with a positive overflow, in the order LEFT, TOP, RIGHT, BOTTOM |
| Viewport.CheckViewport | Converter/Converter/overlap/error-analyzer-web/analyzer.js:664-690 | a finding exists exactly when the outer box leaves the viewport, and it names the element |
| Viewport.ViewportFindingSpec | Converter/Converter/overlap/error-analyzer-web/analyzer.js:664-690 | finding exactly when outside; the percentage is positive and is the largest edge overflow relative to 1920 (left, right) or 1080 (top, bottom); the directions are exactly the edges crossed |
| Viewport.DetectViewportOverflow | Converter/Converter/overlap/error-analyzer-web/analyzer.js:664-691 | STEP 4 yields exactly the specified findings, in element order |
| Viewport.ViewportFindingsLength | Converter/Converter/overlap/error-analyzer-web/analyzer.js:664 | at most one finding per text element |
| Viewport.ViewportFindingsSound | Converter/Converter/overlap/error-analyzer-web/analyzer.js:664-690 | every finding is that of a text element whose outer box leaves the viewport |
| Viewport.ViewportFindingsComplete | Converter/Converter/overlap/error-analyzer-web/analyzer.js:664-690 | every text element whose outer box leaves the viewport contributes its finding, at some index |
| Scorer.OverlapPenalty | Converter/Converter/overlap/error-analyzer-web/analyzer.js:711-717 | an overlap costs between 0.2 and 2.0 |
| Scorer.OverflowPenalty | Converter/Converter/overlap/error-analyzer-web/analyzer.js:729-735 | an overflow costs between 0.15 and 1.5 |
| Scorer.ContainerPenaltyAgrees | Converter/Converter/overlap/error-analyzer-web/analyzer.js:720-726 | a container finding costs the overflow penalty of a finite percentage, the most for Infinity and the least for NaN |
| Scorer.PenaltiesMonotone | Converter/Converter/overlap/error-analyzer-web/analyzer.js:711-735 | a larger percentage never costs less, and an overlap always costs more than an overflow of the same percentage |
| Scorer.OverlapPenalties | Converter/Converter/overlap/error-analyzer-web/analyzer.js:711-717 | the summed overlap penalties are at least 0.2 when the list is non-empty and at most 2.0 per finding |
| Scorer.ContainerPenalties | Converter/Converter/overlap/error-analyzer-web/analyzer.js:720-726 | the summed container penalties are at least 0.15 when the list is non-empty and at most 1.5 per finding |
| Scorer.ViewportPenalties | Converter/Converter/overlap/error-analyzer-web/analyzer.js:729-735 | the summed viewport penalties are at least 0.15 when the list is non-empty and at most 1.5 per finding |
| Scorer.CalculateScore | Converter/Converter/overlap/error-analyzer-web/analyzer.js:700-739 | the early return and the three accumulating loops compute the specified score |
| Scorer.ScoreBounds | Converter/Converter/overlap/error-analyzer-web/analyzer.js:701-737 | the score lies in [0, 10]; it is 10 exactly when there are no findings; the early return agrees with `max(0, 10 - total)` |
| Scorer.OverlapPenaltiesAppend | Converter/Converter/overlap/error-analyzer-web/analyzer.js:711-719 | the overlap penalty of two lists laid end to end is the sum of their penalties |
| Scorer.ContainerPenaltiesAppend | Converter/Converter/overlap/error-analyzer-web/analyzer.js:720-728 | the container penalty of two lists laid end to end is the sum of their penalties |
| Scorer.ViewportPenaltiesAppend | Converter/Converter/overlap/error-analyzer-web/analyzer.js:729-735 | the viewport penalty of two lists laid end to end is the sum of their penalties |
| Scorer.MoreOverlapNeverHelps | Converter/Converter/overlap/error-analyzer-web/analyzer.js:711-737 | one more overlap, inserted at any position of the list, never raises the score, and lowers any positive score |
| Scorer.MoreContainerOverflowNeverHelps | Converter/Converter/overlap/error-analyzer-web/analyzer.js:720-737 | one more container overflow, inserted at any position of the list, never raises the score, and lowers any positive score |
| Scorer.MoreViewportOverflowNeverHelps | Converter/Converter/overlap/error-analyzer-web/analyzer.js:729-737 | one more viewport overflow, inserted at any position of the list, never raises the score, and lowers any positive score |
| Analysis.AnalyzeOutput | Converter/Converter/overlap/error-analyzer-web/all-over.js:121-484 | the three steps yield the specified finding lists; each `count` is the length of its list; the element counts are bounded by the input |
| Analysis.AnalyzeSlidePair | Converter/Converter/overlap/error-analyzer-web/analyzer.js:275-298 | one slide pair's result is the specified result of its two documents |
| Analysis.SlideResultSpec | Converter/Converter/overlap/error-analyzer-web/analyzer.js:288-297 | a slide's result carries the three finding lists with their counts; `total_errors` is their sum; the score lies in [0, 10] and is 10 exactly when `total_errors` is 0 |
| Batch.BandOf | Converter/Converter/overlap/error-analyzer-web/analyzer.js:217-227 | the band of a score follows the thresholds 9.0, 7.5, 5.0 and 2.5, each band exactly its interval |
| Batch.OverlapErrors | Converter/Converter/overlap/error-analyzer-web/analyzer.js:230-236 | one 'Text Overlap' entry per overlap finding, in order, each tagged with the slide's name |
| Batch.ContainerErrors | Converter/Converter/overlap/error-analyzer-web/analyzer.js:237-243 | one 'Container Overflow' entry per container finding, in order, each tagged with the slide's name |
| Batch.ViewportErrors | Converter/Converter/overlap/error-analyzer-web/analyzer.js:244-250 | one 'Viewport Overflow' entry per viewport finding, in order, each tagged with the slide's name |
| Batch.PushOverlapErrors | Converter/Converter/overlap/error-analyzer-web/analyzer.js:230-236 | appends each overlap finding, tagged with the slide, in order |
| Batch.PushContainerErrors | Converter/Converter/overlap/error-analyzer-web/analyzer.js:237-243 | appends each container finding, tagged with the slide, in order |
| Batch.PushViewportErrors | Converter/Converter/overlap/error-analyzer-web/analyzer.js:244-250 | appends each viewport finding, tagged with the slide, in order |
| Batch.CollectErrors | Converter/Converter/overlap/error-analyzer-web/analyzer.js:230-250 | a slide's findings are appended as overlaps, then container overflows, then viewport overflows |
| Batch.AnalyzeSlide | Converter/Converter/overlap/error-analyzer-web/analyzer.js:208-259 | one loop iteration records the slide's specified record, and grows `all_errors` by its findings only when it was analysed |
| Batch.AnalyzeAllSlides | Converter/Converter/overlap/error-analyzer-web/analyzer.js:187-266 | the batch holds one record per slide, in order, with the band summary, `all_errors` and the average of those records; the average lies in [0, 10] and `all_errors` has as many entries as the analysed slides report |
| Batch.RecordOfSpec | Converter/Converter/overlap/error-analyzer-web/analyzer.js:212-259 | a loaded slide is analysed, keeps its name and scores in [0, 10] and reports as `total_errors` the number of its findings; a failed one is recorded with score 0, `total_errors` -1 and its message |
| Batch.SummaryCountsAnalysed | Converter/Converter/overlap/error-analyzer-web/analyzer.js:216-227 | the band counts add up to the number of analysed slides |
| Batch.TallyCount | Converter/Converter/overlap/error-analyzer-web/analyzer.js:216-227 | a record bumps its own band by one and no other; a failed record bumps none |
| Batch.SummaryCountsBand | Converter/Converter/overlap/error-analyzer-web/analyzer.js:216-227 | each band's count is the number of analysed slides whose score falls in it |
| Batch.AllErrorsCount | Converter/Converter/overlap/error-analyzer-web/analyzer.js:229-250 | `all_errors` holds as many entries as the analysed slides' `total_errors` add up to |
| Batch.PositiveSumBounds | Converter/Converter/overlap/error-analyzer-web/analyzer.js:263-266 | the sum of the positive scores lies between 0 and 10 per counted slide, and is positive when any slide counts |
| Batch.AverageScoreBounds | Converter/Converter/overlap/error-analyzer-web/analyzer.js:263-266 | the average lies in [0, 10] and is 0 exactly when no slide scored above 0 |
| Batch.BatchTotals | Converter/Converter/overlap/error-analyzer-web/analyzer.js:212-266 | for the records of any batch, the average lies in [0, 10] and `all_errors` has exactly as many entries as the analysed slides report |
| Batch.FailedRecordIgnored | Converter/Converter/overlap/error-analyzer-web/analyzer.js:251-266 | a failed slide changes neither the average nor the band counts |

## Left out

- The rendering engine (`getComputedStyle`, `getBoundingClientRect`, `el.style`), iframes and Puppeteer pages: their answers are inputs (`RawElement`, `InputElement`).
- CSS string parsing by `parseFloat`/`parseInt`: values arrive parsed, with `None` for an unreadable value. `|| default` is modelled; `z-index` arrives as the integer `parseInt(...) || 0` yields.
- `toFixed(2)` rounding of percentages and of the score, and the `toFixed` strings in the `box_f12`, `box_model`, `size` and overflow fields: percentages and scores are exact reals. The scorer's thresholds therefore apply to unrounded percentages.
- The positional descriptive payload of findings (`box_f12`, `size`, `box_model`, `content_area`, `viewport`): findings carry tag, class, text and z-index only.
- Strings are sequences of code points; JavaScript counts UTF-16 code units in `substring(0, 80)`, so texts outside the Basic Multilingual Plane may be cut differently.
- A negative content width or height is kept as computed. The model does not treat it as an error, and neither does the source.
- `analysisResults` is a global object in `analyzer.js`; here the batch returns it as a value. `totalScore` is accumulated by the source but never read, so it is not modelled.
- Inner overlap loop: each row is gathered into a list before it is appended, rather than pushing finding by finding. The resulting list and its order are the same.
- File and folder ingestion, ZIP reading, the `localeCompare` sort of slide pairs, timing, logging, the UI (charts, tables, modals, filters) and the JSON and CSV export.
- Exceptions: a slide whose analysis throws is an `Unloadable` input with its message, not a computation that fails part-way.
- `batch_score_calculator.py` is not part of this model: it walks the file system and delegates scoring to code that is not available.
