/**
 * Penalty-table scorer: each finding costs a penalty that grows with its
 * percentage, and the slide's score is what remains of 10 points, never
 * less than 0. A slide without findings scores exactly 10.
 */
module Scorer {
  import opened Overlap
  import opened Container
  import opened Viewport

  const MaxScore: real := 10.0

  /** The penalty of one overlap finding, by its overlap percentage. */
  function OverlapPenalty(percent: real): (p: real)
    ensures 0.2 <= p <= 2.0
  {
    if percent >= 50.0 then 2.0
    else if percent >= 25.0 then 1.0
    else if percent >= 10.0 then 0.5
    else 0.2
  }

  /** The penalty of one container or viewport overflow finding, by its overflow percentage. */
  function OverflowPenalty(percent: real): (p: real)
    ensures 0.15 <= p <= 1.5
  {
    if percent >= 50.0 then 1.5
    else if percent >= 25.0 then 0.8
    else if percent >= 10.0 then 0.4
    else 0.15
  }

  /** `percent >= threshold` as the source evaluates it: Infinity passes every threshold, NaN none. */
  predicate AtLeast(percent: Percent, threshold: real) {
    match percent
    case Finite(v) => v >= threshold
    case Infinite => true
    case NotANumber => false
  }

  /** The penalty of one container overflow finding, whose percentage may be Infinity or NaN. */
  function ContainerPenalty(percent: Percent): (p: real)
    ensures 0.15 <= p <= 1.5
  {
    if AtLeast(percent, 50.0) then 1.5
    else if AtLeast(percent, 25.0) then 0.8
    else if AtLeast(percent, 10.0) then 0.4
    else 0.15
  }

  /**
   * On a finite percentage the container penalty is the overflow penalty; an
   * infinite one costs the most and NaN the least.
   */
  lemma ContainerPenaltyAgrees(percent: Percent)
    ensures percent.Finite? ==> ContainerPenalty(percent) == OverflowPenalty(percent.value)
    ensures percent.Infinite? ==> ContainerPenalty(percent) == 1.5
    ensures percent.NotANumber? ==> ContainerPenalty(percent) == 0.15
  {
  }

  /** A larger percentage never costs less, and an overlap always costs more than an overflow. */
  lemma PenaltiesMonotone(p: real, q: real)
    requires p <= q
    ensures OverlapPenalty(p) <= OverlapPenalty(q)
    ensures OverflowPenalty(p) <= OverflowPenalty(q)
    ensures OverflowPenalty(p) < OverlapPenalty(p)
  {
  }

  /** The summed penalties of a list of overlap findings, in list order. */
  function OverlapPenalties(s: seq<OverlapFinding>): (t: real)
    ensures t >= 0.0
    ensures s != [] ==> t >= 0.2
    ensures t <= 2.0 * |s| as real
  {
    if s == [] then 0.0 else OverlapPenalties(s[..|s| - 1]) + OverlapPenalty(s[|s| - 1].percent)
  }

  function ContainerPenalties(s: seq<ContainerFinding>): (t: real)
    ensures t >= 0.0
    ensures s != [] ==> t >= 0.15
    ensures t <= 1.5 * |s| as real
  {
    if s == [] then 0.0 else ContainerPenalties(s[..|s| - 1]) + ContainerPenalty(s[|s| - 1].percent)
  }

  function ViewportPenalties(s: seq<ViewportFinding>): (t: real)
    ensures t >= 0.0
    ensures s != [] ==> t >= 0.15
    ensures t <= 1.5 * |s| as real
  {
    if s == [] then 0.0 else ViewportPenalties(s[..|s| - 1]) + OverflowPenalty(s[|s| - 1].percent)
  }

  function TotalPenalty(overlap: seq<OverlapFinding>, container: seq<ContainerFinding>, viewport: seq<ViewportFinding>): real {
    OverlapPenalties(overlap) + ContainerPenalties(container) + ViewportPenalties(viewport)
  }

  /** The score: 10 without findings, otherwise 10 minus the penalties, floored at 0. */
  function Score(overlap: seq<OverlapFinding>, container: seq<ContainerFinding>, viewport: seq<ViewportFinding>): real {
    if |overlap| + |container| + |viewport| == 0 then MaxScore
    else
      var rest := MaxScore - TotalPenalty(overlap, container, viewport);
      if rest > 0.0 then rest else 0.0
  }

  /** `calculateScore`: an early return for a clean slide, then three accumulating passes. */
  method CalculateScore(overlap: seq<OverlapFinding>, container: seq<ContainerFinding>, viewport: seq<ViewportFinding>)
    returns (score: real)
    ensures score == Score(overlap, container, viewport)
  {
    if |overlap| + |container| + |viewport| == 0 {
      return MaxScore;
    }
    var total := 0.0;
    for i := 0 to |overlap|
      invariant total == OverlapPenalties(overlap[..i])
    {
      assert overlap[..i + 1][..i] == overlap[..i];
      total := total + OverlapPenalty(overlap[i].percent);
    }
    assert overlap[..|overlap|] == overlap;
    for i := 0 to |container|
      invariant total == OverlapPenalties(overlap) + ContainerPenalties(container[..i])
    {
      assert container[..i + 1][..i] == container[..i];
      total := total + ContainerPenalty(container[i].percent);
    }
    assert container[..|container|] == container;
    for i := 0 to |viewport|
      invariant total == OverlapPenalties(overlap) + ContainerPenalties(container) + ViewportPenalties(viewport[..i])
    {
      assert viewport[..i + 1][..i] == viewport[..i];
      total := total + OverflowPenalty(viewport[i].percent);
    }
    assert viewport[..|viewport|] == viewport;
    score := if MaxScore - total > 0.0 then MaxScore - total else 0.0;
  }

  /**
   * The score lies in `[0, 10]`; it is exactly 10 when there are no findings
   * and below 10 otherwise; and the early return agrees with the general
   * formula `max(0, 10 - total)`.
   */
  lemma ScoreBounds(overlap: seq<OverlapFinding>, container: seq<ContainerFinding>, viewport: seq<ViewportFinding>)
    ensures 0.0 <= Score(overlap, container, viewport) <= MaxScore
    ensures Score(overlap, container, viewport) == MaxScore <==> overlap == [] && container == [] && viewport == []
    ensures var rest := MaxScore - TotalPenalty(overlap, container, viewport);
      Score(overlap, container, viewport) == if rest > 0.0 then rest else 0.0
  {
  }

  /** The overlap penalties of two lists laid end to end add up. */
  lemma {:induction false} OverlapPenaltiesAppend(a: seq<OverlapFinding>, b: seq<OverlapFinding>)
    ensures OverlapPenalties(a + b) == OverlapPenalties(a) + OverlapPenalties(b)
  {
    if b == [] {
      assert a + b == a;
    } else {
      OverlapPenaltiesAppend(a, b[..|b| - 1]);
      assert (a + b)[..|a + b| - 1] == a + b[..|b| - 1];
    }
  }

  lemma {:induction false} ContainerPenaltiesAppend(a: seq<ContainerFinding>, b: seq<ContainerFinding>)
    ensures ContainerPenalties(a + b) == ContainerPenalties(a) + ContainerPenalties(b)
  {
    if b == [] {
      assert a + b == a;
    } else {
      ContainerPenaltiesAppend(a, b[..|b| - 1]);
      assert (a + b)[..|a + b| - 1] == a + b[..|b| - 1];
    }
  }

  lemma {:induction false} ViewportPenaltiesAppend(a: seq<ViewportFinding>, b: seq<ViewportFinding>)
    ensures ViewportPenalties(a + b) == ViewportPenalties(a) + ViewportPenalties(b)
  {
    if b == [] {
      assert a + b == a;
    } else {
      ViewportPenaltiesAppend(a, b[..|b| - 1]);
      assert (a + b)[..|a + b| - 1] == a + b[..|b| - 1];
    }
  }

  /**
   * Reporting one more overlap, wherever it is inserted in the list, never
   * raises the score, and lowers any positive score.
   */
  lemma MoreOverlapNeverHelps(overlap: seq<OverlapFinding>, container: seq<ContainerFinding>, viewport: seq<ViewportFinding>,
                              f: OverlapFinding, k: nat)
    requires k <= |overlap|
    ensures var more := overlap[..k] + [f] + overlap[k..];
      && Score(more, container, viewport) <= Score(overlap, container, viewport)
      && (Score(overlap, container, viewport) > 0.0 ==> Score(more, container, viewport) < Score(overlap, container, viewport))
  {
    assert [f][..0] == [];
    OverlapPenaltiesAppend(overlap[..k], [f]);
    OverlapPenaltiesAppend(overlap[..k] + [f], overlap[k..]);
    OverlapPenaltiesAppend(overlap[..k], overlap[k..]);
    assert overlap[..k] + overlap[k..] == overlap;
  }

  /** The same for one more container overflow, inserted anywhere. */
  lemma MoreContainerOverflowNeverHelps(overlap: seq<OverlapFinding>, container: seq<ContainerFinding>, viewport: seq<ViewportFinding>,
                                        f: ContainerFinding, k: nat)
    requires k <= |container|
    ensures var more := container[..k] + [f] + container[k..];
      && Score(overlap, more, viewport) <= Score(overlap, container, viewport)
      && (Score(overlap, container, viewport) > 0.0 ==> Score(overlap, more, viewport) < Score(overlap, container, viewport))
  {
    assert [f][..0] == [];
    ContainerPenaltiesAppend(container[..k], [f]);
    ContainerPenaltiesAppend(container[..k] + [f], container[k..]);
    ContainerPenaltiesAppend(container[..k], container[k..]);
    assert container[..k] + container[k..] == container;
  }

  /** The same for one more viewport overflow, inserted anywhere. */
  lemma MoreViewportOverflowNeverHelps(overlap: seq<OverlapFinding>, container: seq<ContainerFinding>, viewport: seq<ViewportFinding>,
                                       f: ViewportFinding, k: nat)
    requires k <= |viewport|
    ensures var more := viewport[..k] + [f] + viewport[k..];
      && Score(overlap, container, more) <= Score(overlap, container, viewport)
      && (Score(overlap, container, viewport) > 0.0 ==> Score(overlap, container, more) < Score(overlap, container, viewport))
  {
    assert [f][..0] == [];
    ViewportPenaltiesAppend(viewport[..k], [f]);
    ViewportPenaltiesAppend(viewport[..k] + [f], viewport[k..]);
    ViewportPenaltiesAppend(viewport[..k], viewport[k..]);
    assert viewport[..k] + viewport[k..] == viewport;
  }
}
