/**
 * Merging the analyses of the chunks of one long transcript
 * (`mergeAnalysisResults`, project/src/lib/transcription.ts:29-55).
 *
 * Problems and solutions are concatenated across the results and then
 * de-duplicated the way `Array.from(new Set(xs))` does it: first occurrence
 * wins and keeps its place.  The temperature is `Math.round` of the mean and
 * the summary is the non-empty summaries joined by a blank line.
 */
module Merge {
  import opened Types
  import opened Text

  predicate NoDup<T(==)>(r: seq<T>)
  {
    forall i, j :: 0 <= i < j < |r| ==> r[i] != r[j]
  }

  /** `Array.from(new Set(xs))`: the distinct elements of `xs` in first-seen order. */
  function Dedup(xs: seq<string>): (r: seq<string>)
    ensures forall x :: x in r <==> x in xs
    ensures NoDup(r)
    ensures |r| <= |xs|
    decreases |xs|
  {
    if |xs| == 0 then []
    else
      var d := Dedup(xs[..|xs| - 1]);
      assert forall x :: x in xs <==> x in xs[..|xs| - 1] || x == xs[|xs| - 1] by {
        assert xs == xs[..|xs| - 1] + [xs[|xs| - 1]];
      }
      if xs[|xs| - 1] in d then d else d + [xs[|xs| - 1]]
  }

  /**
   * First-seen order: whenever `r[i]` comes before `r[j]` in the result,
   * `r[i]` already occurred in `xs` before any occurrence of `r[j]`.
   */
  lemma {:induction false} DedupFirstSeen(xs: seq<string>, i: nat, j: nat, k: nat)
    requires i < j < |Dedup(xs)|
    requires k < |xs| && xs[k] == Dedup(xs)[j]
    ensures Dedup(xs)[i] in xs[..k]
    decreases |xs|
  {
    var n := |xs|;
    var front := xs[..n - 1];
    var d := Dedup(front);
    var r := Dedup(xs);
    assert r[i] in d by {
      if xs[n - 1] !in d {
        assert r == d + [xs[n - 1]];
      }
    }
    if k < n - 1 {
      if j < |d| {
        assert r[j] == d[j] && r[i] == d[i] by {
          if xs[n - 1] !in d {
            assert r == d + [xs[n - 1]];
          }
        }
        assert front[k] == d[j];
        DedupFirstSeen(front, i, j, k);
        assert front[..k] == xs[..k];
      } else {
        // r[j] is the newly added last element, which does not occur in the front
        assert false;
      }
    } else {
      assert xs[..k] == front;
    }
  }

  /** Every problem (or solution) of every result, in order. */
  function AllProblems(results: seq<Analysis>): seq<string>
  {
    if |results| == 0 then [] else AllProblems(results[..|results| - 1]) + results[|results| - 1].problems
  }

  function AllSolutions(results: seq<Analysis>): seq<string>
  {
    if |results| == 0 then [] else AllSolutions(results[..|results| - 1]) + results[|results| - 1].solutions
  }

  function SumTemperatures(results: seq<Analysis>): int
  {
    if |results| == 0 then 0 else SumTemperatures(results[..|results| - 1]) + results[|results| - 1].temperature
  }

  /** `Math.round(sum / n)`: round half up, i.e. the floor of `sum / n + 1/2`. */
  function RoundedMean(sum: int, n: int): (r: int)
    requires n > 0
    ensures 2 * n * r <= 2 * sum + n < 2 * n * (r + 1)
  {
    (2 * sum + n) / (2 * n)
  }

  lemma {:induction false} SumBounds(results: seq<Analysis>, lo: int, hi: int)
    requires forall k :: 0 <= k < |results| ==> lo <= results[k].temperature <= hi
    ensures |results| * lo <= SumTemperatures(results) <= |results| * hi
    decreases |results|
  {
    if |results| > 0 {
      SumBounds(results[..|results| - 1], lo, hi);
    }
  }

  lemma MulMonotone(c: int, a: int, b: int)
    requires c >= 0 && a <= b
    ensures c * a <= c * b
  {
    assert c * b - c * a == c * (b - a);
  }

  /** The rounded mean of temperatures in `[lo, hi]` is again in `[lo, hi]`. */
  lemma MeanWithinBounds(results: seq<Analysis>, lo: int, hi: int)
    requires |results| > 0
    requires forall k :: 0 <= k < |results| ==> lo <= results[k].temperature <= hi
    ensures lo <= RoundedMean(SumTemperatures(results), |results|) <= hi
  {
    SumBounds(results, lo, hi);
    RoundedMeanBetween(SumTemperatures(results), |results|, lo, hi);
  }

  /** A sum of `n` values in `[lo, hi]`, divided by `n` and rounded, stays in `[lo, hi]`. */
  lemma RoundedMeanBetween(s: int, n: int, lo: int, hi: int)
    requires n > 0 && n * lo <= s <= n * hi
    ensures lo <= RoundedMean(s, n) <= hi
  {
    var q := RoundedMean(s, n);
    assert 2 * n * lo == 2 * (n * lo);
    assert 2 * n * (hi + 1) == 2 * (n * hi) + 2 * n;
    if q < lo {
      MulMonotone(2 * n, q + 1, lo);
      assert false;
    }
    if q > hi {
      MulMonotone(2 * n, hi + 1, q);
      assert false;
    }
  }

  /** Temperatures 4 and 8 merge to 6; 4 and 5 merge to 5 (4.5 rounds up). */
  lemma RoundedMeanExamples()
    ensures RoundedMean(4 + 8, 2) == 6
    ensures RoundedMean(4 + 5, 2) == 5
    ensures RoundedMean(-5, 2) == -2
  {
  }

  /** `.map(r => r.summary).filter(Boolean)`. */
  function Summaries(results: seq<Analysis>): (r: seq<string>)
    ensures forall k :: 0 <= k < |r| ==> r[k] != ""
  {
    if |results| == 0 then []
    else
      var rest := Summaries(results[..|results| - 1]);
      if results[|results| - 1].summary == "" then rest else rest + [results[|results| - 1].summary]
  }

  lemma {:induction false} JoinNonEmpty(sep: string, parts: seq<string>)
    requires forall k :: 0 <= k < |parts| ==> parts[k] != ""
    ensures Join(sep, parts) == "" <==> parts == []
  {
    if parts != [] {
      JoinStartsWith(sep, parts);
    }
  }

  lemma {:induction false} SummariesEmpty(results: seq<Analysis>)
    ensures Summaries(results) == [] <==> forall k :: 0 <= k < |results| ==> results[k].summary == ""
    decreases |results|
  {
    if |results| > 0 {
      var front := results[..|results| - 1];
      SummariesEmpty(front);
      assert forall k :: 0 <= k < |front| ==> front[k] == results[k];
    }
  }

  /** The merged summary is empty exactly when every chunk's summary is empty. */
  lemma MergedSummaryEmpty(results: seq<Analysis>)
    ensures Join("\n\n", Summaries(results)) == "" <==> forall k :: 0 <= k < |results| ==> results[k].summary == ""
  {
    JoinNonEmpty("\n\n", Summaries(results));
    SummariesEmpty(results);
  }

  /** The analysis `mergeAnalysisResults` builds from a non-empty list. */
  function Merged(results: seq<Analysis>): Analysis
    requires |results| > 0
  {
    Analysis(Dedup(AllProblems(results)), Dedup(AllSolutions(results)),
             RoundedMean(SumTemperatures(results), |results|), Join("\n\n", Summaries(results)))
  }

  /**
   * The merge itself.  The source divides by `results.length`, so the
   * temperature is only a number for a non-empty list; its one caller merges
   * only when at least one chunk produced an analysis.
   */
  method MergeAnalysisResults(results: seq<Analysis>) returns (merged: Analysis)
    requires |results| > 0
    ensures merged.problems == Dedup(AllProblems(results))
    ensures merged.solutions == Dedup(AllSolutions(results))
    ensures merged.temperature == RoundedMean(SumTemperatures(results), |results|)
    ensures merged.summary == Join("\n\n", Summaries(results))
    ensures merged == Merged(results)
  {
    var problems: seq<string> := [];
    var solutions: seq<string> := [];
    var i := 0;
    while i < |results|
      invariant i <= |results|
      invariant problems == AllProblems(results[..i])
      invariant solutions == AllSolutions(results[..i])
    {
      assert results[..i + 1][..i] == results[..i];
      problems := problems + results[i].problems;
      solutions := solutions + results[i].solutions;
      i := i + 1;
    }
    assert results[..i] == results;
    merged := Analysis(Dedup(problems), Dedup(solutions), RoundedMean(SumTemperatures(results), |results|), Join("\n\n", Summaries(results)));
  }
}
