/** app/services/coverage_monitor.py: a running baseline of how many URLs a crawl lists, and a flag
    for a sustained drop below it. */
module Coverage {
  import opened Base
  import opened Rounding

  type Moment = int

  const MIN_CRAWLS_FOR_BASELINE := 5
  const COVERAGE_DROP_THRESHOLD := 0.5
  const SUSTAINED_CRAWLS_TO_FLAG := 3
  const EWMA_ALPHA := 0.3

  /** The coverage_* columns. */
  datatype State = State(
    lastCount: Option<nat>, baseline: Option<real>, sampleCount: Option<nat>, lowStreak: Option<nat>,
    flaggedAt: Option<Moment>)

  /** A stored row before its first crawl, and an object not saved yet. */
  const FRESH := State(None, None, Some(0), Some(0), None)
  const UNSAVED := State(None, None, None, None, None)

  function OrZero(n: Option<nat>): nat {
    if n.Some? then n.value else 0
  }

  function OrZeroReal(x: Option<real>): real {
    if x.Some? then x.value else 0.0
  }

  /** One successful capped crawl. */
  datatype Reading = Reading(count: nat, at: Moment)

  /** Whether a reading of this many URLs is low in this state. */
  predicate IsLow(s: State, count: nat) {
    && OrZero(s.sampleCount) >= MIN_CRAWLS_FOR_BASELINE
    && OrZeroReal(s.baseline) > 0.0
    && count as real < OrZeroReal(s.baseline) * COVERAGE_DROP_THRESHOLD
  }

  function Updated(s: State, r: Reading): State {
    var samples := OrZero(s.sampleCount);
    var baseline := OrZeroReal(s.baseline);
    if samples < MIN_CRAWLS_FOR_BASELINE then
      State(Some(r.count), Some(baseline + (r.count as real - baseline) / (samples + 1) as real),
            Some(samples + 1), Some(0), None)
    else if IsLow(s, r.count) then
      var streak := OrZero(s.lowStreak) + 1;
      State(Some(r.count), s.baseline, Some(samples + 1), Some(streak),
            if streak >= SUSTAINED_CRAWLS_TO_FLAG && s.flaggedAt.None? then Some(r.at) else s.flaggedAt)
    else
      State(Some(r.count), Some(baseline + EWMA_ALPHA * (r.count as real - baseline)), Some(samples + 1), Some(0), None)
  }

  class Monitor {
    var coverageLastCount: Option<nat>
    var coverageBaseline: Option<real>
    var coverageSampleCount: Option<nat>
    var coverageLowStreak: Option<nat>
    var coverageFlaggedAt: Option<Moment>

    constructor ()
      ensures View() == FRESH
    {
      coverageLastCount, coverageBaseline, coverageSampleCount := None, None, Some(0);
      coverageLowStreak, coverageFlaggedAt := Some(0), None;
    }

    ghost function View(): State
      reads this
    {
      State(coverageLastCount, coverageBaseline, coverageSampleCount, coverageLowStreak, coverageFlaggedAt)
    }

    /** update_coverage */
    method UpdateCoverage(discoveredCount: nat, now: Moment)
      modifies this
      ensures View() == Updated(old(View()), Reading(discoveredCount, now))
    {
      coverageLastCount := Some(discoveredCount);
      var samples := OrZero(coverageSampleCount);
      var streak := OrZero(coverageLowStreak);
      var count := discoveredCount as real;
      if samples < MIN_CRAWLS_FOR_BASELINE {
        var prior := OrZeroReal(coverageBaseline);
        coverageBaseline := Some(prior + (count - prior) / (samples + 1) as real);
        coverageSampleCount := Some(samples + 1);
        coverageLowStreak := Some(0);
        coverageFlaggedAt := None;
        return;
      }
      var baseline := OrZeroReal(coverageBaseline);
      var low := baseline > 0.0 && count < baseline * COVERAGE_DROP_THRESHOLD;
      coverageSampleCount := Some(samples + 1);
      if low {
        coverageLowStreak := Some(streak + 1);
        if streak + 1 >= SUSTAINED_CRAWLS_TO_FLAG && coverageFlaggedAt.None? {
          coverageFlaggedAt := Some(now);
        }
      } else {
        coverageLowStreak := Some(0);
        coverageFlaggedAt := None;
        coverageBaseline := Some(baseline + EWMA_ALPHA * (count - baseline));
      }
    }
  }

  // ---------------------------------------------------------------- runs

  function After(h: seq<Reading>): State {
    if h == [] then FRESH else Updated(After(h[..|h| - 1]), h[|h| - 1])
  }

  /** Whether reading i of a history was low when it was taken. */
  predicate Low(h: seq<Reading>, i: nat)
    requires i < |h|
  {
    IsLow(After(h[..i]), h[i].count)
  }

  /** The counts of the readings that were not low. */
  function Fed(h: seq<Reading>): seq<nat> {
    if h == [] then []
    else
      var before := h[..|h| - 1];
      if Low(h, |h| - 1) then Fed(before) else Fed(before) + [h[|h| - 1].count]
  }

  function Sum(counts: seq<nat>): nat {
    if counts == [] then 0 else Sum(counts[..|counts| - 1]) + counts[|counts| - 1]
  }

  /** The mean of the first five counts, smoothed by every later one. */
  function Smoothed(counts: seq<nat>): real
    requires counts != []
  {
    if |counts| <= 5 then Sum(counts) as real / |counts| as real
    else
      var before := Smoothed(counts[..|counts| - 1]);
      0.7 * before + 0.3 * counts[|counts| - 1] as real
  }

  lemma {:induction false} Prefixes(h: seq<Reading>, i: nat, j: nat)
    requires i <= j <= |h|
    ensures h[..j][..i] == h[..i]
  {
  }

  /** A step of the running mean is the mean. */
  lemma {:induction false} MeanStep(sum: nat, n: nat, count: nat)
    requires n > 0
    ensures sum as real / n as real + (count as real - sum as real / n as real) / (n + 1) as real
         == (sum + count) as real / (n + 1) as real
  {
    var mean := sum as real / n as real;
    assert mean * n as real == sum as real;
    var next := mean + (count as real - mean) / (n + 1) as real;
    assert (count as real - mean) / (n + 1) as real * (n + 1) as real == count as real - mean;
    assert next * (n + 1) as real == mean * (n + 1) as real + (count as real - mean);
    assert mean * (n + 1) as real == mean * n as real + mean;
    assert next * (n + 1) as real == (sum + count) as real;
  }

  /** During the build-up the baseline is the exact mean of every count so far. */
  lemma {:induction false} BuildUpIsTheMean(h: seq<Reading>)
    requires 0 < |h| <= 5
    ensures |Fed(h)| == |h| && forall i :: 0 <= i < |h| ==> Fed(h)[i] == h[i].count
    ensures After(h).sampleCount == Some(|h|)
    ensures After(h).baseline == Some(Sum(Fed(h)) as real / |h| as real)
  {
    var before := h[..|h| - 1];
    if before == [] {
      assert Fed(h) == [h[0].count];
    } else {
      BuildUpIsTheMean(before);
      MeanStep(Sum(Fed(before)), |before|, h[|h| - 1].count);
      assert Fed(h)[..|h| - 1] == Fed(before);
    }
  }

  /** One reading after the build-up: smoothed in unless it was low. */
  lemma {:induction false} SmoothedStep(before: seq<Reading>, r: Reading)
    requires |before| >= MIN_CRAWLS_FOR_BASELINE && After(before).sampleCount == Some(|before|)
    requires |Fed(before)| >= MIN_CRAWLS_FOR_BASELINE && After(before).baseline == Some(Smoothed(Fed(before)))
    ensures var h := before + [r];
            && After(h).sampleCount == Some(|h|) && |Fed(h)| >= MIN_CRAWLS_FOR_BASELINE
            && After(h).baseline == Some(Smoothed(Fed(h)))
  {
    var h := before + [r];
    assert h[..|h| - 1] == before;
    if !Low(h, |h| - 1) {
      assert Fed(h)[..|Fed(h)| - 1] == Fed(before);
    }
  }

  /** Main result for the baseline: it is the smoothed mean of the counts that were not low, so a
      low reading leaves no trace in it. */
  lemma {:induction false} BaselineIsSmoothedFed(h: seq<Reading>)
    requires h != []
    ensures Fed(h) != []
    ensures After(h).sampleCount == Some(|h|)
    ensures |h| >= MIN_CRAWLS_FOR_BASELINE ==> |Fed(h)| >= MIN_CRAWLS_FOR_BASELINE
    ensures After(h).baseline == Some(Smoothed(Fed(h)))
  {
    if |h| <= MIN_CRAWLS_FOR_BASELINE {
      BuildUpIsTheMean(h);
    } else {
      var before := h[..|h| - 1];
      BaselineIsSmoothedFed(before);
      SmoothedStep(before, h[|h| - 1]);
      assert before + [h[|h| - 1]] == h;
    }
  }

  /** n times k, without a product. */
  function Times(k: nat, n: nat): nat {
    if n == 0 then 0 else Times(k, n - 1) + k
  }

  lemma {:induction false} TimesIsProduct(k: nat, n: nat)
    ensures Times(k, n) as real == k as real * n as real
  {
    if n > 0 {
      TimesIsProduct(k, n - 1);
      assert k as real * n as real == k as real * (n - 1) as real + k as real;
    }
  }

  lemma {:induction false} SumBetween(counts: seq<nat>, lo: nat, hi: nat)
    requires forall i :: 0 <= i < |counts| ==> lo <= counts[i] <= hi
    ensures Times(lo, |counts|) <= Sum(counts) <= Times(hi, |counts|)
  {
    if counts != [] {
      SumBetween(counts[..|counts| - 1], lo, hi);
    }
  }

  lemma {:induction false} MeanAtLeast(sum: nat, n: nat, lo: nat)
    requires n > 0 && Times(lo, n) <= sum
    ensures lo as real <= sum as real / n as real
  {
    TimesIsProduct(lo, n);
    QuotientAgainst(sum as real, n as real, lo as real);
  }

  lemma {:induction false} MeanAtMost(sum: nat, n: nat, hi: nat)
    requires n > 0 && sum <= Times(hi, n)
    ensures sum as real / n as real <= hi as real
  {
    TimesIsProduct(hi, n);
    QuotientAgainst(sum as real, n as real, hi as real);
  }

  lemma {:induction false} SmoothedBetween(counts: seq<nat>, lo: nat, hi: nat)
    requires counts != []
    requires forall i :: 0 <= i < |counts| ==> lo <= counts[i] <= hi
    ensures lo as real <= Smoothed(counts) <= hi as real
  {
    if |counts| <= MIN_CRAWLS_FOR_BASELINE {
      SumBetween(counts, lo, hi);
      MeanAtLeast(Sum(counts), |counts|, lo);
      MeanAtMost(Sum(counts), |counts|, hi);
    } else {
      SmoothedBetween(counts[..|counts| - 1], lo, hi);
    }
  }

  /** The baseline stays between the least and the greatest count that fed it. */
  lemma {:induction false} BaselineBetween(h: seq<Reading>, lo: nat, hi: nat)
    requires h != []
    requires forall i :: 0 <= i < |Fed(h)| ==> lo <= Fed(h)[i] <= hi
    ensures After(h).baseline.Some? && lo as real <= After(h).baseline.value <= hi as real
  {
    BaselineIsSmoothedFed(h);
    SmoothedBetween(Fed(h), lo, hi);
  }

  /** A row that was never saved counts like a fresh one. */
  lemma {:induction false} UnsavedCountsAsFresh(r: Reading)
    ensures Updated(UNSAVED, r) == Updated(FRESH, r)
    ensures Updated(UNSAVED, r).baseline == Some(r.count as real)
  {
    assert Sum([r.count]) == r.count;
    BuildUpIsTheMean([r]);
  }

  /** The last k readings were low and the one before them, if any, was not. */
  predicate LowRun(h: seq<Reading>, k: nat) {
    && k <= |h|
    && (forall i: nat :: |h| - k <= i < |h| ==> Low(h, i))
    && (k < |h| ==> !Low(h, |h| - k - 1))
  }

  lemma {:induction false} LowInPrefix(h: seq<Reading>, n: nat, i: nat)
    requires i < n <= |h|
    ensures Low(h[..n], i) == Low(h, i)
  {
    Prefixes(h, i, n);
  }

  lemma {:induction false} LowRunStep(h: seq<Reading>, k: nat)
    requires h != [] && LowRun(h[..|h| - 1], k)
    ensures Low(h, |h| - 1) ==> LowRun(h, k + 1)
    ensures !Low(h, |h| - 1) ==> LowRun(h, 0)
  {
    var before := h[..|h| - 1];
    forall i: nat | i < |before|
      ensures Low(before, i) == Low(h, i)
    {
      LowInPrefix(h, |h| - 1, i);
    }
  }

  /** Main result for the flag: it is up exactly when the last three readings, or more, were low,
      and it carries the time of the third one of that run. */
  lemma {:induction false} FlaggedIffSustained(h: seq<Reading>)
    ensures LowRun(h, OrZero(After(h).lowStreak))
    ensures After(h).flaggedAt ==
            (var k := OrZero(After(h).lowStreak);
             if k >= 3 then Some(h[|h| - k + 2].at) else None)
  {
    if h != [] {
      var before := h[..|h| - 1];
      FlaggedIffSustained(before);
      LowRunStep(h, OrZero(After(before).lowStreak));
      assert After(h) == Updated(After(before), h[|h| - 1]);
    }
  }

  /** What low means, in the readings alone: from the sixth on, less than half of the smoothed mean of
      the earlier ones that were not low. */
  lemma {:induction false} LowIsBelowHalf(h: seq<Reading>, i: nat)
    requires i < |h|
    ensures i >= 5 ==> Fed(h[..i]) != []
    ensures Low(h, i) <==> i >= 5 && 2.0 * h[i].count as real < Smoothed(Fed(h[..i]))
  {
    if i > 0 {
      BaselineIsSmoothedFed(h[..i]);
    }
  }

  /** The flag in terms of the readings alone. */
  lemma {:induction false} FlaggedIffLastThreeLow(h: seq<Reading>)
    ensures After(h).flaggedAt.Some? <==>
            |h| >= 3 && Low(h, |h| - 1) && Low(h, |h| - 2) && Low(h, |h| - 3)
  {
    FlaggedIffSustained(h);
    var k := OrZero(After(h).lowStreak);
    if 3 <= |h| {
      if k < 3 {
        var i: nat := |h| - k - 1;
        assert !Low(h, i) && i in {|h| - 1, |h| - 2, |h| - 3};
      } else {
        assert forall i: nat :: |h| - 3 <= i < |h| ==> Low(h, i);
      }
    }
  }

  /** A board that drops below half its baseline and stays there keeps the baseline it had, however
      long it stays, and stays flagged from the third crawl on. */
  lemma {:induction false} DropIsNotForgotten(h: seq<Reading>, drop: seq<Reading>)
    requires |h| >= 5
    requires forall i :: 0 <= i < |drop| ==> 2.0 * drop[i].count as real < OrZeroReal(After(h).baseline)
    ensures After(h + drop).baseline == After(h).baseline
    ensures OrZero(After(h + drop).lowStreak) >= |drop|
    ensures |drop| >= 3 ==> After(h + drop).flaggedAt.Some?
  {
    if drop == [] {
      assert h + drop == h;
    } else {
      var fewer := drop[..|drop| - 1];
      DropIsNotForgotten(h, fewer);
      assert (h + drop)[..|h + drop| - 1] == h + fewer;
      BaselineIsSmoothedFed(h + fewer);
      FlaggedIffSustained(h + drop);
    }
  }
}
