/** app/services/crawl_schedule.py: the interval a source is crawled at, and the daily full read of
    an uncapped board. */
module CrawlSchedule {
  import opened Base
  import opened Rounding

  /** Seconds. */
  type Moment = int

  /** crawl_min_interval_minutes and crawl_max_interval_minutes, with their default values. */
  datatype Limits = Limits(least: nat, most: nat)

  const DEFAULTS := Limits(120, 4320)

  predicate InRange(l: Limits, minutes: int) {
    l.least <= minutes <= l.most
  }

  function ClampInterval(l: Limits, minutes: real): int {
    var rounded := Round(minutes);
    var capped := if rounded < l.most then rounded else l.most;
    if l.least >= capped then l.least else capped
  }

  /** next_interval: halved by new jobs, grown by half without, kept when the listing failed. */
  function NextInterval(l: Limits, current: int, newCount: nat, listingFailed: bool): int {
    if listingFailed then ClampInterval(l, current as real)
    else ClampInterval(l, current as real * (if newCount > 0 then 0.5 else 1.5))
  }

  /** Every crawl leaves the interval in range, from whatever value it had; a failed listing does
      not move one already in range; new jobs never lengthen it and their absence never shortens
      it. */
  lemma {:induction false} IntervalInRange(l: Limits, current: int, newCount: nat, listingFailed: bool)
    requires l.least <= l.most
    ensures InRange(l, NextInterval(l, current, newCount, listingFailed))
    ensures listingFailed && InRange(l, current) ==> NextInterval(l, current, newCount, listingFailed) == current
    ensures !listingFailed && newCount > 0 && InRange(l, current) ==> NextInterval(l, current, newCount, false) <= current
    ensures !listingFailed && newCount == 0 && InRange(l, current) ==> NextInterval(l, current, newCount, false) >= current
  {
    RoundOfInt(current);
    if 0 <= current {
      RoundMonotone(current as real * 0.5, current as real);
      RoundMonotone(current as real, current as real * 1.5);
    }
  }

  /** The nearest whole minute (a half to the even one) to half of the interval when a crawl found
      something, to one and a half of it when it found nothing, and to itself when the listing failed,
      but no more than the most and no less than the least. */
  lemma {:induction false} NextExactly(l: Limits, current: int, newCount: nat, listingFailed: bool, n: int)
    requires IsNearest(n, if listingFailed then current as real
                          else if newCount > 0 then current as real / 2.0 else 3.0 * current as real / 2.0)
    ensures NextInterval(l, current, newCount, listingFailed) ==
            if n > l.most then (if l.least > l.most then l.least else l.most)
            else if n < l.least then l.least else n
  {
    var x := if listingFailed then current as real else current as real * (if newCount > 0 then 0.5 else 1.5);
    RoundIsNearest(x);
  }

  // ---------------------------------------------------------------- runs of crawls

  datatype Crawl = Failed | Listed(newCount: nat)

  function After(l: Limits, current: int, crawls: seq<Crawl>): int {
    if crawls == [] then current
    else
      var before := After(l, current, crawls[..|crawls| - 1]);
      match crawls[|crawls| - 1]
      case Failed => NextInterval(l, before, 0, true)
      case Listed(n) => NextInterval(l, before, n, false)
  }

  lemma {:induction false} RunInRange(l: Limits, current: int, crawls: seq<Crawl>)
    requires l.least <= l.most
    ensures crawls != [] || InRange(l, current) ==> InRange(l, After(l, current, crawls))
  {
    if crawls != [] {
      var before := After(l, current, crawls[..|crawls| - 1]);
      match crawls[|crawls| - 1]
      case Failed => IntervalInRange(l, before, 0, true);
      case Listed(n) => IntervalInRange(l, before, n, false);
    }
  }

  predicate Busy(crawls: seq<Crawl>) {
    forall i :: 0 <= i < |crawls| ==> crawls[i].Listed? && crawls[i].newCount > 0
  }

  predicate Quiet(crawls: seq<Crawl>) {
    forall i :: 0 <= i < |crawls| ==> crawls[i] == Listed(0)
  }

  function Power(base: nat, k: nat): nat {
    if k == 0 then 1 else base * Power(base, k - 1)
  }

  lemma {:induction false} PowerPositive(base: nat, k: nat)
    requires base > 0
    ensures Power(base, k) > 0
  {
    if k > 0 {
      PowerPositive(base, k - 1);
    }
  }

  /** Halving with halves to even gains at most half a minute. */
  lemma {:induction false} HalfAtMost(l: Limits, c: int)
    requires InRange(l, c)
    ensures NextInterval(l, c, 1, false) == l.least || 2 * (NextInterval(l, c, 1, false) - 1) <= c - 1
  {
    var x := c as real * 0.5;
    assert 2.0 * x == c as real;
    assert 2.0 * Round(x) as real <= c as real + 1.0;
  }

  /** Growing loses at most half a minute. */
  lemma {:induction false} GrowAtLeast(l: Limits, c: int)
    requires InRange(l, c)
    ensures NextInterval(l, c, 0, false) == l.most || 2 * (NextInterval(l, c, 0, false) - 1) >= 3 * (c - 1)
  {
    var x := c as real * 1.5;
    assert 2.0 * x == 3.0 * c as real;
    assert 2.0 * Round(x) as real >= 3.0 * c as real - 1.0;
  }

  /** How far k halvings have brought an interval that was c. */
  predicate Shrunk(l: Limits, c: int, e: int, k: nat) {
    e == l.least || Power(2, k) * (e - 1) <= c - 1
  }

  lemma {:induction false} BusyStep(l: Limits, c: int, e: int, newCount: nat, k: nat)
    requires InRange(l, e) && Shrunk(l, c, e, k) && newCount > 0
    ensures Shrunk(l, c, NextInterval(l, e, newCount, false), k + 1)
  {
    var e' := NextInterval(l, e, 1, false);
    HalfAtMost(l, e);
    IntervalInRange(l, e, 1, false);
    if e' != l.least {
      Doubled(Power(2, k), e, e', c);
    }
  }

  lemma {:induction false} Doubled(p: nat, e: int, e': int, c: int)
    requires p * (e - 1) <= c - 1
    requires 2 * (e' - 1) <= e - 1
    ensures (2 * p) * (e' - 1) <= c - 1
  {
    Scale(p, 2 * (e' - 1), e - 1);
    assert p * (2 * (e' - 1)) == (2 * p) * (e' - 1);
  }

  lemma {:induction false} BusyShrinks(l: Limits, c: int, crawls: seq<Crawl>)
    requires InRange(l, c) && Busy(crawls)
    ensures InRange(l, After(l, c, crawls))
    ensures Shrunk(l, c, After(l, c, crawls), |crawls|)
  {
    RunInRange(l, c, crawls);
    if crawls != [] {
      var n := |crawls| - 1;
      BusyShrinks(l, c, crawls[..n]);
      BusyStep(l, c, After(l, c, crawls[..n]), crawls[n].newCount, n);
    }
  }

  lemma {:induction false} Scale(p: nat, x: int, y: int)
    requires x <= y
    ensures p * x <= p * y
  {
    assert p * y - p * x == p * (y - x);
  }

  lemma {:induction false} ScaleStrictly(p: nat, x: int, y: int)
    requires p > 0 && x < y
    ensures p * x < p * y
  {
    assert p * y - p * x == p * (y - x);
  }

  /** k crawls that each find something bring any interval in range to the minimum, once 2^k times
      the minimum covers the maximum. */
  lemma {:induction false} BusyReachesLeast(l: Limits, c: int, crawls: seq<Crawl>)
    requires InRange(l, c) && Busy(crawls)
    requires l.most <= Power(2, |crawls|) * l.least
    ensures After(l, c, crawls) == l.least
  {
    BusyShrinks(l, c, crawls);
    var p, e := Power(2, |crawls|), After(l, c, crawls);
    PowerPositive(2, |crawls|);
    if e != l.least {
      Scale(p, l.least, e - 1);
    }
  }

  /** How far k crawls that found nothing have brought an interval that was c. */
  predicate Grown(l: Limits, c: int, e: int, k: nat) {
    e == l.most || Power(2, k) * (e - 1) >= Power(3, k) * (c - 1)
  }

  lemma {:induction false} QuietStep(l: Limits, c: int, e: int, k: nat)
    requires InRange(l, e) && Grown(l, c, e, k)
    ensures Grown(l, c, NextInterval(l, e, 0, false), k + 1)
  {
    var e' := NextInterval(l, e, 0, false);
    GrowAtLeast(l, e);
    IntervalInRange(l, e, 0, false);
    if e' != l.most {
      Tripled(Power(2, k), Power(3, k), e, e', c);
    }
  }

  lemma {:induction false} Tripled(p: nat, q: nat, e: int, e': int, c: int)
    requires p * (e - 1) >= q * (c - 1)
    requires 2 * (e' - 1) >= 3 * (e - 1)
    ensures (2 * p) * (e' - 1) >= (3 * q) * (c - 1)
  {
    Scale(p, 3 * (e - 1), 2 * (e' - 1));
    assert p * (3 * (e - 1)) == 3 * (p * (e - 1));
    assert p * (2 * (e' - 1)) == (2 * p) * (e' - 1);
    assert 3 * (q * (c - 1)) == (3 * q) * (c - 1);
  }

  lemma {:induction false} QuietGrows(l: Limits, c: int, crawls: seq<Crawl>)
    requires InRange(l, c) && Quiet(crawls)
    ensures InRange(l, After(l, c, crawls))
    ensures Grown(l, c, After(l, c, crawls), |crawls|)
  {
    RunInRange(l, c, crawls);
    if crawls != [] {
      var n := |crawls| - 1;
      QuietGrows(l, c, crawls[..n]);
      QuietStep(l, c, After(l, c, crawls[..n]), n);
    }
  }

  /** k crawls that find nothing bring an interval c to the maximum, once (3/2)^k times c - 1 covers
      the maximum less one. */
  lemma {:induction false} QuietReachesMost(l: Limits, c: int, crawls: seq<Crawl>)
    requires InRange(l, c) && Quiet(crawls)
    requires Power(2, |crawls|) * (l.most - 1) <= Power(3, |crawls|) * (c - 1)
    ensures After(l, c, crawls) == l.most
  {
    QuietGrows(l, c, crawls);
    var p, e := Power(2, |crawls|), After(l, c, crawls);
    PowerPositive(2, |crawls|);
    if e != l.most {
      ScaleStrictly(p, e - 1, l.most - 1);
    }
  }

  /** With the default limits six busy crawls reach two hours and nine quiet ones three days, from
      anywhere in range. */
  lemma {:induction false} DefaultsConverge(c: int, crawls: seq<Crawl>)
    requires 120 <= c <= 4320
    ensures |crawls| == 6 && Busy(crawls) ==> After(DEFAULTS, c, crawls) == 120
    ensures |crawls| == 9 && Quiet(crawls) ==> After(DEFAULTS, c, crawls) == 4320
  {
    if |crawls| == 6 && Busy(crawls) {
      assert Power(2, 3) == 8 && Power(2, 6) == 64;
      BusyReachesLeast(DEFAULTS, c, crawls);
    }
    if |crawls| == 9 && Quiet(crawls) {
      assert Power(2, 3) == 8 && Power(2, 6) == 64 && Power(2, 9) == 512;
      assert Power(3, 3) == 27 && Power(3, 6) == 729 && Power(3, 9) == 19683;
      QuietReachesMost(DEFAULTS, c, crawls);
    }
  }

  /** Rounding a half to even never traps an interval short of the maximum, but for 0. */
  lemma {:induction false} OnlyZeroIsStuck(l: Limits, c: int)
    requires InRange(l, c) && c < l.most
    ensures NextInterval(l, c, 0, false) == c <==> c == 0
  {
    if c == 1 {
      HalfToEven(1);
      assert 1 as real * 1.5 == 1 as real + 0.5;
    } else if c > 1 {
      GrowAtLeast(l, c);
    } else {
      RoundOfInt(0);
    }
  }

  // ---------------------------------------------------------------- the daily full read

  const FULL_READ_EVERY: int := 20 * 3600
  const FULL_READ_DAY_START: nat := 8 * 60
  const FULL_READ_DAY_MINUTES: nat := 12 * 60

  /** US Eastern: the day of a moment, when that day began, and the wall clock's seconds since
      midnight. */
  datatype Zone = Zone(dayOf: Moment -> int, startOf: int -> Moment, wall: Moment -> int)

  /** Days follow each other without a gap, none is longer than 25 hours, and the wall clock is at
      most an hour ahead of the time since midnight. */
  ghost predicate ValidZone(z: Zone) {
    && (forall t :: z.startOf(z.dayOf(t)) <= t < z.startOf(z.dayOf(t) + 1))
    && (forall d :: z.startOf(d + 1) <= z.startOf(d) + 25 * 3600)
    && (forall t :: z.wall(t) <= t - z.startOf(z.dayOf(t)) + 3600)
  }

  /** full_read_slot: minutes after midnight, from a hash of the source's id. */
  function FullReadSlot(id: nat): (minutes: nat)
    ensures FULL_READ_DAY_START <= minutes < FULL_READ_DAY_START + FULL_READ_DAY_MINUTES
  {
    FULL_READ_DAY_START + id % FULL_READ_DAY_MINUTES
  }

  predicate FullReadDue(z: Zone, id: nat, last: Option<Moment>, now: Moment) {
    if last.Some? && now - last.value < FULL_READ_EVERY then false
    else z.wall(now) >= FullReadSlot(id) * 60
  }

  /** When the whole board is read: from the source's own minute between eight in the morning and
      eight in the evening, and not within twenty hours of the last time. */
  lemma {:induction false} DueExactly(z: Zone, id: nat, last: Option<Moment>, now: Moment)
    ensures FullReadDue(z, id, last, now) <==>
              && (last.None? || now - last.value >= 72_000)
              && z.wall(now) >= 60 * (480 + id % 720)
  {
  }

  /** Two moments both past eight in the morning and twenty hours apart are on different days. */
  lemma {:induction false} OneReadADay(z: Zone, id: nat, last: Moment, now: Moment)
    requires ValidZone(z)
    requires z.wall(last) >= FullReadSlot(id) * 60 && FullReadDue(z, id, Some(last), now)
    ensures z.dayOf(last) != z.dayOf(now)
  {
    var d := z.dayOf(last);
    assert last >= z.startOf(d) + 7 * 3600;
    assert z.startOf(d + 1) <= z.startOf(d) + 25 * 3600;
    assert now < z.startOf(z.dayOf(now) + 1);
  }
}
