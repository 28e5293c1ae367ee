/** collection_qualification.evaluate_jobs: a weighted score, gates it cannot buy past, and a
    recommendation. Scores are exact fractions here; the code rounds them as floats. */
module Qualification {
  import opened Base
  import opened Rounding
  import opened Dimensions
  import opened CollectionStats
  import CollectionLaws
  import JobCollections

  const INDEX_SCORE := 80
  const REVIEW_SCORE := 60
  const MIN_JOBS := 20
  const MIN_COMPANIES := 5
  const DAY := 86400

  datatype Issue = TooFewJobs | TooFewEmployers | OneEmployerDominates | NearDuplicate | Stale

  /** Each component's share of its full marks; a component that does not apply is None, as demand
      always is for now. */
  datatype Shares = Shares(
    inventory: real, diversity: Option<real>, freshness: real, quality: real, stability: real, uniqueness: real)

  datatype Evaluation = Evaluation(total: int, issues: set<Issue>, recommendation: JobCollections.Recommendation, openJobs: nat)

  function Share(value: real, full: real): real {
    if full <= 0.0 then 1.0 else if value / full < 1.0 then value / full else 1.0
  }

  function CountFrom(js: seq<Job>, employer: string): nat {
    |Filter(js, (j: Job) => Employer(j) == employer)|
  }

  /** Counter(...).most_common(1)[0][1], over the first n of the jobs */
  function TopCount(js: seq<Job>, n: nat): nat
    requires n <= |js|
  {
    if n == 0 then 0
    else
      var c, rest := CountFrom(js, Employer(js[n - 1])), TopCount(js, n - 1);
      if c > rest then c else rest
  }

  /** now - moment, on the Eastern wall clock */
  function Age(z: Zone, now: Moment, at: Moment): int {
    z.wall(now) - z.wall(at)
  }

  predicate Fresh(z: Zone, j: Job, now: Moment) {
    var from := Today(z, now) - 6;
    || z.dayOf(j.foundAt) >= from
    || (j.postedAt.Some? && from <= j.postedAt.value <= Today(z, now))
    || (j.lastSeenAt.Some? && Age(z, now, j.lastSeenAt.value) <= 2 * DAY)
  }

  function Complete(js: seq<Job>): nat {
    if js == [] then 0
    else
      var j := js[0];
      Complete(js[1..])
      + (if SalaryListed(j.salaryMin, j.salaryMax, j.currency) then 1 else 0)
      + (if j.workplace != Unknown then 1 else 0)
      + (if j.postedAt.Some? then 1 else 0)
      + (if j.metros != [] || j.workplace == Remote then 1 else 0)
  }

  predicate WeekHasNew(z: Zone, js: seq<Job>, now: Moment, w: int) {
    exists i :: 0 <= i < |js| && Age(z, now, js[i].foundAt) >= 0 && Age(z, now, js[i].foundAt) / (7 * DAY) == w
  }

  /** Which of the last four weeks brought a new job. */
  function FreshWeeks(z: Zone, js: seq<Job>, now: Moment): set<int> {
    set w | 0 <= w < 4 && WeekHasNew(z, js, now, w)
  }

  /** Nothing found or verified for more than 14 days. */
  predicate NothingRecent(z: Zone, js: seq<Job>, now: Moment) {
    forall i :: 0 <= i < |js| ==>
      && Age(z, now, js[i].foundAt) > 14 * DAY
      && (js[i].lastSeenAt.Some? ==> Age(z, now, js[i].lastSeenAt.value) > 14 * DAY)
  }

  function Concentration(topShare: real): real {
    if topShare <= 0.5 then 1.0 else (1.0 - topShare) / 0.5
  }

  /** Employer diversity, docked when one company dominates. */
  function Diversity(companies: nat, topShare: real): real {
    Share(companies as real, 20.0) * Concentration(topShare)
  }

  function Within(n: nat, parent: nat): real
    requires parent > 0
  {
    n as real / parent as real
  }

  /** The counts the components are computed from. */
  datatype Counts = Counts(n: nat, companies: nat, top: nat, recent: nat, complete: nat, weeks: nat)

  function CountsOf(z: Zone, js: seq<Job>, now: Moment): Counts {
    Counts(|js|, Calculate(z, js, [], now).companies, TopCount(js, |js|),
           |Filter(js, (j: Job) => Fresh(z, j, now))|, Complete(js), |FreshWeeks(z, js, now)|)
  }

  function TopShare(c: Counts): real {
    if c.n == 0 then 0.0 else c.top as real / c.n as real
  }

  function SharesFrom(c: Counts, parentSize: Option<nat>, singleEmployer: bool): Shares {
    Shares(
      Share(c.n as real, 100.0),
      if singleEmployer then None else Some(Diversity(c.companies, TopShare(c))),
      if c.n == 0 then 0.0 else Share(c.recent as real, c.n as real * 0.5),
      if c.n == 0 then 0.0 else c.complete as real / (4 * c.n) as real,
      c.weeks as real / 4.0,
      if parentSize.None? || parentSize.value == 0 then 1.0 else Share(1.0 - Within(c.n, parentSize.value), 0.5))
  }

  predicate Raises(i: Issue, c: Counts, recent: bool, parentSize: Option<nat>, singleEmployer: bool) {
    match i
    case TooFewJobs => c.n < MIN_JOBS
    case TooFewEmployers => !singleEmployer && c.companies < MIN_COMPANIES
    case OneEmployerDominates => !singleEmployer && TopShare(c) > 0.5
    case NearDuplicate => parentSize.Some? && parentSize.value > 0 && Within(c.n, parentSize.value) >= 0.9
    case Stale => c.n > 0 && !recent
  }

  /** round(x, 1) */
  function Tenths(x: real): real {
    Round(10.0 * x) as real / 10.0
  }

  /** The points of the components that always apply, out of 70. */
  function Points(s: Shares): real {
    Tenths(25.0 * s.inventory) + Tenths(20.0 * s.freshness) + Tenths(10.0 * s.quality)
    + Tenths(10.0 * s.stability) + Tenths(5.0 * s.uniqueness)
  }

  function Total(s: Shares): int {
    if s.diversity.Some? then Round(100.0 * (Points(s) + Tenths(15.0 * s.diversity.value)) / 85.0)
    else Round(100.0 * Points(s) / 70.0)
  }

  function Recommend(total: int, issues: set<Issue>): JobCollections.Recommendation {
    if total >= INDEX_SCORE && issues == {} then JobCollections.Index
    else if total >= REVIEW_SCORE then JobCollections.Review
    else JobCollections.BelowBar
  }

  function Evaluate(z: Zone, jobs: seq<Job>, now: Moment, parentSize: Option<nat>, singleEmployer: bool): Evaluation {
    var members := Filter(jobs, (j: Job) => !j.closed);
    var c := CountsOf(z, members, now);
    var total := Total(SharesFrom(c, parentSize, singleEmployer));
    var recent := !NothingRecent(z, members, now);
    var issues := set i: Issue | Raises(i, c, recent, parentSize, singleEmployer);
    Evaluation(total, issues, Recommend(total, issues), |members|)
  }

  // ---------------------------------------------------------------- laws

  predicate InUnit(x: real) {
    0.0 <= x <= 1.0
  }

  predicate AllInUnit(s: Shares) {
    && InUnit(s.inventory) && InUnit(s.freshness) && InUnit(s.quality) && InUnit(s.stability) && InUnit(s.uniqueness)
    && (s.diversity.Some? ==> InUnit(s.diversity.value))
  }

  lemma {:induction false} TenthsAtMost(x: real, n: int)
    requires x <= n as real
    ensures Tenths(x) <= n as real
  {
    RoundMonotone(10.0 * x, (10 * n) as real);
    RoundOfInt(10 * n);
  }

  lemma {:induction false} TenthsInRange(x: real, n: int)
    requires 0.0 <= x <= n as real
    ensures 0.0 <= Tenths(x) <= n as real
  {
    RoundMonotone(0.0, 10.0 * x);
    RoundOfInt(0);
    RoundMonotone(10.0 * x, (10 * n) as real);
    RoundOfInt(10 * n);
  }

  /** Points stay in range; a negative uniqueness can only lower them. */
  lemma {:induction false} PointsInRange(s: Shares)
    requires AllInUnit(s.(uniqueness := 0.0)) && s.uniqueness <= 1.0
    ensures Points(s) <= 65.0 + Tenths(5.0 * s.uniqueness) <= 70.0
    ensures 0.0 <= s.uniqueness ==> 0.0 <= Points(s)
  {
    TenthsInRange(25.0 * s.inventory, 25);
    TenthsInRange(20.0 * s.freshness, 20);
    TenthsInRange(10.0 * s.quality, 10);
    TenthsInRange(10.0 * s.stability, 10);
    TenthsAtMost(5.0 * s.uniqueness, 5);
    if 0.0 <= s.uniqueness {
      TenthsInRange(5.0 * s.uniqueness, 5);
    }
  }

  lemma {:induction false} RoundedInRange(x: real)
    ensures x <= 100.0 ==> Round(x) <= 100
    ensures 0.0 <= x ==> 0 <= Round(x)
    ensures x < -1.0 ==> Round(x) < 0
  {
    if 0.0 <= x {
      RoundMonotone(0.0, x);
    }
    if x <= 100.0 {
      RoundMonotone(x, 100.0);
    }
    RoundOfInt(0);
    RoundOfInt(100);
  }

  /** Full marks everywhere come to 100 and nothing goes past it, whichever components count; and
      only a negative uniqueness can bring the total below 0. */
  lemma {:induction false} TotalInRange(s: Shares)
    requires AllInUnit(s.(uniqueness := 0.0)) && s.uniqueness <= 1.0
    ensures Total(s) <= 100
    ensures 0.0 <= s.uniqueness ==> 0 <= Total(s)
    ensures s.uniqueness <= -18.0 ==> Total(s) < 0
  {
    PointsInRange(s);
    TenthsAtMost(5.0 * s.uniqueness, if s.uniqueness <= -18.0 then -90 else 5);
    if s.diversity.Some? {
      TenthsInRange(15.0 * s.diversity.value, 15);
      RoundedInRange(100.0 * (Points(s) + Tenths(15.0 * s.diversity.value)) / 85.0);
    } else {
      RoundedInRange(100.0 * Points(s) / 70.0);
    }
  }

  lemma {:induction false} FilterShorter<T>(s: seq<T>, p: T -> bool)
    ensures |Filter(s, p)| <= |s|
  {
    if s != [] {
      FilterShorter(s[1..], p);
    }
  }

  lemma {:induction false} TopCountInRange(js: seq<Job>, n: nat)
    requires n <= |js|
    ensures TopCount(js, n) <= |js|
  {
    if n > 0 {
      TopCountInRange(js, n - 1);
      FilterShorter(js, (j: Job) => Employer(j) == Employer(js[n - 1]));
    }
  }

  lemma {:induction false} CompleteInRange(js: seq<Job>)
    ensures Complete(js) <= 4 * |js|
  {
    if js != [] {
      CompleteInRange(js[1..]);
    }
  }

  lemma {:induction false} WeeksInRange(z: Zone, js: seq<Job>, now: Moment)
    ensures |FreshWeeks(z, js, now)| <= 4
  {
    var all := {0, 1, 2, 3};
    Subset(FreshWeeks(z, js, now), all);
  }

  lemma {:induction false} Subset(a: set<int>, b: set<int>)
    requires a <= b
    ensures |a| <= |b|
  {
    assert b == a + (b - a);
    assert |b| == |a| + |b - a|;
  }

  lemma {:induction false} Ratio(a: int, b: int)
    requires 0 <= a <= b && b > 0
    ensures InUnit(a as real / b as real)
  {
    QuotientAgainst(a as real, b as real, 0.0);
    QuotientAgainst(a as real, b as real, 1.0);
  }

  lemma {:induction false} Product(x: real, y: real)
    requires InUnit(x) && InUnit(y)
    ensures InUnit(x * y)
  {
    NotNegative(x, y);
    assert x - x * y == x * (1.0 - y);
    NotNegative(x, 1.0 - y);
  }

  lemma {:induction false} NotNegative(x: real, y: real)
    requires x >= 0.0 && y >= 0.0
    ensures x * y >= 0.0
  {
  }

  lemma {:induction false} ShareInUnit(value: real, full: real)
    requires value >= 0.0
    ensures InUnit(Share(value, full))
  {
    if full > 0.0 {
      QuotientAgainst(value, full, 0.0);
    }
  }

  ghost predicate Proper(c: Counts) {
    c.top <= c.n && c.complete <= 4 * c.n && c.weeks <= 4
  }

  lemma {:induction false} CountsProper(z: Zone, js: seq<Job>, now: Moment)
    ensures Proper(CountsOf(z, js, now))
  {
    TopCountInRange(js, |js|);
    CompleteInRange(js);
    WeeksInRange(z, js, now);
  }

  /** Every component's share is a proper share but uniqueness, which is one exactly while the parent
      is no smaller than the collection. */
  lemma {:induction false} SharesInUnit(c: Counts, parentSize: Option<nat>, singleEmployer: bool)
    requires Proper(c)
    ensures var s := SharesFrom(c, parentSize, singleEmployer);
            && AllInUnit(s.(uniqueness := 0.0)) && s.uniqueness <= 1.0
            && (0.0 <= s.uniqueness <==> parentSize.None? || parentSize.value == 0 || c.n <= parentSize.value)
            && (parentSize.Some? && 0 < parentSize.value && 10 * parentSize.value <= c.n ==> s.uniqueness <= -18.0)
  {
    Ratio(c.weeks, 4);
    ShareInUnit(c.n as real, 100.0);
    if c.n > 0 {
      Ratio(c.complete, 4 * c.n);
      ShareInUnit(c.recent as real, c.n as real * 0.5);
    }
    DiversityInUnit(c);
    UniquenessRange(c.n, parentSize);
  }

  lemma {:induction false} DiversityInUnit(c: Counts)
    requires Proper(c)
    ensures InUnit(Diversity(c.companies, TopShare(c)))
  {
    ShareInUnit(c.companies as real, 20.0);
    if c.n > 0 {
      Ratio(c.top, c.n);
    }
    Product(Share(c.companies as real, 20.0), Concentration(TopShare(c)));
  }

  lemma {:induction false} UniquenessRange(n: nat, parentSize: Option<nat>)
    ensures parentSize.Some? && parentSize.value > 0 ==>
              var u := Share(1.0 - Within(n, parentSize.value), 0.5);
              u <= 1.0 && (0.0 <= u <==> n <= parentSize.value) && (10 * parentSize.value <= n ==> u <= -18.0)
  {
    if parentSize.Some? && parentSize.value > 0 {
      QuotientAgainst(n as real, parentSize.value as real, 1.0);
      QuotientAgainst(n as real, parentSize.value as real, 10.0);
    }
  }

  /** The score is never over 100, and never under 0 for a collection within its parent. A parent a
      tenth of the collection's size, which no caller passes, would make it negative. */
  lemma {:induction false} EvaluationInRange(z: Zone, jobs: seq<Job>, now: Moment, parentSize: Option<nat>, singleEmployer: bool)
    ensures var e := Evaluate(z, jobs, now, parentSize, singleEmployer);
            && e.total <= 100
            && (parentSize.None? || parentSize.value == 0 || e.openJobs <= parentSize.value ==> 0 <= e.total)
            && (parentSize.Some? && 0 < parentSize.value && 10 * parentSize.value <= e.openJobs ==> e.total < 0)
  {
    var members := Filter(jobs, (j: Job) => !j.closed);
    var c := CountsOf(z, members, now);
    CountsProper(z, members, now);
    SharesInUnit(c, parentSize, singleEmployer);
    TotalInRange(SharesFrom(c, parentSize, singleEmployer));
  }

  /** What the nightly run records of an evaluation. */
  function ScoringOf(e: Evaluation, day: JobCollections.Day): JobCollections.Scoring {
    JobCollections.Scoring(day, e.recommendation, e.openJobs)
  }

  /** It is a scoring the registry's runs allow, whatever was evaluated: an empty collection is below
      the bar. */
  lemma {:induction false} ScoringIsAllowed(
    z: Zone, jobs: seq<Job>, now: Moment, parentSize: Option<nat>, singleEmployer: bool, w: CollectionLaws.World)
    requires w.c.status != JobCollections.Archived
    requires w.log != [] ==> w.log[|w.log| - 1].day <= z.dayOf(now)
    ensures CollectionLaws.Enabled(
              w, CollectionLaws.Score(ScoringOf(Evaluate(z, jobs, now, parentSize, singleEmployer), z.dayOf(now))))
  {
    if Evaluate(z, jobs, now, parentSize, singleEmployer).openJobs == 0 {
      EmptyIsBelowBar(z, jobs, now, parentSize, singleEmployer);
    }
  }

  /** Uniqueness alone is worth 5 points of 85, or of 70. */
  lemma {:induction false} EmptyTotal(s: Shares)
    requires s.inventory == 0.0 && s.freshness == 0.0 && s.quality == 0.0 && s.stability == 0.0 && s.uniqueness <= 1.0
    requires s.diversity.Some? ==> s.diversity.value == 0.0
    ensures Total(s) <= 8
  {
    RoundOfInt(0);
    RoundMonotone(10.0 * (5.0 * s.uniqueness), 50.0);
    RoundOfInt(50);
    RoundMonotone(100.0 * Tenths(5.0 * s.uniqueness) / 85.0, 8.0);
    RoundMonotone(100.0 * Tenths(5.0 * s.uniqueness) / 70.0, 8.0);
    RoundOfInt(8);
  }

  /** A collection with no open job always scores below the bar, whatever its parent. */
  lemma {:induction false} EmptyIsBelowBar(z: Zone, jobs: seq<Job>, now: Moment, parentSize: Option<nat>, singleEmployer: bool)
    requires Evaluate(z, jobs, now, parentSize, singleEmployer).openJobs == 0
    ensures Evaluate(z, jobs, now, parentSize, singleEmployer).recommendation == JobCollections.BelowBar
  {
    var members := Filter(jobs, (j: Job) => !j.closed);
    var s := SharesFrom(CountsOf(z, members, now), parentSize, singleEmployer);
    assert members == [];
    assert Members(z, members, [], now) == [];
    assert FreshWeeks(z, members, now) == {};
    assert (set j | j in Members(z, members, [], now) :: Employer(j)) == {};
    EmptyTotal(s);
  }

  lemma {:induction false} NoIssues(c: Counts, recent: bool, parentSize: Option<nat>, singleEmployer: bool)
    ensures (forall i: Issue :: !Raises(i, c, recent, parentSize, singleEmployer)) <==>
              && c.n >= 20
              && (singleEmployer || (c.companies >= 5 && 2 * c.top <= c.n))
              && (parentSize.Some? && parentSize.value > 0 ==> 10 * c.n < 9 * parentSize.value)
              && recent
  {
    if c.n > 0 {
      HalfShare(c.top, c.n);
    }
    if parentSize.Some? && parentSize.value > 0 {
      NineTenths(c.n, parentSize.value);
    }
    assert Raises(OneEmployerDominates, c, recent, parentSize, singleEmployer) <==>
           !singleEmployer && c.n > 0 && 2 * c.top > c.n;
    if forall i: Issue :: !Raises(i, c, recent, parentSize, singleEmployer) {
      assert !Raises(TooFewJobs, c, recent, parentSize, singleEmployer);
      assert !Raises(TooFewEmployers, c, recent, parentSize, singleEmployer);
      assert !Raises(NearDuplicate, c, recent, parentSize, singleEmployer);
      assert !Raises(Stale, c, recent, parentSize, singleEmployer);
    }
  }

  /** INDEX is recommended exactly at 80 or more with enough jobs and employers, none of them
      dominant, well apart from the parent, and something recent. */
  lemma {:induction false} IndexExactly(z: Zone, jobs: seq<Job>, now: Moment, parentSize: Option<nat>, singleEmployer: bool)
    ensures var e, js := Evaluate(z, jobs, now, parentSize, singleEmployer), Filter(jobs, (j: Job) => !j.closed);
            e.recommendation == JobCollections.Index <==>
              && e.total >= 80
              && |js| >= 20
              && (singleEmployer || (Calculate(z, js, [], now).companies >= 5 && 2 * TopCount(js, |js|) <= |js|))
              && (parentSize.Some? && parentSize.value > 0 ==> 10 * |js| < 9 * parentSize.value)
              && !NothingRecent(z, js, now)
  {
    var js := Filter(jobs, (j: Job) => !j.closed);
    var c, recent := CountsOf(z, js, now), !NothingRecent(z, js, now);
    NoIssues(c, recent, parentSize, singleEmployer);
    var issues := set i: Issue | Raises(i, c, recent, parentSize, singleEmployer);
    assert forall i: Issue :: i in issues <==> Raises(i, c, recent, parentSize, singleEmployer);
    assert issues == {} <==> forall i: Issue :: i !in issues;
  }

  lemma {:induction false} HalfShare(a: int, b: int)
    requires b > 0
    ensures a as real / b as real > 0.5 <==> 2 * a > b
  {
    QuotientAgainst(a as real, b as real, 0.5);
  }

  lemma {:induction false} NineTenths(a: int, b: int)
    requires b > 0
    ensures a as real / b as real >= 0.9 <==> 10 * a >= 9 * b
  {
    QuotientAgainst(a as real, b as real, 0.9);
  }
}
