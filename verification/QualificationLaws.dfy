/** What a collection's score is made of (app/services/collection_qualification.py:45-71, 105-216),
    in the jobs' own columns and in literal weights and limits. */
module QualificationLaws {
  import opened Base
  import opened Rounding
  import opened Dimensions
  import opened CollectionStats
  import opened Qualification
  import JobCollections

  // ---------------------------------------------------------------- the counts

  function EmployerOf(j: Job): string {
    if j.companyKey in {None, Some("")} then j.domain else j.companyKey.value
  }

  /** Found or posted on the last seven days, or seen by a crawl within two days. */
  predicate IsFresh(z: Zone, j: Job, now: Moment) {
    || z.dayOf(j.foundAt) > z.dayOf(now) - 7
    || (j.postedAt.Some? && z.dayOf(now) - 7 < j.postedAt.value <= z.dayOf(now))
    || (j.lastSeenAt.Some? && z.wall(now) - z.wall(j.lastSeenAt.value) <= 172_800)
  }

  /** A job found in the w-th week back from now. */
  predicate NewInWeek(z: Zone, j: Job, now: Moment, w: int) {
    604_800 * w <= z.wall(now) - z.wall(j.foundAt) < 604_800 * (w + 1)
  }

  ghost predicate WeekBringsNew(z: Zone, js: seq<Job>, now: Moment, w: int) {
    exists i :: 0 <= i < |js| && NewInWeek(z, js[i], now, w)
  }

  lemma {:induction false} EmployerReads(j: Job)
    ensures Employer(j) == EmployerOf(j)
  {
    assert j.companyKey.Some? && j.companyKey.value == "" ==> j.companyKey == Some("");
  }

  lemma {:induction false} FreshCount(z: Zone, js: seq<Job>, now: Moment)
    ensures CountsOf(z, js, now).recent == |Filter(js, (j: Job) => IsFresh(z, j, now))|
  {
    FilterSame(js, (j: Job) => Fresh(z, j, now), (j: Job) => IsFresh(z, j, now));
  }

  lemma {:induction false} CompanyCount(z: Zone, js: seq<Job>, now: Moment)
    requires forall j :: j in js ==> !j.closed
    ensures CountsOf(z, js, now).companies == |set j | j in js :: EmployerOf(j)|
  {
    CompaniesMean(z, js, [], now);
    assert (set j | j in js && In(z, [], j, now) :: if j.companyKey in {None, Some("")} then j.domain else j.companyKey.value)
           == (set j | j in js :: EmployerOf(j));
  }

  /** The most open jobs one employer has: some employer has that many, and none more. */
  lemma {:induction false} TopIsGreatest(js: seq<Job>, n: nat)
    requires n <= |js|
    ensures forall i :: 0 <= i < n ==> |Filter(js, (j: Job) => EmployerOf(j) == EmployerOf(js[i]))| <= TopCount(js, n)
    ensures n > 0 ==> exists i :: 0 <= i < n && |Filter(js, (j: Job) => EmployerOf(j) == EmployerOf(js[i]))| == TopCount(js, n)
  {
    if n > 0 {
      TopIsGreatest(js, n - 1);
      SameEmployerCount(js, js[n - 1]);
    }
  }

  lemma {:induction false} SameEmployerCount(js: seq<Job>, k: Job)
    ensures CountFrom(js, Employer(k)) == |Filter(js, (j: Job) => EmployerOf(j) == EmployerOf(k))|
  {
    forall j
      ensures Employer(j) == EmployerOf(j)
    {
      EmployerReads(j);
    }
    FilterSame(js, (j: Job) => Employer(j) == Employer(k), (j: Job) => EmployerOf(j) == EmployerOf(k));
  }

  /** Completeness adds up four columns: a salary in dollars, a workplace, the employer's date, and a
      place (remote counts as one). */
  lemma {:induction false} CompleteIsFourCounts(js: seq<Job>)
    ensures Complete(js) ==
            |Filter(js, (j: Job) => PaysInDollars(j))| + |Filter(js, (j: Job) => j.workplace != Unknown)|
            + |Filter(js, (j: Job) => j.postedAt.Some?)| + |Filter(js, (j: Job) => j.metros != [] || j.workplace == Remote)|
  {
    if js != [] {
      CompleteIsFourCounts(js[1..]);
    }
  }

  /** The weeks, of the last four, in which some job was found. */
  lemma {:induction false} WeeksMean(z: Zone, js: seq<Job>, now: Moment)
    ensures CountsOf(z, js, now).weeks == |set w | 0 <= w < 4 && WeekBringsNew(z, js, now, w)|
  {
    forall w | 0 <= w < 4
      ensures WeekHasNew(z, js, now, w) <==> WeekBringsNew(z, js, now, w)
    {
      SameWeek(z, js, now, w);
    }
    assert FreshWeeks(z, js, now) == set w | 0 <= w < 4 && WeekBringsNew(z, js, now, w);
  }

  lemma {:induction false} SameWeek(z: Zone, js: seq<Job>, now: Moment, w: int)
    requires 0 <= w < 4
    ensures WeekHasNew(z, js, now, w) <==> WeekBringsNew(z, js, now, w)
  {
    forall i | 0 <= i < |js|
      ensures (Age(z, now, js[i].foundAt) >= 0 && Age(z, now, js[i].foundAt) / (7 * DAY) == w) <==> NewInWeek(z, js[i], now, w)
    {
    }
    if WeekHasNew(z, js, now, w) {
      var i :| 0 <= i < |js| && Age(z, now, js[i].foundAt) >= 0 && Age(z, now, js[i].foundAt) / (7 * DAY) == w;
      assert NewInWeek(z, js[i], now, w);
    }
    if WeekBringsNew(z, js, now, w) {
      var i :| 0 <= i < |js| && NewInWeek(z, js[i], now, w);
      assert Age(z, now, js[i].foundAt) >= 0 && Age(z, now, js[i].foundAt) / (7 * DAY) == w;
    }
  }

  // ---------------------------------------------------------------- the shares

  lemma {:induction false} ShareMeans(a: int, b: int)
    requires b > 0
    ensures a >= b ==> Share(a as real, b as real) == 1.0
    ensures a <= b ==> Share(a as real, b as real) * b as real == a as real
  {
    QuotientAgainst(a as real, b as real, 1.0);
    assert a as real / b as real * b as real == a as real;
  }

  /** Full marks for 100 jobs, and so much less for fewer; a quarter for each week with a new job;
      and the part of the 4n columns that is filled. */
  lemma {:induction false} PlainShares(c: Counts, parentSize: Option<nat>, singleEmployer: bool)
    ensures var s := SharesFrom(c, parentSize, singleEmployer);
            && (c.n >= 100 ==> s.inventory == 1.0)
            && (c.n <= 100 ==> s.inventory * 100.0 == c.n as real)
            && s.stability * 4.0 == c.weeks as real
            && (c.n == 0 ==> s.quality == 0.0)
            && (c.n > 0 ==> s.quality * (4 * c.n) as real == c.complete as real)
  {
    ShareMeans(c.n, 100);
    if c.n > 0 {
      assert c.complete as real / (4 * c.n) as real * (4 * c.n) as real == c.complete as real;
    }
  }

  lemma {:induction false} HalfOfN(recent: int, n: int)
    requires 0 <= recent && n > 0
    ensures var f := Share(recent as real, n as real * 0.5);
            (2 * recent >= n ==> f == 1.0) && (2 * recent <= n ==> f * n as real == (2 * recent) as real)
  {
    var half := n as real * 0.5;
    QuotientAgainst(recent as real, half, 1.0);
    var q := recent as real / half;
    assert q * half == recent as real;
    Doubled(q, n as real);
    if 2 * recent == n {
      assert recent as real == half;
    }
  }

  lemma {:induction false} Doubled(f: real, n: real)
    ensures f * n == 2.0 * (f * (n * 0.5))
  {
    assert f * (n * 0.5) == (f * n) * 0.5;
  }

  /** Full marks when half of the jobs are fresh, and in proportion below. */
  lemma {:induction false} FreshnessShare(c: Counts, parentSize: Option<nat>, singleEmployer: bool)
    ensures var f := SharesFrom(c, parentSize, singleEmployer).freshness;
            && (c.n == 0 ==> f == 0.0)
            && (c.n > 0 && 2 * c.recent >= c.n ==> f == 1.0)
            && (c.n > 0 && 2 * c.recent <= c.n ==> f * c.n as real == (2 * c.recent) as real)
  {
    if c.n > 0 {
      HalfOfN(c.recent, c.n);
    }
  }

  /** Full marks for at most half of the parent's jobs, then less by so much, and negative past the
      parent's own size. */
  lemma {:induction false} UniquenessShare(c: Counts, parentSize: Option<nat>, singleEmployer: bool)
    ensures var u := SharesFrom(c, parentSize, singleEmployer).uniqueness;
            && (parentSize in {None, Some(0)} ==> u == 1.0)
            && (parentSize.Some? && parentSize.value > 0 && 2 * c.n <= parentSize.value ==> u == 1.0)
            && (parentSize.Some? && parentSize.value > 0 && 2 * c.n >= parentSize.value ==>
                  u * parentSize.value as real == (2 * (parentSize.value - c.n)) as real)
  {
    if parentSize.Some? && parentSize.value > 0 {
      var p := parentSize.value as real;
      var within := c.n as real / p;
      assert within * p == c.n as real;
      QuotientAgainst(c.n as real, p, 0.5);
      assert Share(1.0 - within, 0.5) == if within > 0.5 then 2.0 * (1.0 - within) else 1.0;
      assert 2.0 * (1.0 - within) * p == 2.0 * (p - within * p);
    }
  }

  /** Twenty times the share: the companies, of which the part over half that the top one holds is
      taken off twice. */
  predicate DiversityReads(d: real, companies: int, n: int, top: int) {
    && (n == 0 || 2 * top <= n ==> d * 20.0 == companies as real)
    && (n > 0 && 2 * top >= n ==> d * 20.0 * n as real == (2 * companies * (n - top)) as real)
  }

  /** For one company's page there is no diversity. Otherwise full marks for 20 companies of which
      none has more than half of the jobs: fewer companies count in proportion, and a greater top
      share takes the rest off until a single company's is nothing. */
  lemma {:induction false} DiversityShare(c: Counts, parentSize: Option<nat>, singleEmployer: bool)
    ensures var d := SharesFrom(c, parentSize, singleEmployer).diversity;
            && (d == None <==> singleEmployer)
            && (d.Some? ==> DiversityReads(d.value, if c.companies <= 20 then c.companies else 20, c.n, c.top))
  {
    if c.n > 0 {
      TopShareMeans(c);
    }
    Docked(c.companies, TopShare(c), c.n, c.top);
  }

  lemma {:induction false} CompaniesShare(n: nat, capped: nat)
    requires capped == if n <= 20 then n else 20
    ensures Share(n as real, 20.0) * 20.0 == capped as real
  {
    ShareMeans(n, 20);
  }

  lemma {:induction false} Docked(companies: nat, topShare: real, n: int, top: int)
    requires n >= 0
    requires if n == 0 then topShare == 0.0 else topShare * n as real == top as real
    requires n > 0 ==> (topShare <= 0.5 <==> 2 * top <= n) && (topShare >= 0.5 <==> 2 * top >= n)
    ensures DiversityReads(Diversity(companies, topShare), if companies <= 20 then companies else 20, n, top)
  {
    var capped := if companies <= 20 then companies else 20;
    var share := Share(companies as real, 20.0);
    CompaniesShare(companies, capped);
    if n > 0 && 2 * top >= n {
      TopIsDocked(share, topShare, capped, n, top);
    }
    if n == 0 || 2 * top <= n {
      assert Concentration(topShare) == 1.0;
      assert share * 1.0 == share;
    }
  }

  lemma {:induction false} TopShareMeans(c: Counts)
    requires c.n > 0
    ensures TopShare(c) * c.n as real == c.top as real
    ensures TopShare(c) <= 0.5 <==> 2 * c.top <= c.n
    ensures TopShare(c) >= 0.5 <==> 2 * c.top >= c.n
  {
    QuotientAgainst(c.top as real, c.n as real, 0.5);
  }

  lemma {:induction false} TopIsDocked(share: real, topShare: real, companies: int, n: int, top: int)
    requires share * 20.0 == companies as real && topShare * n as real == top as real && topShare >= 0.5 && n > 0
    ensures share * Concentration(topShare) * 20.0 * n as real == (2 * companies * (n - top)) as real
  {
    var k := Concentration(topShare);
    assert k == 2.0 * (1.0 - topShare);
    assert k * n as real == 2.0 * (n as real - topShare * n as real) == (2 * (n - top)) as real;
    assert share * k * 20.0 * n as real == (share * 20.0) * (k * n as real) by {
      assert share * k * 20.0 == (share * 20.0) * k;
    }
    Products(companies, 2 * (n - top));
  }

  lemma {:induction false} Products(a: int, b: int)
    ensures a as real * b as real == (a * b) as real
  {
  }

  // ---------------------------------------------------------------- the total

  /** A component is rounded to a tenth of a point. */
  lemma {:induction false} TenthsNearest(x: real)
    ensures IsNearest((10.0 * Tenths(x)).Floor, 10.0 * x) && 10.0 * Tenths(x) == (10.0 * Tenths(x)).Floor as real
    ensures -0.05 <= Tenths(x) - x <= 0.05
  {
    RoundIsNearest(10.0 * x);
  }

  /** The weighted mean, scaled to 100: 25 for inventory, 15 for diversity, 20 for freshness, 10 for
      quality, 10 for stability and 5 for uniqueness, out of 85, or of 70 without diversity. Rounding
      the components and then the total moves it by less than one point. */
  lemma {:induction false} TotalIsTheWeightedMean(s: Shares)
    ensures var p := 25.0 * s.inventory + 20.0 * s.freshness + 10.0 * s.quality + 10.0 * s.stability + 5.0 * s.uniqueness;
            if s.diversity.Some? then -72.5 <= 85.0 * Total(s) as real - 100.0 * (p + 15.0 * s.diversity.value) <= 72.5
            else -60.0 <= 70.0 * Total(s) as real - 100.0 * p <= 60.0
  {
    TenthsNearest(25.0 * s.inventory);
    TenthsNearest(20.0 * s.freshness);
    TenthsNearest(10.0 * s.quality);
    TenthsNearest(10.0 * s.stability);
    TenthsNearest(5.0 * s.uniqueness);
    if s.diversity.Some? {
      TenthsNearest(15.0 * s.diversity.value);
    }
  }

  /** The exact total, from components rounded to tenths. */
  lemma {:induction false} TotalExactly(s: Shares)
    ensures var p := Tenths(25.0 * s.inventory) + Tenths(20.0 * s.freshness) + Tenths(10.0 * s.quality)
                     + Tenths(10.0 * s.stability) + Tenths(5.0 * s.uniqueness);
            if s.diversity.Some? then IsNearest(Total(s), 100.0 * (p + Tenths(15.0 * s.diversity.value)) / 85.0)
            else IsNearest(Total(s), 100.0 * p / 70.0)
  {
    RoundIsNearest(100.0 * Points(s) / 70.0);
    if s.diversity.Some? {
      RoundIsNearest(100.0 * (Points(s) + Tenths(15.0 * s.diversity.value)) / 85.0);
    }
  }

  lemma {:induction false} TenthsMonotone(x: real, y: real)
    requires x <= y
    ensures Tenths(x) <= Tenths(y)
  {
    RoundMonotone(10.0 * x, 10.0 * y);
  }

  lemma {:induction false} ScaledMonotone(x: real, y: real)
    requires x <= y
    ensures Round(100.0 * x / 85.0) <= Round(100.0 * y / 85.0)
    ensures Round(100.0 * x / 70.0) <= Round(100.0 * y / 70.0)
  {
    RoundMonotone(100.0 * x / 85.0, 100.0 * y / 85.0);
    RoundMonotone(100.0 * x / 70.0, 100.0 * y / 70.0);
  }

  /** No component that always applies is worse. */
  predicate NoneWorse(s: Shares, t: Shares) {
    && s.inventory <= t.inventory && s.freshness <= t.freshness && s.quality <= t.quality
    && s.stability <= t.stability && s.uniqueness <= t.uniqueness
  }

  lemma {:induction false} PointsMonotone(s: Shares, t: Shares)
    requires NoneWorse(s, t)
    ensures Points(s) <= Points(t)
  {
    TenthsMonotone(25.0 * s.inventory, 25.0 * t.inventory);
    TenthsMonotone(20.0 * s.freshness, 20.0 * t.freshness);
    TenthsMonotone(10.0 * s.quality, 10.0 * t.quality);
    TenthsMonotone(10.0 * s.stability, 10.0 * t.stability);
    TenthsMonotone(5.0 * s.uniqueness, 5.0 * t.uniqueness);
  }

  lemma {:induction false} TotalOutOf70(s: Shares, t: Shares)
    requires Points(s) <= Points(t) && s.diversity.None? && t.diversity.None?
    ensures Total(s) <= Total(t)
  {
    ScaledMonotone(Points(s), Points(t));
  }

  lemma {:induction false} TotalOutOf85(s: Shares, t: Shares)
    requires Points(s) <= Points(t) && s.diversity.Some? && t.diversity.Some?
    requires Tenths(15.0 * s.diversity.value) <= Tenths(15.0 * t.diversity.value)
    ensures Total(s) <= Total(t)
  {
    ScaledMonotone(Points(s) + Tenths(15.0 * s.diversity.value), Points(t) + Tenths(15.0 * t.diversity.value));
  }

  /** A better share never lowers the total. */
  lemma {:induction false} TotalMonotone(s: Shares, t: Shares)
    requires NoneWorse(s, t)
    requires s.diversity.Some? == t.diversity.Some? && (s.diversity.Some? ==> s.diversity.value <= t.diversity.value)
    ensures Total(s) <= Total(t)
  {
    PointsMonotone(s, t);
    if s.diversity.Some? {
      TenthsMonotone(15.0 * s.diversity.value, 15.0 * t.diversity.value);
      TotalOutOf85(s, t);
    } else {
      TotalOutOf70(s, t);
    }
  }

  lemma {:induction false} OnlyFreshnessChanges(c: Counts, more: nat, parentSize: Option<nat>, singleEmployer: bool)
    requires c.recent <= more
    ensures var s, t := SharesFrom(c, parentSize, singleEmployer), SharesFrom(c.(recent := more), parentSize, singleEmployer);
            t == s.(freshness := t.freshness) && s.freshness <= t.freshness
  {
    if c.n > 0 {
      ShareMonotone(c.recent as real, more as real, c.n as real * 0.5);
    }
    assert TopShare(c.(recent := more)) == TopShare(c);
  }

  /** More of the same jobs fresh never lowers the total. */
  lemma {:induction false} FresherScoresNoLower(c: Counts, more: nat, parentSize: Option<nat>, singleEmployer: bool)
    requires c.recent <= more
    ensures Total(SharesFrom(c, parentSize, singleEmployer)) <= Total(SharesFrom(c.(recent := more), parentSize, singleEmployer))
  {
    OnlyFreshnessChanges(c, more, parentSize, singleEmployer);
    TotalMonotone(SharesFrom(c, parentSize, singleEmployer), SharesFrom(c.(recent := more), parentSize, singleEmployer));
  }

  lemma {:induction false} ShareMonotone(a: real, b: real, full: real)
    requires a <= b && full > 0.0
    ensures Share(a, full) <= Share(b, full)
  {
    QuotientAgainst(a, full, b / full);
    assert b / full * full == b;
  }

  // ---------------------------------------------------------------- the evaluation

  /** The components of a collection's score, as its jobs make them. */
  ghost predicate SharesRead(s: Shares, c: Counts, parentSize: Option<nat>, singleEmployer: bool) {
    && (c.n >= 100 ==> s.inventory == 1.0)
    && (c.n <= 100 ==> s.inventory * 100.0 == c.n as real)
    && (s.diversity == None <==> singleEmployer)
    && (s.diversity.Some? ==> DiversityReads(s.diversity.value, if c.companies <= 20 then c.companies else 20, c.n, c.top))
    && (c.n == 0 ==> s.freshness == 0.0 && s.quality == 0.0)
    && (c.n > 0 && 2 * c.recent >= c.n ==> s.freshness == 1.0)
    && (c.n > 0 && 2 * c.recent <= c.n ==> s.freshness * c.n as real == (2 * c.recent) as real)
    && (c.n > 0 ==> s.quality * (4 * c.n) as real == c.complete as real)
    && s.stability * 4.0 == c.weeks as real
    && (parentSize in {None, Some(0)} ==> s.uniqueness == 1.0)
    && (parentSize.Some? && parentSize.value > 0 && 2 * c.n <= parentSize.value ==> s.uniqueness == 1.0)
    && (parentSize.Some? && parentSize.value > 0 && 2 * c.n >= parentSize.value ==>
          s.uniqueness * parentSize.value as real == (2 * (parentSize.value - c.n)) as real)
  }

  /** The counts of a list of open jobs, in their own columns. */
  ghost predicate CountsRead(c: Counts, z: Zone, js: seq<Job>, now: Moment) {
    && c.n == |js|
    && c.companies == |set j | j in js :: EmployerOf(j)|
    && (forall i :: 0 <= i < |js| ==> |Filter(js, (j: Job) => EmployerOf(j) == EmployerOf(js[i]))| <= c.top)
    && (js != [] ==> exists i :: 0 <= i < |js| && |Filter(js, (j: Job) => EmployerOf(j) == EmployerOf(js[i]))| == c.top)
    && c.recent == |Filter(js, (j: Job) => IsFresh(z, j, now))|
    && c.complete == |Filter(js, (j: Job) => PaysInDollars(j))| + |Filter(js, (j: Job) => j.workplace != Unknown)|
                     + |Filter(js, (j: Job) => j.postedAt.Some?)| + |Filter(js, (j: Job) => j.metros != [] || j.workplace == Remote)|
    && c.weeks == |set w | 0 <= w < 4 && WeekBringsNew(z, js, now, w)|
  }

  lemma {:induction false} OpenOnes(jobs: seq<Job>)
    ensures forall j :: j in Filter(jobs, (j: Job) => !j.closed) ==> !j.closed
  {
    forall j | j in Filter(jobs, (j: Job) => !j.closed)
      ensures !j.closed
    {
      FilterMembers(jobs, (j: Job) => !j.closed, j);
    }
  }

  lemma {:induction false} CountsAreRead(z: Zone, js: seq<Job>, now: Moment)
    requires forall j :: j in js ==> !j.closed
    ensures CountsRead(CountsOf(z, js, now), z, js, now)
  {
    CompanyCount(z, js, now);
    TopIsGreatest(js, |js|);
    FreshCount(z, js, now);
    CompleteIsFourCounts(js);
    WeeksMean(z, js, now);
  }

  lemma {:induction false} SharesAreRead(c: Counts, parentSize: Option<nat>, singleEmployer: bool)
    ensures SharesRead(SharesFrom(c, parentSize, singleEmployer), c, parentSize, singleEmployer)
  {
    PlainShares(c, parentSize, singleEmployer);
    DiversityShare(c, parentSize, singleEmployer);
    FreshnessShare(c, parentSize, singleEmployer);
    UniquenessShare(c, parentSize, singleEmployer);
  }

  lemma {:induction false} EvaluatedTotal(z: Zone, jobs: seq<Job>, now: Moment, parentSize: Option<nat>, singleEmployer: bool)
    ensures Evaluate(z, jobs, now, parentSize, singleEmployer).total ==
            Total(SharesFrom(CountsOf(z, Filter(jobs, (j: Job) => !j.closed), now), parentSize, singleEmployer))
  {
  }

  /** What a collection's score is made of: counts of its open jobs' own columns give the six shares,
      and the total is their weighted mean out of 100, to within a point. */
  lemma {:induction false} ScoreMeans(z: Zone, jobs: seq<Job>, now: Moment, parentSize: Option<nat>, singleEmployer: bool)
    returns (c: Counts, s: Shares)
    ensures CountsRead(c, z, Filter(jobs, (j: Job) => !j.closed), now)
    ensures SharesRead(s, c, parentSize, singleEmployer)
    ensures var total := Evaluate(z, jobs, now, parentSize, singleEmployer).total as real;
            var p := 25.0 * s.inventory + 20.0 * s.freshness + 10.0 * s.quality + 10.0 * s.stability + 5.0 * s.uniqueness;
            if s.diversity.Some? then -72.5 <= 85.0 * total - 100.0 * (p + 15.0 * s.diversity.value) <= 72.5
            else -60.0 <= 70.0 * total - 100.0 * p <= 60.0
  {
    var js := Filter(jobs, (j: Job) => !j.closed);
    c := CountsOf(z, js, now);
    s := SharesFrom(c, parentSize, singleEmployer);
    OpenOnes(jobs);
    CountsAreRead(z, js, now);
    SharesAreRead(c, parentSize, singleEmployer);
    EvaluatedTotal(z, jobs, now, parentSize, singleEmployer);
    TotalIsTheWeightedMean(s);
  }

  /** Found, or seen by a crawl, within the last fourteen days. */
  predicate SeenLately(z: Zone, j: Job, now: Moment) {
    || z.wall(now) - z.wall(j.foundAt) <= 1_209_600
    || (j.lastSeenAt.Some? && z.wall(now) - z.wall(j.lastSeenAt.value) <= 1_209_600)
  }

  /** The gates, in the jobs' own columns: 20 jobs; unless it is one company's page, 5 employers and
      none with more than half of the jobs; less than nine tenths of its parent; something seen in
      the last fourteen days. */
  ghost predicate PassesGates(z: Zone, js: seq<Job>, now: Moment, parentSize: Option<nat>, singleEmployer: bool) {
    && |js| >= 20
    && (singleEmployer
        || (|set j | j in js :: EmployerOf(j)| >= 5
            && forall i :: 0 <= i < |js| ==> 2 * |Filter(js, (j: Job) => EmployerOf(j) == EmployerOf(js[i]))| <= |js|))
    && (parentSize.Some? && parentSize.value > 0 ==> 10 * |js| < 9 * parentSize.value)
    && exists i :: 0 <= i < |js| && SeenLately(z, js[i], now)
  }

  /** Every recommendation, exactly: below the bar under 60, and at 60 or more a page to index when
      the total is 80 and every gate is passed, and one to review otherwise. */
  lemma {:induction false} RecommendsExactly(z: Zone, jobs: seq<Job>, now: Moment, parentSize: Option<nat>, singleEmployer: bool)
    ensures var e, js := Evaluate(z, jobs, now, parentSize, singleEmployer), Filter(jobs, (j: Job) => !j.closed);
            && e.openJobs == |js|
            && e.recommendation ==
               if e.total < 60 then JobCollections.BelowBar
               else if e.total >= 80 && PassesGates(z, js, now, parentSize, singleEmployer) then JobCollections.Index
               else JobCollections.Review
  {
    var js := Filter(jobs, (j: Job) => !j.closed);
    OpenOnes(jobs);
    CountsAreRead(z, js, now);
    IndexExactly(z, jobs, now, parentSize, singleEmployer);
    GatesRead(z, js, now, parentSize, singleEmployer);
  }

  lemma {:induction false} GatesRead(z: Zone, js: seq<Job>, now: Moment, parentSize: Option<nat>, singleEmployer: bool)
    requires CountsRead(CountsOf(z, js, now), z, js, now)
    ensures PassesGates(z, js, now, parentSize, singleEmployer) <==>
              && |js| >= 20
              && (singleEmployer || (Calculate(z, js, [], now).companies >= 5 && 2 * TopCount(js, |js|) <= |js|))
              && (parentSize.Some? && parentSize.value > 0 ==> 10 * |js| < 9 * parentSize.value)
              && !NothingRecent(z, js, now)
  {
    RecentRead(z, js, now);
    var c := CountsOf(z, js, now);
    if js != [] {
      var i :| 0 <= i < |js| && |Filter(js, (j: Job) => EmployerOf(j) == EmployerOf(js[i]))| == c.top;
    }
  }

  lemma {:induction false} RecentRead(z: Zone, js: seq<Job>, now: Moment)
    ensures NothingRecent(z, js, now) <==> forall i :: 0 <= i < |js| ==> !SeenLately(z, js[i], now)
  {
    if forall i :: 0 <= i < |js| ==> !SeenLately(z, js[i], now) {
      forall i | 0 <= i < |js|
        ensures Age(z, now, js[i].foundAt) > 14 * DAY
        ensures js[i].lastSeenAt.Some? ==> Age(z, now, js[i].lastSeenAt.value) > 14 * DAY
      {
        assert !SeenLately(z, js[i], now);
      }
    }
  }
}
