/** app/services/collection_stats.py: a collection's numbers, over jobs in memory and straight
    from the database. */
module CollectionStats {
  import opened Base
  import opened Sorting
  import opened Rounding
  import opened Dimensions

  const WINDOW := 86400
  const ANNUAL_SALARY_MIN := 1000

  datatype Stats = Stats(
    openJobs: nat, companies: nat, remote: nat, hybrid: nat, onsite: nat, withSalary: nat,
    posted24h: nat, found24h: nat, verified24h: nat, medianMin: Option<int>, medianMax: Option<int>)

  function Filter<T>(s: seq<T>, p: T -> bool): seq<T> {
    if s == [] then [] else if p(s[0]) then [s[0]] + Filter(s[1..], p) else Filter(s[1..], p)
  }

  function MapJobs(rows: seq<Row>): seq<Job> {
    if rows == [] then [] else [ToJob(rows[0])] + MapJobs(rows[1..])
  }

  predicate Plausible(v: Option<int>) {
    v.Some? && 0 < v.value <= SALARY_PLAUSIBLE_MAX
  }

  predicate SalaryListed(low: Option<int>, high: Option<int>, currency: Option<string>) {
    UsDollars(currency) && (Plausible(low) || Plausible(high))
  }

  function PlausibleClause(column: Option<int>): Tri {
    And(Over(column, 0), AtMost(column, SALARY_PLAUSIBLE_MAX))
  }

  function SalaryListedClause(r: Row): Tri {
    And(UsDollarsClause(r.currency), Or(PlausibleClause(r.salaryMin), PlausibleClause(r.salaryMax)))
  }

  /** The annual figures among a column's values. */
  function Annual(vs: seq<Option<int>>): seq<int> {
    if vs == [] then []
    else (if Plausible(vs[0]) && vs[0].value >= ANNUAL_SALARY_MIN then [vs[0].value] else []) + Annual(vs[1..])
  }

  function MiddleOf(s: seq<int>): int
    requires s != []
  {
    var n := |s|;
    if n % 2 == 1 then s[n / 2] else Round((s[n / 2 - 1] + s[n / 2]) as real / 2.0)
  }

  /** round(statistics.median(annual)) */
  function Median(vs: seq<Option<int>>): Option<int> {
    var annual := Sort(Annual(vs), (a, b) => a <= b);
    if annual == [] then None else Some(MiddleOf(annual))
  }

  /** One column of a list. */
  function Column<T, U>(s: seq<T>, f: T -> U): seq<U> {
    seq(|s|, i requires 0 <= i < |s| => f(s[i]))
  }

  /** job.company_key or job.domain */
  function Employer(j: Job): string {
    if j.companyKey.Some? && j.companyKey.value != "" then j.companyKey.value else j.domain
  }

  /** coalesce(company_key, domain) */
  function EmployerColumn(r: Row): string {
    if r.companyKey.Some? then r.companyKey.value else r.domain
  }

  predicate PostedLately(z: Zone, j: Job, now: Moment) {
    j.postedAt.Some? && z.dayOf(now - WINDOW) <= j.postedAt.value <= Today(z, now)
  }

  predicate Lately(at: Option<Moment>, now: Moment) {
    at.Some? && now - WINDOW < at.value <= now
  }

  function LatelyClause(column: Option<Moment>, now: Moment): Tri {
    And(Over(column, now - WINDOW), AtMost(column, now))
  }

  function Members(z: Zone, jobs: seq<Job>, ds: seq<Dimension>, now: Moment): seq<Job> {
    Filter(jobs, (j: Job) => !j.closed && MatchesAll(z, ds, j, now))
  }

  /** calculate_collection_stats */
  function Calculate(z: Zone, jobs: seq<Job>, ds: seq<Dimension>, now: Moment): Stats {
    var members := Members(z, jobs, ds, now);
    var salaried := Filter(members, (j: Job) => SalaryListed(j.salaryMin, j.salaryMax, j.currency));
    Stats(
      |members|,
      |set j | j in members :: Employer(j)|,
      |Filter(members, (j: Job) => j.workplace == Remote)|,
      |Filter(members, (j: Job) => j.workplace == Hybrid)|,
      |Filter(members, (j: Job) => j.workplace == Onsite)|,
      |salaried|,
      |Filter(members, (j: Job) => PostedLately(z, j, now))|,
      |Filter(members, (j: Job) => Lately(Some(j.foundAt), now))|,
      |Filter(members, (j: Job) => Lately(j.lastSeenAt, now))|,
      Median(Column(salaried, (j: Job) => j.salaryMin)),
      Median(Column(salaried, (j: Job) => j.salaryMax)))
  }

  /** The WHERE clause: open, and in every dimension. */
  function Where(z: Zone, ds: seq<Dimension>, r: Row, now: Moment): Tri {
    And(Of(r.closedAt.None?), ClauseAll(z, ds, r, now))
  }

  /** collection_stats_from_db: two aggregate queries over the eligible rows, in whatever order
      the database reads them. WHERE and count(case ...) keep what is Yes, not what is Null. */
  function FromDb(z: Zone, rows: seq<Row>, ds: seq<Dimension>, now: Moment): Stats {
    var found := Filter(rows, (r: Row) => Where(z, ds, r, now) == Yes);
    var salaries := Filter(rows, (r: Row) => And(Where(z, ds, r, now), SalaryListedClause(r)) == Yes);
    Stats(
      |found|,
      |set r | r in found :: EmployerColumn(r)|,
      |Filter(found, (r: Row) => Of(r.workplace == Remote) == Yes)|,
      |Filter(found, (r: Row) => Of(r.workplace == Hybrid) == Yes)|,
      |Filter(found, (r: Row) => Of(r.workplace == Onsite) == Yes)|,
      |Filter(found, (r: Row) => SalaryListedClause(r) == Yes)|,
      |Filter(found, (r: Row) => Between(r.postedAt, z.dayOf(now - WINDOW), Today(z, now)) == Yes)|,
      |Filter(found, (r: Row) => LatelyClause(Some(r.foundAt), now) == Yes)|,
      |Filter(found, (r: Row) => LatelyClause(r.lastSeenAt, now) == Yes)|,
      Median(Column(salaries, (r: Row) => r.salaryMin)),
      Median(Column(salaries, (r: Row) => r.salaryMax)))
  }

  // ---------------------------------------------------------------- the order of rows

  lemma {:induction false} FilterCount<T>(s: seq<T>, p: T -> bool, x: T)
    ensures multiset(Filter(s, p))[x] == if p(x) then multiset(s)[x] else 0
  {
    if s != [] {
      FilterCount(s[1..], p, x);
      assert s == [s[0]] + s[1..];
    }
  }

  lemma {:induction false} FilterAnyOrder<T(!new)>(a: seq<T>, b: seq<T>, p: T -> bool)
    requires multiset(a) == multiset(b)
    ensures multiset(Filter(a, p)) == multiset(Filter(b, p))
    ensures |Filter(a, p)| == |Filter(b, p)|
  {
    forall x: T
      ensures multiset(Filter(a, p))[x] == multiset(Filter(b, p))[x]
    {
      FilterCount(a, p, x);
      FilterCount(b, p, x);
    }
    SameElements(Filter(a, p), Filter(b, p));
  }

  lemma {:induction false} FilterTwice<T>(s: seq<T>, p: T -> bool, q: T -> bool, both: T -> bool)
    requires forall x :: x in s ==> both(x) == (p(x) && q(x))
    ensures Filter(Filter(s, p), q) == Filter(s, both)
  {
    if s != [] {
      FilterTwice(s[1..], p, q, both);
      assert both(s[0]) == (p(s[0]) && q(s[0]));
      assert p(s[0]) ==> Filter(s, p)[1..] == Filter(s[1..], p);
    }
  }

  lemma {:induction false} FilterMembers<T>(s: seq<T>, p: T -> bool, x: T)
    ensures x in Filter(s, p) <==> x in s && p(x)
  {
    if s != [] {
      FilterMembers(s[1..], p, x);
      assert s == [s[0]] + s[1..];
    }
  }

  lemma {:induction false} Associative<T>(a: seq<T>, b: seq<T>, c: seq<T>)
    ensures (a + b) + c == a + (b + c)
  {
  }

  lemma {:induction false} AnnualAppend(a: seq<Option<int>>, b: seq<Option<int>>)
    ensures Annual(a + b) == Annual(a) + Annual(b)
  {
    if a == [] {
      assert a + b == b;
    } else {
      var first := if Plausible(a[0]) && a[0].value >= ANNUAL_SALARY_MIN then [a[0].value] else [];
      AnnualAppend(a[1..], b);
      assert (a + b)[0] == a[0] && (a + b)[1..] == a[1..] + b;
      assert Annual(a + b) == first + Annual(a[1..] + b);
      Associative(first, Annual(a[1..]), Annual(b));
    }
  }

  lemma {:induction false} TakenOut<T>(b: seq<T>, i: nat)
    requires i < |b|
    ensures b == b[..i] + ([b[i]] + b[i + 1..])
    ensures multiset(b[..i] + b[i + 1..]) == multiset(b) - multiset{b[i]}
  {
    assert b == b[..i] + ([b[i]] + b[i + 1..]);
    assert multiset(b) == multiset(b[..i]) + multiset{b[i]} + multiset(b[i + 1..]);
  }

  /** The first of a's elements, found in b and taken out of it. */
  lemma {:induction false} PullOut<T>(a: seq<T>, b: seq<T>) returns (i: nat)
    requires multiset(a) == multiset(b) && a != []
    ensures i < |b| && b[i] == a[0]
    ensures b == b[..i] + ([a[0]] + b[i + 1..])
    ensures multiset(a[1..]) == multiset(b[..i] + b[i + 1..])
  {
    SameElements(a, b);
    assert a[0] in b;
    i :| 0 <= i < |b| && b[i] == a[0];
    TakenOut(b, i);
    TakenOut(a, 0);
    assert a[..0] + a[1..] == a[1..];
  }

  lemma {:induction false} AnnualAnyOrder(a: seq<Option<int>>, b: seq<Option<int>>)
    requires multiset(a) == multiset(b)
    ensures multiset(Annual(a)) == multiset(Annual(b))
  {
    SameElements(a, b);
    if a != [] {
      var i := PullOut(a, b);
      var rest := b[..i] + b[i + 1..];
      AnnualAnyOrder(a[1..], rest);
      AnnualAppend(b[..i], [a[0]] + b[i + 1..]);
      AnnualAppend([a[0]], b[i + 1..]);
      AnnualAppend(b[..i], b[i + 1..]);
      AnnualAppend([a[0]], a[1..]);
      assert a == [a[0]] + a[1..];
    }
  }

  /** A median does not depend on the order the figures are read in. */
  lemma {:induction false} MedianAnyOrder(a: seq<Option<int>>, b: seq<Option<int>>)
    requires multiset(a) == multiset(b)
    ensures Median(a) == Median(b)
  {
    AnnualAnyOrder(a, b);
    var sa, sb := Sort(Annual(a), (x, y) => x <= y), Sort(Annual(b), (x, y) => x <= y);
    SortSorted(Annual(a), (x: int, y: int) => x <= y);
    SortSorted(Annual(b), (x: int, y: int) => x <= y);
    SortedUnique(sa, sb, (x: int, y: int) => x <= y);
  }

  lemma {:induction false} ColumnAppend<T, U>(a: seq<T>, b: seq<T>, f: T -> U)
    ensures Column(a + b, f) == Column(a, f) + Column(b, f)
  {
  }

  lemma {:induction false} ColumnAnyOrder<T, U>(a: seq<T>, b: seq<T>, f: T -> U)
    requires multiset(a) == multiset(b)
    ensures multiset(Column(a, f)) == multiset(Column(b, f))
  {
    SameElements(a, b);
    if a != [] {
      var i := PullOut(a, b);
      ColumnAnyOrder(a[1..], b[..i] + b[i + 1..], f);
      ColumnAppend(b[..i], [a[0]] + b[i + 1..], f);
      ColumnAppend([a[0]], b[i + 1..], f);
      ColumnAppend(b[..i], b[i + 1..], f);
      ColumnAppend([a[0]], a[1..], f);
      assert a == [a[0]] + a[1..];
    }
  }

  // ---------------------------------------------------------------- what a median is

  lemma {:induction false} FilterAppend<T>(a: seq<T>, b: seq<T>, p: T -> bool)
    ensures Filter(a + b, p) == Filter(a, p) + Filter(b, p)
  {
    if a == [] {
      assert a + b == b;
    } else {
      FilterAppend(a[1..], b, p);
      assert (a + b)[0] == a[0] && (a + b)[1..] == a[1..] + b;
    }
  }

  lemma {:induction false} FilterAll<T>(s: seq<T>, p: T -> bool)
    requires forall x :: x in s ==> p(x)
    ensures Filter(s, p) == s
  {
    if s != [] {
      FilterAll(s[1..], p);
    }
  }

  lemma {:induction false} OneMore<T>(x: T, s: seq<T>, v: T)
    ensures multiset([x] + s)[v] == multiset(s)[v] + if x == v then 1 else 0
  {
    assert multiset([x] + s) == multiset{x} + multiset(s);
  }

  /** The median looks at the yearly figures: each of those from 1,000 to 2,000,000 as often as it
      is there, and nothing else. */
  lemma {:induction false} AnnualKeeps(vs: seq<Option<int>>, v: int)
    ensures multiset(Annual(vs))[v] == if 1000 <= v <= 2_000_000 then multiset(vs)[Some(v)] else 0
  {
    if vs != [] {
      AnnualKeeps(vs[1..], v);
      assert vs == [vs[0]] + vs[1..];
      OneMore(vs[0], vs[1..], Some(v));
      AnnualFirst(vs, v);
    }
  }

  lemma {:induction false} AnnualFirst(vs: seq<Option<int>>, v: int)
    requires vs != []
    ensures multiset(Annual(vs))[v] == multiset(Annual(vs[1..]))[v] + if vs[0] == Some(v) && 1000 <= v <= 2_000_000 then 1 else 0
  {
    var rest := Annual(vs[1..]);
    if vs[0].Some? && 1000 <= vs[0].value <= 2_000_000 {
      assert Annual(vs) == [vs[0].value] + rest;
      OneMore(vs[0].value, rest, v);
    } else {
      assert Annual(vs) == [] + rest == rest;
    }
  }

  /** At least this many figures are at or below v, and this many at or above it. */
  ghost predicate Splits(a: seq<int>, v: int, below: nat, above: nat) {
    v in a && |Filter(a, x => x <= v)| >= below && |Filter(a, x => x >= v)| >= above
  }

  /** The k-th figure of a sorted list, counted in any order of the list. */
  lemma {:induction false} RankSplits(a: seq<int>, s: seq<int>, k: nat)
    requires multiset(a) == multiset(s) && k < |s| && SortedBy(s, (x, y) => x <= y)
    ensures Splits(a, s[k], k + 1, |s| - k)
  {
    var v := s[k];
    SameElements(a, s);
    assert forall i :: 0 <= i <= k ==> s[i] <= v;
    assert forall i :: k <= i < |s| ==> v <= s[i];
    FilterAnyOrder(a, s, x => x <= v);
    FilterAnyOrder(a, s, x => x >= v);
    assert s == s[..k + 1] + s[k + 1..] && s == s[..k] + s[k..];
    FilterAppend(s[..k + 1], s[k + 1..], x => x <= v);
    FilterAll(s[..k + 1], x => x <= v);
    FilterAppend(s[..k], s[k..], x => x >= v);
    FilterAll(s[k..], x => x >= v);
  }

  /** The two middle figures of an even number: half of them and one more lie beside each. */
  ghost predicate MiddlePair(a: seq<int>, low: int, high: int) {
    low <= high && Splits(a, low, |a| / 2, |a| / 2 + 1) && Splits(a, high, |a| / 2 + 1, |a| / 2)
  }

  lemma {:induction false} MiddleMeans(a: seq<int>, s: seq<int>)
    requires multiset(a) == multiset(s) && |a| == |s| > 0 && SortedBy(s, (x, y) => x <= y)
    ensures |a| % 2 == 1 ==> Splits(a, MiddleOf(s), |a| / 2 + 1, |a| / 2 + 1)
    ensures |a| % 2 == 0 ==>
              exists low, high :: MiddlePair(a, low, high) && IsNearest(MiddleOf(s), (low + high) as real / 2.0)
  {
    var h := |a| / 2;
    RankSplits(a, s, h);
    if |a| % 2 == 0 {
      RankSplits(a, s, h - 1);
      RoundIsNearest((s[h - 1] + s[h]) as real / 2.0);
      assert MiddlePair(a, s[h - 1], s[h]);
    }
  }

  /** What the median is, of the yearly figures in any order: none when there are none; of an odd
      number, the figure with more than half of them at or below it and more than half at or above
      it; of an even number, the mean of the two middle figures, rounded to the nearest dollar and a
      half to the even one. */
  lemma {:induction false} MedianMeans(vs: seq<Option<int>>)
    ensures var a := Annual(vs);
            && (Median(vs) == None <==> a == [])
            && (|a| % 2 == 1 ==> Splits(a, Median(vs).value, |a| / 2 + 1, |a| / 2 + 1))
            && (a != [] && |a| % 2 == 0 ==>
                  exists low, high :: MiddlePair(a, low, high) && IsNearest(Median(vs).value, (low + high) as real / 2.0))
  {
    var a := Annual(vs);
    if a != [] {
      SortSorted(a, (x: int, y: int) => x <= y);
      MiddleMeans(a, Sort(a, (x, y) => x <= y));
    }
  }

  lemma {:induction false} FewerSatisfy<T>(s: seq<T>, p: T -> bool, q: T -> bool)
    requires forall x :: x in s ==> !(p(x) && q(x))
    ensures |Filter(s, p)| + |Filter(s, q)| <= |s|
  {
    if s != [] {
      FewerSatisfy(s[1..], p, q);
      assert s[0] in s;
    }
  }

  /** Such a figure is unique, so this says which number is reported. */
  lemma {:induction false} SplitsAreUnique(a: seq<int>, v: int, w: int, below: nat, above: nat)
    requires Splits(a, v, below, above) && Splits(a, w, below, above) && below + above == |a| + 1
    ensures v == w
  {
    var low, high := if v < w then v else w, if v < w then w else v;
    if low < high {
      FewerSatisfy(a, x => x <= low, x => x >= high);
    }
  }

  // ---------------------------------------------------------------- memory against database

  lemma {:induction false} MapFilter(rows: seq<Row>, p: Job -> bool, q: Row -> bool)
    requires forall r :: r in rows ==> p(ToJob(r)) == q(r)
    ensures Filter(MapJobs(rows), p) == MapJobs(Filter(rows, q))
  {
    if rows != [] {
      MapFilter(rows[1..], p, q);
      assert MapJobs(rows)[1..] == MapJobs(rows[1..]);
      assert p(ToJob(rows[0])) == q(rows[0]);
      assert q(rows[0]) ==> Filter(rows, q)[1..] == Filter(rows[1..], q);
    }
  }

  lemma {:induction false} MapAt(rows: seq<Row>)
    ensures |MapJobs(rows)| == |rows|
    ensures forall i :: 0 <= i < |rows| ==> MapJobs(rows)[i] == ToJob(rows[i])
  {
    if rows != [] {
      MapAt(rows[1..]);
      forall i | 0 < i < |rows|
        ensures MapJobs(rows)[i] == ToJob(rows[i])
      {
        assert MapJobs(rows)[i] == MapJobs(rows[1..])[i - 1] && rows[1..][i - 1] == rows[i];
      }
    }
  }

  lemma {:induction false} MapColumns(rows: seq<Row>)
    ensures |MapJobs(rows)| == |rows|
    ensures forall i :: 0 <= i < |rows| ==> MapJobs(rows)[i] == ToJob(rows[i])
    ensures forall j :: j in MapJobs(rows) <==> exists r :: r in rows && ToJob(r) == j
  {
    MapAt(rows);
    forall j | j in MapJobs(rows)
      ensures exists r :: r in rows && ToJob(r) == j
    {
      var i :| 0 <= i < |rows| && MapJobs(rows)[i] == j;
      assert rows[i] in rows;
    }
    forall r | r in rows
      ensures ToJob(r) in MapJobs(rows)
    {
      var i :| 0 <= i < |rows| && rows[i] == r;
      assert MapJobs(rows)[i] == ToJob(r);
    }
  }

  /** One count: the jobs in memory with a property against the rows whose condition is Yes. */
  lemma {:induction false} SameCount(members: seq<Row>, found: seq<Row>, p: Job -> bool, q: Row -> bool)
    requires multiset(members) == multiset(found)
    requires forall r :: r in members ==> p(ToJob(r)) == q(r)
    ensures |Filter(MapJobs(members), p)| == |Filter(found, q)|
  {
    MapFilter(members, p, q);
    MapColumns(Filter(members, q));
    FilterAnyOrder(members, found, q);
  }

  lemma {:induction false} SameEmployers(members: seq<Row>, found: seq<Row>)
    requires multiset(members) == multiset(found)
    requires forall r :: r in members ==> r.companyKey != Some("")
    ensures (set j | j in MapJobs(members) :: Employer(j)) == (set r | r in found :: EmployerColumn(r))
  {
    SameElements(members, found);
    MapColumns(members);
    var a, b := set j | j in MapJobs(members) :: Employer(j), set r | r in found :: EmployerColumn(r);
    forall e | e in a
      ensures e in b
    {
      var j :| j in MapJobs(members) && Employer(j) == e;
      var r :| r in members && ToJob(r) == j;
      assert EmployerColumn(r) == e;
    }
    forall e | e in b
      ensures e in a
    {
      var r :| r in found && EmployerColumn(r) == e;
      assert ToJob(r) in MapJobs(members) && Employer(ToJob(r)) == e;
    }
  }

  lemma {:induction false} SalaryClauseIsListed(r: Row)
    ensures (SalaryListedClause(r) == Yes <==> SalaryListed(ToJob(r).salaryMin, ToJob(r).salaryMax, ToJob(r).currency)) <==>
            !(r.currency == Some("") && (Plausible(r.salaryMin) || Plausible(r.salaryMax)))
  {
  }

  /** One column's median, in memory and in the database. */
  lemma {:induction false} SameMedian(
    members: seq<Row>, found: seq<Row>, p: Job -> bool, q: Row -> bool, f: Job -> Option<int>, g: Row -> Option<int>)
    requires multiset(members) == multiset(found)
    requires forall r :: r in members ==> p(ToJob(r)) == q(r)
    requires forall r :: f(ToJob(r)) == g(r)
    ensures Median(Column(Filter(MapJobs(members), p), f)) == Median(Column(Filter(found, q), g))
  {
    MapFilter(members, p, q);
    MapColumns(Filter(members, q));
    assert Column(MapJobs(Filter(members, q)), f) == Column(Filter(members, q), g);
    FilterAnyOrder(members, found, q);
    ColumnAnyOrder(Filter(members, q), Filter(found, q), g);
    MedianAnyOrder(Column(Filter(members, q), g), Column(Filter(found, q), g));
  }

  lemma {:induction false} SameMembers(z: Zone, rows: seq<Row>, ds: seq<Dimension>, now: Moment)
    requires ValidZone(z) && forall r :: r in rows ==> Clean(r)
    ensures Members(z, MapJobs(rows), ds, now) == MapJobs(Filter(rows, (r: Row) => Where(z, ds, r, now) == Yes))
  {
    forall r | r in rows
      ensures (!ToJob(r).closed && MatchesAll(z, ds, ToJob(r), now)) == (Where(z, ds, r, now) == Yes)
    {
      ClauseAllIsMatchesAll(z, ds, r, now);
    }
    MapFilter(rows, (j: Job) => !j.closed && MatchesAll(z, ds, j, now), (r: Row) => Where(z, ds, r, now) == Yes);
  }

  lemma {:induction false} SalaryQuery(z: Zone, rows: seq<Row>, ds: seq<Dimension>, now: Moment)
    ensures Filter(rows, (r: Row) => And(Where(z, ds, r, now), SalaryListedClause(r)) == Yes) ==
            Filter(Filter(rows, (r: Row) => Where(z, ds, r, now) == Yes), (r: Row) => SalaryListedClause(r) == Yes)
  {
    FilterTwice(rows, (r: Row) => Where(z, ds, r, now) == Yes, (r: Row) => SalaryListedClause(r) == Yes,
                (r: Row) => And(Where(z, ds, r, now), SalaryListedClause(r)) == Yes);
  }

  /** The same numbers both ways: over any list of dimensions, and however the database orders the
      eligible rows. */
  lemma {:induction false} MemoryAgreesWithDatabase(z: Zone, rows: seq<Row>, dbRows: seq<Row>, ds: seq<Dimension>, now: Moment)
    requires ValidZone(z) && multiset(rows) == multiset(dbRows)
    requires forall r :: r in rows ==> Clean(r)
    ensures Calculate(z, MapJobs(rows), ds, now) == FromDb(z, dbRows, ds, now)
  {
    var members := Filter(rows, (r: Row) => Where(z, ds, r, now) == Yes);
    var found := Filter(dbRows, (r: Row) => Where(z, ds, r, now) == Yes);
    SameMembers(z, rows, ds, now);
    FilterAnyOrder(rows, dbRows, (r: Row) => Where(z, ds, r, now) == Yes);
    MapColumns(members);
    forall r | r in members
      ensures Clean(r)
    {
      FilterMembers(rows, (r: Row) => Where(z, ds, r, now) == Yes, r);
    }
    SameEmployers(members, found);
    SameKinds(members, found);
    SameTimes(z, members, found, now);
    SalaryQuery(z, dbRows, ds, now);
    forall r | r in members {
      SalaryClauseIsListed(r);
    }
    var p, q := (j: Job) => SalaryListed(j.salaryMin, j.salaryMax, j.currency), (r: Row) => SalaryListedClause(r) == Yes;
    SameMedian(members, found, p, q, (j: Job) => j.salaryMin, (r: Row) => r.salaryMin);
    SameMedian(members, found, p, q, (j: Job) => j.salaryMax, (r: Row) => r.salaryMax);
  }

  lemma {:induction false} SameKinds(members: seq<Row>, found: seq<Row>)
    requires multiset(members) == multiset(found) && forall r :: r in members ==> Clean(r)
    ensures var js := MapJobs(members);
            && |Filter(js, (j: Job) => j.workplace == Remote)| == |Filter(found, (r: Row) => Of(r.workplace == Remote) == Yes)|
            && |Filter(js, (j: Job) => j.workplace == Hybrid)| == |Filter(found, (r: Row) => Of(r.workplace == Hybrid) == Yes)|
            && |Filter(js, (j: Job) => j.workplace == Onsite)| == |Filter(found, (r: Row) => Of(r.workplace == Onsite) == Yes)|
            && |Filter(js, (j: Job) => SalaryListed(j.salaryMin, j.salaryMax, j.currency))|
               == |Filter(found, (r: Row) => SalaryListedClause(r) == Yes)|
  {
    forall r | r in members {
      SalaryClauseIsListed(r);
    }
    SameCount(members, found, (j: Job) => j.workplace == Remote, (r: Row) => Of(r.workplace == Remote) == Yes);
    SameCount(members, found, (j: Job) => j.workplace == Hybrid, (r: Row) => Of(r.workplace == Hybrid) == Yes);
    SameCount(members, found, (j: Job) => j.workplace == Onsite, (r: Row) => Of(r.workplace == Onsite) == Yes);
    SameCount(members, found, (j: Job) => SalaryListed(j.salaryMin, j.salaryMax, j.currency),
              (r: Row) => SalaryListedClause(r) == Yes);
  }

  lemma {:induction false} SameTimes(z: Zone, members: seq<Row>, found: seq<Row>, now: Moment)
    requires multiset(members) == multiset(found)
    ensures var js := MapJobs(members);
            && |Filter(js, (j: Job) => PostedLately(z, j, now))|
               == |Filter(found, (r: Row) => Between(r.postedAt, z.dayOf(now - WINDOW), Today(z, now)) == Yes)|
            && |Filter(js, (j: Job) => Lately(Some(j.foundAt), now))|
               == |Filter(found, (r: Row) => LatelyClause(Some(r.foundAt), now) == Yes)|
            && |Filter(js, (j: Job) => Lately(j.lastSeenAt, now))|
               == |Filter(found, (r: Row) => LatelyClause(r.lastSeenAt, now) == Yes)|
  {
    SameCount(members, found, (j: Job) => PostedLately(z, j, now),
              (r: Row) => Between(r.postedAt, z.dayOf(now - WINDOW), Today(z, now)) == Yes);
    SameCount(members, found, (j: Job) => Lately(Some(j.foundAt), now),
              (r: Row) => LatelyClause(Some(r.foundAt), now) == Yes);
    SameCount(members, found, (j: Job) => Lately(j.lastSeenAt, now),
              (r: Row) => LatelyClause(r.lastSeenAt, now) == Yes);
  }

  /** Open, and in every dimension. */
  predicate In(z: Zone, ds: seq<Dimension>, j: Job, now: Moment) {
    !j.closed && forall d :: d in ds ==> Matches(z, d, j, now)
  }

  predicate Within(v: Option<int>, low: int, high: int) {
    v.Some? && low <= v.value <= high
  }

  /** The counts, each as the jobs of the collection with a property of their own columns. Found and
      verified look back 86,400 seconds to the second, and posted to the day they began on; a salary
      is listed in dollars, as a figure from 1 to 2,000,000 at either end. */
  lemma {:induction false} CountsMean(z: Zone, jobs: seq<Job>, ds: seq<Dimension>, now: Moment)
    ensures var s := Calculate(z, jobs, ds, now);
            && s.openJobs == |Filter(jobs, (j: Job) => In(z, ds, j, now))|
            && s.remote == |Filter(jobs, (j: Job) => In(z, ds, j, now) && j.workplace == Remote)|
            && s.hybrid == |Filter(jobs, (j: Job) => In(z, ds, j, now) && j.workplace == Hybrid)|
            && s.onsite == |Filter(jobs, (j: Job) => In(z, ds, j, now) && j.workplace == Onsite)|
            && s.posted24h == |Filter(jobs, (j: Job) => In(z, ds, j, now)
                                        && Within(j.postedAt, z.dayOf(now - 86_400), z.dayOf(now)))|
            && s.found24h == |Filter(jobs, (j: Job) => In(z, ds, j, now) && now - 86_400 < j.foundAt <= now)|
            && s.verified24h == |Filter(jobs, (j: Job) => In(z, ds, j, now) && Within(j.lastSeenAt, now - 86_399, now))|
  {
    var members := Members(z, jobs, ds, now);
    FilterSame(jobs, (j: Job) => !j.closed && MatchesAll(z, ds, j, now), (j: Job) => In(z, ds, j, now));
    FilterTwice(jobs, (j: Job) => In(z, ds, j, now), (j: Job) => j.workplace == Remote,
                (j: Job) => In(z, ds, j, now) && j.workplace == Remote);
    FilterTwice(jobs, (j: Job) => In(z, ds, j, now), (j: Job) => j.workplace == Hybrid,
                (j: Job) => In(z, ds, j, now) && j.workplace == Hybrid);
    FilterTwice(jobs, (j: Job) => In(z, ds, j, now), (j: Job) => j.workplace == Onsite,
                (j: Job) => In(z, ds, j, now) && j.workplace == Onsite);
    FilterTwice(jobs, (j: Job) => In(z, ds, j, now), (j: Job) => PostedLately(z, j, now),
                (j: Job) => In(z, ds, j, now) && Within(j.postedAt, z.dayOf(now - 86_400), z.dayOf(now)));
    FilterTwice(jobs, (j: Job) => In(z, ds, j, now), (j: Job) => Lately(Some(j.foundAt), now),
                (j: Job) => In(z, ds, j, now) && now - 86_400 < j.foundAt <= now);
    FilterTwice(jobs, (j: Job) => In(z, ds, j, now), (j: Job) => Lately(j.lastSeenAt, now),
                (j: Job) => In(z, ds, j, now) && Within(j.lastSeenAt, now - 86_399, now));
  }

  lemma {:induction false} FilterSame<T>(s: seq<T>, p: T -> bool, q: T -> bool)
    requires forall x :: x in s ==> p(x) == q(x)
    ensures Filter(s, p) == Filter(s, q)
  {
    if s != [] {
      FilterSame(s[1..], p, q);
      assert s[0] in s;
    }
  }

  /** The companies: a job counts for its company key, or for its domain without one. */
  lemma {:induction false} CompaniesMean(z: Zone, jobs: seq<Job>, ds: seq<Dimension>, now: Moment)
    ensures Calculate(z, jobs, ds, now).companies ==
            |set j | j in jobs && In(z, ds, j, now) :: if j.companyKey in {None, Some("")} then j.domain else j.companyKey.value|
  {
    var members := Members(z, jobs, ds, now);
    forall j
      ensures j in members <==> j in jobs && In(z, ds, j, now)
      ensures Employer(j) == if j.companyKey in {None, Some("")} then j.domain else j.companyKey.value
    {
      FilterMembers(jobs, (j: Job) => !j.closed && MatchesAll(z, ds, j, now), j);
    }
    assert (set j | j in members :: Employer(j)) ==
           (set j | j in jobs && In(z, ds, j, now) :: if j.companyKey in {None, Some("")} then j.domain else j.companyKey.value);
  }

  /** The jobs the salary numbers are about. */
  predicate PaysInDollars(j: Job) {
    (j.currency == None || j.currency == Some("USD")) && (Within(j.salaryMin, 1, 2_000_000) || Within(j.salaryMax, 1, 2_000_000))
  }

  /** The salary numbers: the collection's jobs that list a salary in dollars, and the medians of
      their lower and upper ends. */
  lemma {:induction false} SalariesMean(z: Zone, jobs: seq<Job>, ds: seq<Dimension>, now: Moment)
    ensures var s, paid := Calculate(z, jobs, ds, now), Filter(jobs, (j: Job) => In(z, ds, j, now) && PaysInDollars(j));
            && s.withSalary == |paid|
            && s.medianMin == Median(seq(|paid|, i requires 0 <= i < |paid| => paid[i].salaryMin))
            && s.medianMax == Median(seq(|paid|, i requires 0 <= i < |paid| => paid[i].salaryMax))
  {
    var p := (j: Job) => SalaryListed(j.salaryMin, j.salaryMax, j.currency);
    FilterSame(jobs, (j: Job) => !j.closed && MatchesAll(z, ds, j, now), (j: Job) => In(z, ds, j, now));
    FilterTwice(jobs, (j: Job) => In(z, ds, j, now), p, (j: Job) => In(z, ds, j, now) && PaysInDollars(j));
    var paid := Filter(jobs, (j: Job) => In(z, ds, j, now) && PaysInDollars(j));
    assert Column(paid, (j: Job) => j.salaryMin) == seq(|paid|, i requires 0 <= i < |paid| => paid[i].salaryMin);
    assert Column(paid, (j: Job) => j.salaryMax) == seq(|paid|, i requires 0 <= i < |paid| => paid[i].salaryMax);
  }

  /** An empty company key is a company of its own in SQL and none in memory. */
  lemma {:induction false} EmployerIsColumn(r: Row)
    ensures Employer(ToJob(r)) == EmployerColumn(r) <==> r.companyKey != Some("") || r.domain == ""
  {
  }

  lemma {:induction false} OneIn<T>(x: T, p: T -> bool)
    ensures Filter([x], p) == if p(x) then [x] else []
  {
    assert [x][1..] == [];
  }

  lemma {:induction false} MedianOfOne(v: int)
    requires ANNUAL_SALARY_MIN <= v <= SALARY_PLAUSIBLE_MAX
    ensures Median([Some(v)]) == Some(v)
  {
    assert [Some(v)][1..] == [];
    assert Annual([Some(v)]) == [v];
    assert [v][1..] == [];
  }

  lemma {:induction false} InMemory(z: Zone, now: Moment)
    ensures var s := Calculate(z, MapJobs([NoCurrency(now)]), [], now);
            s.openJobs == 1 && s.withSalary == 1 && s.medianMin == Some(100_000)
  {
    var j := ToJob(NoCurrency(now));
    assert [NoCurrency(now)][1..] == [] && MapJobs([NoCurrency(now)]) == [j];
    OneIn(j, (j: Job) => !j.closed && MatchesAll(z, [], j, now));
    OneIn(j, (j: Job) => SalaryListed(j.salaryMin, j.salaryMax, j.currency));
    assert Column([j], (j: Job) => j.salaryMin) == [Some(100_000)];
    MedianOfOne(100_000);
  }

  lemma {:induction false} InDatabase(z: Zone, now: Moment)
    ensures var s := FromDb(z, [NoCurrency(now)], [], now); s.openJobs == 1 && s.withSalary == 0 && s.medianMin == None
  {
    var r := NoCurrency(now);
    assert "" != "USD";
    OneIn(r, (r: Row) => Where(z, [], r, now) == Yes);
    OneIn(r, (r: Row) => SalaryListedClause(r) == Yes);
    OneIn(r, (r: Row) => And(Where(z, [], r, now), SalaryListedClause(r)) == Yes);
    assert Column([], (r: Row) => r.salaryMin) == [];
  }

  /** With an empty currency the numbers really differ: one open job with a salary in memory, none in
      the database, and a median with it. */
  lemma {:induction false} EmptyCurrencyChangesNumbers(z: Zone, now: Moment)
    ensures var memory, database := Calculate(z, MapJobs([NoCurrency(now)]), [], now), FromDb(z, [NoCurrency(now)], [], now);
            && memory.openJobs == database.openJobs == 1
            && memory.withSalary == 1 && database.withSalary == 0
            && memory.medianMin == Some(100_000) && database.medianMin == None
  {
    InMemory(z, now);
    InDatabase(z, now);
  }
}
