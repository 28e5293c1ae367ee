/** app/services/collection_dimensions.py: which jobs belong to each dimension, once over a job in
    memory and once as a SQL condition with NULLs. */
module Dimensions {
  import opened Base

  type Day = int
  type Moment = int

  /** US Eastern: the day a moment falls on, the moment a day starts, and the wall clock. */
  datatype Zone = Zone(dayOf: Moment -> Day, startOf: Day -> Moment, wall: Moment -> int)

  /** Days are half-open intervals: a moment is on day d or later when d has started. */
  ghost predicate ValidZone(z: Zone) {
    forall t, d :: z.dayOf(t) >= d <==> t >= z.startOf(d)
  }

  datatype Workplace = Remote | Hybrid | Onsite | Unknown

  /** The columns of a posting and its URL. */
  datatype Row = Row(
    companyKey: Option<string>, domain: string, sector: string, workplace: Workplace,
    titles: Option<seq<string>>, metros: seq<string>,
    salaryMin: Option<int>, salaryMax: Option<int>, currency: Option<string>,
    postedAt: Option<Day>, foundAt: Moment, lastSeenAt: Option<Moment>, closedAt: Option<Moment>)

  /** A LinkJob: the same in memory. */
  datatype Job = Job(
    companyKey: Option<string>, domain: string, sector: string, workplace: Workplace,
    titles: seq<string>, metros: seq<string>,
    salaryMin: Option<int>, salaryMax: Option<int>, currency: Option<string>,
    postedAt: Option<Day>, foundAt: Moment, lastSeenAt: Option<Moment>, closed: bool)

  /** load_link_index's LinkJob(...): a NULL title list becomes an empty one, and an empty currency
      becomes none. */
  function ToJob(r: Row): Job {
    Job(r.companyKey, r.domain, r.sector, r.workplace,
        if r.titles.Some? then r.titles.value else [], r.metros,
        r.salaryMin, r.salaryMax, if r.currency == Some("") then None else r.currency,
        r.postedAt, r.foundAt, r.lastSeenAt, r.closedAt.Some?)
  }

  datatype Dimension =
    | Category(sector: string)
    | Role(title: string)
    | RemoteOnly
    | Area(code: string)
    | Salary(floor: int)
    | Posted(days: nat)
    | Found(days: nat)
    | Verified(days: nat)

  const SALARY_PLAUSIBLE_MAX := 2_000_000

  predicate UsDollars(currency: Option<string>) {
    currency == None || currency == Some("USD")
  }

  function Today(z: Zone, now: Moment): Day {
    z.dayOf(now)
  }

  function FirstDay(z: Zone, now: Moment, days: nat): Day {
    z.dayOf(now) - (days - 1)
  }

  predicate OnDays(z: Zone, at: Option<Moment>, now: Moment, days: nat) {
    at.Some? && FirstDay(z, now, days) <= z.dayOf(at.value) <= Today(z, now)
  }

  /** Dimension.matches */
  predicate Matches(z: Zone, d: Dimension, j: Job, now: Moment) {
    match d
    case Category(sector) => j.sector == sector
    case Role(title) => title in j.titles
    case RemoteOnly => j.workplace == Remote
    case Area(code) => code in j.metros
    case Salary(floor) =>
      var low := if j.salaryMin.Some? then j.salaryMin else j.salaryMax;
      low.Some? && floor <= low.value <= SALARY_PLAUSIBLE_MAX && UsDollars(j.currency)
    case Posted(days) => j.postedAt.Some? && FirstDay(z, now, days) <= j.postedAt.value <= Today(z, now)
    case Found(days) => OnDays(z, Some(j.foundAt), now, days)
    case Verified(days) => OnDays(z, j.lastSeenAt, now, days)
  }

  predicate MatchesAll(z: Zone, ds: seq<Dimension>, j: Job, now: Moment) {
    forall i :: 0 <= i < |ds| ==> Matches(z, ds[i], j, now)
  }

  /** What the freshness and salary dimensions mean: today and the days before it, so many in all,
      and a lower end (or else an upper end) in dollars from the floor to 2,000,000. So a longer
      window holds whatever a shorter one does, and a lower floor whatever a higher one does. */
  lemma {:induction false} WindowsNest(z: Zone, j: Job, now: Moment, n: int, more: nat)
    ensures Matches(z, Salary(n), j, now) <==>
              && j.currency in {None, Some("USD")} && (j.salaryMin.Some? || j.salaryMax.Some?)
              && n <= (if j.salaryMin.Some? then j.salaryMin.value else j.salaryMax.value) <= 2_000_000
    ensures Matches(z, Salary(n), j, now) ==> Matches(z, Salary(n - more), j, now)
    ensures n >= 0 ==>
              && (Matches(z, Posted(n), j, now) <==> j.postedAt.Some? && z.dayOf(now) - n < j.postedAt.value <= z.dayOf(now))
              && (Matches(z, Found(n), j, now) <==> z.dayOf(now) - n < z.dayOf(j.foundAt) <= z.dayOf(now))
              && (Matches(z, Verified(n), j, now) <==>
                    j.lastSeenAt.Some? && z.dayOf(now) - n < z.dayOf(j.lastSeenAt.value) <= z.dayOf(now))
              && (Matches(z, Posted(n), j, now) ==> Matches(z, Posted(n + more), j, now))
              && (Matches(z, Found(n), j, now) ==> Matches(z, Found(n + more), j, now))
              && (Matches(z, Verified(n), j, now) ==> Matches(z, Verified(n + more), j, now))
  {
    assert Matches(z, Salary(n), j, now) ==> j.currency == None || j.currency == Some("USD");
  }

  // ---------------------------------------------------------------- SQL's three values

  datatype Tri = Yes | No | Null

  function Of(b: bool): Tri {
    if b then Yes else No
  }

  function And(a: Tri, b: Tri): Tri {
    if a == No || b == No then No else if a == Null || b == Null then Null else Yes
  }

  function Or(a: Tri, b: Tri): Tri {
    if a == Yes || b == Yes then Yes else if a == Null || b == Null then Null else No
  }

  function AtLeast(column: Option<int>, v: int): Tri {
    if column.None? then Null else Of(column.value >= v)
  }

  function AtMost(column: Option<int>, v: int): Tri {
    if column.None? then Null else Of(column.value <= v)
  }

  function Over(column: Option<int>, v: int): Tri {
    if column.None? then Null else Of(column.value > v)
  }

  function Before(column: Option<int>, v: int): Tri {
    if column.None? then Null else Of(column.value < v)
  }

  function Between(column: Option<int>, low: int, high: int): Tri {
    And(AtLeast(column, low), AtMost(column, high))
  }

  function Equals(column: Option<string>, v: string): Tri {
    if column.None? then Null else Of(column.value == v)
  }

  /** currency IS NULL OR currency = 'USD' */
  function UsDollarsClause(currency: Option<string>): Tri {
    Or(Of(currency.None?), Equals(currency, "USD"))
  }

  function Coalesce(a: Option<int>, b: Option<int>): Option<int> {
    if a.Some? then a else b
  }

  /** day_bounds_utc of the first day and of today, as one half-open interval */
  function OnDaysClause(z: Zone, column: Option<Moment>, now: Moment, days: nat): Tri {
    And(AtLeast(column, z.startOf(FirstDay(z, now, days))), Before(column, z.startOf(Today(z, now) + 1)))
  }

  /** Dimension.clause */
  function Clause(z: Zone, d: Dimension, r: Row, now: Moment): Tri {
    match d
    case Category(sector) => Of(r.sector == sector)
    case Role(title) => if r.titles.None? then Null else Of(title in r.titles.value)
    case RemoteOnly => Of(r.workplace == Remote)
    case Area(code) => Of(code in r.metros)
    case Salary(floor) =>
      var low := Coalesce(r.salaryMin, r.salaryMax);
      And(And(AtLeast(low, floor), AtMost(low, SALARY_PLAUSIBLE_MAX)), UsDollarsClause(r.currency))
    case Posted(days) => Between(r.postedAt, FirstDay(z, now, days), Today(z, now))
    case Found(days) => OnDaysClause(z, Some(r.foundAt), now, days)
    case Verified(days) => OnDaysClause(z, r.lastSeenAt, now, days)
  }

  function ClauseAll(z: Zone, ds: seq<Dimension>, r: Row, now: Moment): Tri {
    if ds == [] then Yes else And(Clause(z, ds[0], r, now), ClauseAll(z, ds[1..], r, now))
  }

  /** No column holds the empty string where code tests it for truth. */
  predicate Clean(r: Row) {
    r.companyKey != Some("") && r.currency != Some("")
  }

  /** A salary floor the figure meets, on a row whose currency is the empty string: memory reads the
      currency as missing, SQL as another one. */
  predicate Misread(d: Dimension, r: Row) {
    d.Salary? && r.currency == Some("") &&
    var low := Coalesce(r.salaryMin, r.salaryMax);
    low.Some? && d.floor <= low.value <= SALARY_PLAUSIBLE_MAX
  }

  /** Both halves of a dimension pick the same jobs, exactly but for misread currencies. */
  lemma {:induction false} ClauseIsMatches(z: Zone, d: Dimension, r: Row, now: Moment)
    requires ValidZone(z)
    ensures (Clause(z, d, r, now) == Yes <==> Matches(z, d, ToJob(r), now)) <==> !Misread(d, r)
    ensures Misread(d, r) ==> Matches(z, d, ToJob(r), now)
  {
    if d.Found? || d.Verified? {
      var at := if d.Found? then Some(r.foundAt) else r.lastSeenAt;
      if at.Some? {
        assert z.dayOf(at.value) >= FirstDay(z, now, d.days) <==> at.value >= z.startOf(FirstDay(z, now, d.days));
        assert z.dayOf(at.value) >= Today(z, now) + 1 <==> at.value >= z.startOf(Today(z, now) + 1);
      }
    }
  }

  /** The condition says Yes when every dimension's does. */
  lemma {:induction false} ClauseAllIsEach(z: Zone, ds: seq<Dimension>, r: Row, now: Moment)
    ensures ClauseAll(z, ds, r, now) == Yes <==> forall i :: 0 <= i < |ds| ==> Clause(z, ds[i], r, now) == Yes
  {
    if ds != [] {
      ClauseAllIsEach(z, ds[1..], r, now);
      if forall i :: 0 <= i < |ds| ==> Clause(z, ds[i], r, now) == Yes {
        forall i | 0 <= i < |ds[1..]|
          ensures Clause(z, ds[1..][i], r, now) == Yes
        {
          assert ds[1..][i] == ds[i + 1];
        }
      } else if Clause(z, ds[0], r, now) == Yes {
        var i :| 0 <= i < |ds| && Clause(z, ds[i], r, now) != Yes;
        assert ds[1..][i - 1] == ds[i];
      }
    }
  }

  /** Over any list of dimensions the two pick the same jobs, except a job that memory puts in the
      collection and whose currency a salary floor among them misreads. */
  lemma {:induction false} ClauseAllIsMatchesAll(z: Zone, ds: seq<Dimension>, r: Row, now: Moment)
    requires ValidZone(z)
    ensures (ClauseAll(z, ds, r, now) == Yes <==> MatchesAll(z, ds, ToJob(r), now)) <==>
            !(MatchesAll(z, ds, ToJob(r), now) && exists i :: 0 <= i < |ds| && Misread(ds[i], r))
  {
    ClauseAllIsEach(z, ds, r, now);
    forall i | 0 <= i < |ds|
      ensures (Clause(z, ds[i], r, now) == Yes <==> Matches(z, ds[i], ToJob(r), now)) <==> !Misread(ds[i], r)
      ensures Misread(ds[i], r) ==> Matches(z, ds[i], ToJob(r), now)
    {
      ClauseIsMatches(z, ds[i], r, now);
    }
  }

  /** A posting at $100,000 whose currency is the empty string. */
  function NoCurrency(now: Moment): Row {
    Row(Some("acme"), "acme.com", "tech", Remote, None, [], Some(100_000), None, Some(""), None, now, None, None)
  }

  lemma {:induction false} EmptyCurrencyDisagrees(z: Zone, now: Moment)
    ensures Matches(z, Salary(75_000), ToJob(NoCurrency(now)), now)
    ensures Clause(z, Salary(75_000), NoCurrency(now), now) == No
  {
    assert "" != "USD";
  }
}
