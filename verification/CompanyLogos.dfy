/** app/services/company_logos.py: which website domain each company claims, and the logo that
    follows from it. */
module CompanyLogos {
  import opened Base

  type Key = string
  type Domain = string
  type Moment = int

  /** domain_source, from the weakest. */
  datatype Source = Unset | Shared | SiteHost | LogoDev | JsonLd | ManualEdit

  datatype Origin = FromLogoDev | FromUrl | FromUpload

  datatype LogoStatus = Found | Missing | Failed

  datatype Company = Company(
    domain: Option<Domain>, source: Source,
    logo: Option<string>, origin: Option<Origin>, etag: Option<string>, logoDomain: Option<Domain>,
    status: Option<LogoStatus>, checkedAt: Option<Moment>)

  type Rows = map<Key, Company>

  const SHARED_DOMAIN_COMPANY_LIMIT := 2

  function Rank(s: Source): nat {
    match s
    case Unset => 0
    case Shared => 0
    case SiteHost => 1
    case LogoDev => 2
    case JsonLd => 3
    case ManualEdit => 4
  }

  function New(): Company {
    Company(None, Unset, None, None, None, None, None, None)
  }

  predicate Pinned(c: Company) {
    c.origin == Some(FromUrl) || c.origin == Some(FromUpload)
  }

  function UsableDomain(c: Company): Option<Domain> {
    if c.source == Unset || c.source == Shared then None else c.domain
  }

  /** _clear_automatic_logo */
  function Cleared(c: Company): Company {
    if Pinned(c) then c
    else c.(logo := None, origin := None, etag := None, logoDomain := None, status := None, checkedAt := None)
  }

  /** The companies whose job-page hosts point at a domain. */
  function Claims(rows: Rows, d: Domain): set<Key> {
    set k | k in rows && rows[k].domain == Some(d) && (rows[k].source == SiteHost || rows[k].source == Shared)
  }

  predicate SharedByOthers(rows: Rows, d: Domain, key: Key) {
    |Claims(rows, d) - {key}| >= SHARED_DOMAIN_COMPANY_LIMIT
  }

  /** _evict_shared_site_host */
  function Evicted(rows: Rows, d: Domain): Rows {
    map k | k in rows ::
      if rows[k].domain == Some(d) && rows[k].source == SiteHost then Cleared(rows[k].(source := Shared)) else rows[k]
  }

  datatype Candidate = Candidate(source: Source, domain: Option<Domain>)

  /** One turn of resolve_company's loop: the rows after it, and whether it breaks. */
  function Try(platform: set<Domain>, rows: Rows, key: Key, c: Candidate): (Rows, bool)
    requires key in rows
  {
    var company := rows[key];
    if Rank(c.source) < Rank(company.source) then (rows, true)
    else if c.domain.None? || c.domain.value in platform then (rows, false)
    else
      var d := c.domain.value;
      if SharedByOthers(rows, d, key) then (if c.source == SiteHost then Evicted(rows, d) else rows, false)
      else if company.domain == Some(d) then (rows[key := company.(source := c.source)], true)
      else if Rank(c.source) == Rank(company.source) && company.domain.Some? then (rows, false)
      else (rows[key := Cleared(company.(domain := Some(d), source := c.source))], true)
  }

  function Resolved(platform: set<Domain>, rows: Rows, key: Key, cs: seq<Candidate>): Rows
    requires key in rows
  {
    if cs == [] then rows
    else
      var t := Try(platform, rows, key, cs[0]);
      if t.1 then t.0 else Resolved(platform, t.0, key, cs[1..])
  }

  function WithCompany(rows: Rows, key: Key): Rows {
    if key in rows then rows else rows[key := New()]
  }

  /** What an admin typed: nothing, something with no registrable domain, or a domain. */
  datatype Typed = Blank | Invalid | Valid(domain: Domain)

  function ManualDomain(c: Company, typed: Typed): Company {
    if typed.Invalid? then c
    else
      var d := if typed.Valid? then Some(typed.domain) else None;
      var c1 := if d != c.domain then Cleared(c) else c;
      c1.(domain := d, source := if d.Some? then ManualEdit else Unset)
  }

  datatype Outcome = Ok(logo: string, etag: Option<string>) | Unchanged | Nothing | Error

  /** A company's lookup: put off (deferred, pending, rate limited), or an outcome, with the domain
      a name search found. */
  datatype Lookup = Later | Done(outcome: Outcome, found: Option<Domain>)

  /** What _lookup returns for a company as it was read: it only fetches for a domain it was given
      or found, and it never sees a pinned one. */
  predicate LookupFor(c: Company, l: Lookup) {
    && !Pinned(c)
    && (l.Done? && (l.outcome.Ok? || l.outcome.Unchanged?) ==> UsableDomain(c).Some? || l.found.Some?)
  }

  /** One turn of sync_company_logos' write-back loop. */
  function Synced(c: Company, l: Lookup, now: Moment): Company {
    if l.Later? then c
    else
      var c1 := if l.found.Some? && UsableDomain(c).None? then c.(domain := l.found, source := LogoDev) else c;
      var c2 := c1.(checkedAt := Some(now),
                    status := Some(match l.outcome
                                   case Ok(_, _) => Found
                                   case Unchanged => Found
                                   case Nothing => Missing
                                   case Error => Failed));
      match l.outcome
      case Ok(logo, etag) => c2.(logo := Some(logo), origin := Some(FromLogoDev), etag := etag, logoDomain := UsableDomain(c2))
      case Nothing => c2.(logo := None, origin := None, etag := None)
      case _ => c2
  }

  function ManualLogo(c: Company, logo: string, origin: Origin): Company {
    c.(logo := Some(logo), origin := Some(origin), etag := None)
  }

  function NoLogo(c: Company): Company {
    c.(logo := None, origin := None, etag := None, status := None, checkedAt := None, logoDomain := None)
  }

  // ---------------------------------------------------------------- the service

  class Registry {
    const platform: set<Domain>
    var rows: Rows

    constructor (platform: set<Domain>)
      ensures this.platform == platform && rows == map[]
    {
      this.platform := platform;
      rows := map[];
    }

    method EvictSharedSiteHost(d: Domain)
      modifies this
      ensures rows == Evicted(old(rows), d)
    {
      var keys := rows.Keys;
      while keys != {}
        invariant keys <= old(rows).Keys && rows.Keys == old(rows).Keys
        invariant forall k :: k in rows ==> rows[k] == if k in keys then old(rows)[k] else Evicted(old(rows), d)[k]
        decreases |keys|
      {
        var k :| k in keys;
        if rows[k].domain == Some(d) && rows[k].source == SiteHost {
          rows := rows[k := Cleared(rows[k].(source := Shared))];
        }
        keys := keys - {k};
      }
    }

    /** One turn of resolve_company's loop. */
    method TryCandidate(k: Key, c: Candidate) returns (settled: bool)
      requires k in rows
      modifies this
      ensures (rows, settled) == Try(platform, old(rows), k, c) && k in rows
    {
      var company := rows[k];
      if Rank(c.source) < Rank(company.source) {
        return true;
      }
      if c.domain.None? || c.domain.value in platform {
        return false;
      }
      var d := c.domain.value;
      if SharedByOthers(rows, d, k) {
        if c.source == SiteHost {
          EvictSharedSiteHost(d);
        }
        return false;
      }
      if company.domain == Some(d) {
        rows := rows[k := company.(source := c.source)];
        return true;
      }
      if Rank(c.source) == Rank(company.source) && company.domain.Some? {
        return false;
      }
      rows := rows[k := Cleared(company.(domain := Some(d), source := c.source))];
      return true;
    }

    /** resolve_company, from the JSON-LD organisation's domain and the job page's hosts in order. */
    method ResolveCompany(key: Option<Key>, named: bool, organisation: Option<Domain>, hosts: seq<Option<Domain>>)
      modifies this
      ensures key.None? || key.value == "" || !named ==> rows == old(rows)
      ensures key.Some? && key.value != "" && named ==>
                rows == Resolved(platform, WithCompany(old(rows), key.value), key.value, Candidates(organisation, hosts))
    {
      if key.None? || key.value == "" || !named {
        return;
      }
      var k := key.value;
      if k !in rows {
        rows := rows[k := New()];
      }
      var cs := Candidates(organisation, hosts);
      var i := 0;
      while i < |cs|
        invariant 0 <= i <= |cs| && k in rows
        invariant Resolved(platform, WithCompany(old(rows), k), k, cs) == Resolved(platform, rows, k, cs[i..])
      {
        var c := cs[i];
        assert cs[i..][1..] == cs[i + 1..] && cs[i..][0] == c;
        var settled := TryCandidate(k, c);
        if settled {
          return;
        }
        i := i + 1;
      }
    }

    method SetManualDomain(key: Key, typed: Typed) returns (ok: bool)
      requires key in rows
      modifies this
      ensures ok <==> !typed.Invalid?
      ensures rows == old(rows)[key := ManualDomain(old(rows)[key], typed)]
    {
      if typed.Invalid? {
        assert rows == rows[key := rows[key]];
        return false;
      }
      var d := if typed.Valid? then Some(typed.domain) else None;
      var c := rows[key];
      if d != c.domain {
        c := Cleared(c);
      }
      c := c.(domain := d);
      c := c.(source := if d.Some? then ManualEdit else Unset);
      rows := rows[key := c];
      return true;
    }

    /** set_manual_logo: uploaded by an admin, or fetched from a URL the admin gave. */
    method SetManualLogo(key: Key, logo: string, origin: Origin)
      requires key in rows && origin != FromLogoDev
      modifies this
      ensures rows == old(rows)[key := ManualLogo(old(rows)[key], logo, origin)]
    {
      var c := rows[key].(logo := Some(logo));
      c := c.(origin := Some(origin));
      rows := rows[key := c.(etag := None)];
    }

    /** clear_manual_logo: back to looking for one. */
    method ClearManualLogo(key: Key)
      requires key in rows
      modifies this
      ensures rows == old(rows)[key := NoLogo(old(rows)[key])]
    {
      var c := rows[key].(logo := None, origin := None, etag := None);
      rows := rows[key := c.(status := None, checkedAt := None, logoDomain := None)];
    }

    /** The write-back loop of sync_company_logos, over the companies it looked up. */
    method SyncCompanyLogos(batch: seq<(Key, Lookup)>, now: Moment)
      requires forall i :: 0 <= i < |batch| ==> batch[i].0 in rows && LookupFor(rows[batch[i].0], batch[i].1)
      requires forall i, j :: 0 <= i < j < |batch| ==> batch[i].0 != batch[j].0
      modifies this
      ensures rows.Keys == old(rows).Keys
      ensures forall i :: 0 <= i < |batch| ==> rows[batch[i].0] == Synced(old(rows)[batch[i].0], batch[i].1, now)
      ensures forall k :: k in rows && (forall i :: 0 <= i < |batch| ==> batch[i].0 != k) ==> rows[k] == old(rows)[k]
    {
      for n := 0 to |batch|
        invariant rows.Keys == old(rows).Keys
        invariant forall i :: 0 <= i < n ==> rows[batch[i].0] == Synced(old(rows)[batch[i].0], batch[i].1, now)
        invariant forall k :: k in rows && (forall i :: 0 <= i < n ==> batch[i].0 != k) ==> rows[k] == old(rows)[k]
      {
        var (k, l) := batch[n];
        var c := rows[k];
        if l.Done? {
          if l.found.Some? && UsableDomain(c).None? {
            c := c.(domain := l.found, source := LogoDev);
          }
          c := c.(checkedAt := Some(now));
          match l.outcome {
            case Ok(logo, etag) =>
              c := c.(status := Some(Found), logo := Some(logo), origin := Some(FromLogoDev), etag := etag);
              c := c.(logoDomain := UsableDomain(c));
            case Unchanged =>
              c := c.(status := Some(Found));
            case Nothing =>
              c := c.(status := Some(Missing), logo := None, origin := None, etag := None);
            case Error =>
              c := c.(status := Some(Failed));
          }
          rows := rows[k := c];
        }
      }
    }
  }

  function HostCandidates(hosts: seq<Option<Domain>>): seq<Candidate> {
    if hosts == [] then [] else [Candidate(SiteHost, hosts[0])] + HostCandidates(hosts[1..])
  }

  function Candidates(organisation: Option<Domain>, hosts: seq<Option<Domain>>): seq<Candidate> {
    [Candidate(JsonLd, organisation)] + HostCandidates(hosts)
  }

  // ---------------------------------------------------------------- what every step keeps

  /** A domain and its source come together, and an automatic logo belongs to the domain the
      company may use now. */
  predicate GoodCompany(c: Company) {
    && (c.source == Unset <==> c.domain.None?)
    && (c.origin == Some(FromLogoDev) ==> UsableDomain(c).Some? && c.logoDomain == UsableDomain(c))
  }

  ghost predicate Inv(rows: Rows) {
    && (forall k :: k in rows ==> GoodCompany(rows[k]))
    && (forall d :: |Claims(rows, d)| <= SHARED_DOMAIN_COMPANY_LIMIT)
  }

  lemma {:induction false} SubsetSize(a: set<Key>, b: set<Key>)
    requires a <= b
    ensures |a| <= |b|
  {
    assert b == a + (b - a);
  }

  /** Changing one row in a way that claims nothing new. */
  lemma {:induction false} NoNewClaim(rows: Rows, key: Key, c: Company)
    requires Inv(rows) && GoodCompany(c)
    requires c.source == SiteHost || c.source == Shared ==> key in rows && key in Claims(rows, c.domain.value)
    ensures Inv(rows[key := c])
  {
    var rows' := rows[key := c];
    forall d
      ensures |Claims(rows', d)| <= SHARED_DOMAIN_COMPANY_LIMIT
    {
      SubsetSize(Claims(rows', d), Claims(rows, d));
    }
  }

  /** A new claim on a domain fewer than two other companies claim. */
  lemma {:induction false} NewClaim(rows: Rows, key: Key, c: Company)
    requires Inv(rows) && GoodCompany(c) && c.domain.Some? && !SharedByOthers(rows, c.domain.value, key)
    ensures Inv(rows[key := c])
  {
    var rows' := rows[key := c];
    forall d
      ensures |Claims(rows', d)| <= SHARED_DOMAIN_COMPANY_LIMIT
    {
      if c.domain == Some(d) {
        SubsetSize(Claims(rows', d), (Claims(rows, d) - {key}) + {key});
      } else {
        SubsetSize(Claims(rows', d), Claims(rows, d));
      }
    }
  }

  lemma {:induction false} EvictedInv(rows: Rows, e: Domain)
    requires Inv(rows)
    ensures Inv(Evicted(rows, e))
  {
    forall d
      ensures |Claims(Evicted(rows, e), d)| <= SHARED_DOMAIN_COMPANY_LIMIT
    {
      assert Claims(Evicted(rows, e), d) == Claims(rows, d);
    }
  }

  lemma {:induction false} TryInv(platform: set<Domain>, rows: Rows, key: Key, c: Candidate)
    requires Inv(rows) && key in rows && (c.source == JsonLd || c.source == SiteHost)
    ensures Inv(Try(platform, rows, key, c).0) && Try(platform, rows, key, c).0.Keys == rows.Keys
  {
    var company := rows[key];
    if c.domain.Some? && Try(platform, rows, key, c).0 != rows {
      var d := c.domain.value;
      if SharedByOthers(rows, d, key) {
        EvictedInv(rows, d);
      } else {
        ClaimedInv(rows, key, c);
      }
    }
  }

  /** The two ways a scan's candidate is taken: confirming the domain the company has, or replacing
      it and dropping the logo that went with it. */
  lemma {:induction false} ClaimedInv(rows: Rows, key: Key, c: Candidate)
    requires Inv(rows) && key in rows && (c.source == JsonLd || c.source == SiteHost)
    requires c.domain.Some? && !SharedByOthers(rows, c.domain.value, key)
    ensures rows[key].domain == c.domain ==> Inv(rows[key := rows[key].(source := c.source)])
    ensures rows[key].domain != c.domain ==> Inv(rows[key := Cleared(rows[key].(domain := c.domain, source := c.source))])
  {
    var company := rows[key];
    assert GoodCompany(company);
    if company.domain == c.domain {
      NewClaim(rows, key, company.(source := c.source));
    } else {
      NewClaim(rows, key, Cleared(company.(domain := c.domain, source := c.source)));
    }
  }

  predicate Automatic(cs: seq<Candidate>) {
    forall i :: 0 <= i < |cs| ==> cs[i].source == JsonLd || cs[i].source == SiteHost
  }

  lemma {:induction false} CandidatesAutomatic(hosts: seq<Option<Domain>>)
    ensures Automatic(HostCandidates(hosts))
  {
    if hosts != [] {
      CandidatesAutomatic(hosts[1..]);
    }
  }

  /** A row a scan may leave: manual ones untouched, no rank lost but by eviction, a pinned logo
      kept. */
  predicate MayBecome(c: Company, c': Company) {
    && (c.source == ManualEdit ==> c' == c)
    && (Rank(c'.source) < Rank(c.source) ==> c.source == SiteHost && c'.source == Shared && c'.domain == c.domain)
    && (Pinned(c) ==> c'.logo == c.logo && c'.origin == c.origin)
  }

  lemma {:induction false} TryBecomes(platform: set<Domain>, rows: Rows, key: Key, c: Candidate, k: Key)
    requires key in rows && k in rows && (c.source == JsonLd || c.source == SiteHost)
    ensures k in Try(platform, rows, key, c).0
    ensures MayBecome(rows[k], Try(platform, rows, key, c).0[k])
    ensures k != key ==> Try(platform, rows, key, c).0[k] == rows[k] ||
                         (rows[k].source == SiteHost && Try(platform, rows, key, c).0[k] == Cleared(rows[k].(source := Shared)))
  {
    var rows' := Try(platform, rows, key, c).0;
    if c.domain.Some? && rows' == Evicted(rows, c.domain.value) {
      EvictedBecomes(rows, c.domain.value, k);
    } else if k == key {
      OwnRowBecomes(platform, rows, key, c);
    }
  }

  lemma {:induction false} OwnRowBecomes(platform: set<Domain>, rows: Rows, key: Key, c: Candidate)
    requires key in rows && (c.source == JsonLd || c.source == SiteHost)
    requires c.domain.Some? ==> Try(platform, rows, key, c).0 != Evicted(rows, c.domain.value)
    ensures MayBecome(rows[key], Try(platform, rows, key, c).0[key])
  {
  }

  lemma {:induction false} EvictedBecomes(rows: Rows, d: Domain, k: Key)
    requires k in rows
    ensures k in Evicted(rows, d) && MayBecome(rows[k], Evicted(rows, d)[k])
    ensures Evicted(rows, d)[k] == rows[k] ||
            (rows[k].source == SiteHost && Evicted(rows, d)[k] == Cleared(rows[k].(source := Shared)))
  {
  }

  /** A scan keeps the invariant, whatever hosts it offers. */
  lemma {:induction false} ResolvedInv(platform: set<Domain>, rows: Rows, key: Key, cs: seq<Candidate>)
    requires Inv(rows) && key in rows && Automatic(cs)
    ensures Inv(Resolved(platform, rows, key, cs)) && Resolved(platform, rows, key, cs).Keys == rows.Keys
  {
    if cs != [] {
      TryInv(platform, rows, key, cs[0]);
      var t := Try(platform, rows, key, cs[0]);
      if !t.1 {
        ResolvedInv(platform, t.0, key, cs[1..]);
      }
    }
  }

  /** What a scan may do to any company: never touch a manual domain, lower a rank only by evicting
      a shared host, never change a pinned logo. */
  lemma {:induction false} ScanBecomes(platform: set<Domain>, rows: Rows, key: Key, cs: seq<Candidate>, k: Key)
    requires Inv(rows) && key in rows && k in rows && Automatic(cs)
    ensures k in Resolved(platform, rows, key, cs)
    ensures var c, c' := rows[k], Resolved(platform, rows, key, cs)[k];
            && (c.source == ManualEdit ==> c' == c)
            && (Rank(c'.source) < Rank(c.source) ==> c.source == SiteHost && c'.source == Shared)
            && (Pinned(c) ==> c'.logo == c.logo && c'.origin == c.origin)
            && (k != key && c' != c ==> c.source == SiteHost && c'.source == Shared && c'.domain == c.domain)
  {
    if cs != [] {
      TryInv(platform, rows, key, cs[0]);
      TryBecomes(platform, rows, key, cs[0], k);
      var t := Try(platform, rows, key, cs[0]);
      if !t.1 {
        ScanBecomes(platform, t.0, key, cs[1..], k);
      }
    }
  }

  // ---------------------------------------------------------------- what a scan decides, in the row's columns

  /** How many other companies' job pages are hosted on a domain. */
  function OthersOn(rows: Rows, d: Domain, key: Key): nat {
    |set k | k in rows && k != key && rows[k].domain == Some(d) && rows[k].source in {SiteHost, Shared}|
  }

  lemma {:induction false} SharedMeansTwoOthers(rows: Rows, d: Domain, key: Key)
    ensures SharedByOthers(rows, d, key) <==> OthersOn(rows, d, key) >= 2
  {
    assert Claims(rows, d) - {key} ==
           set k | k in rows && k != key && rows[k].domain == Some(d) && rows[k].source in {SiteHost, Shared};
  }

  /** A logo that goes with its domain: an admin's own stays, any other is forgotten. */
  predicate LogoForgotten(c: Company, c': Company) {
    if c.origin in {Some(FromUrl), Some(FromUpload)} then
      && c'.logo == c.logo && c'.origin == c.origin && c'.etag == c.etag && c'.logoDomain == c.logoDomain
      && c'.status == c.status && c'.checkedAt == c.checkedAt
    else
      && c'.logo == None && c'.origin == None && c'.etag == None && c'.logoDomain == None
      && c'.status == None && c'.checkedAt == None
  }

  /** The row keeps its domain, and its logo and everything known of it. */
  predicate OnlySource(c: Company, c': Company, source: Source) {
    c' == c.(source := source)
  }

  /** Every company hosted on the domain loses it to sharing, with the logo that went with it. */
  ghost predicate HostLost(rows: Rows, rows': Rows, d: Domain) {
    && rows'.Keys == rows.Keys
    && forall k :: k in rows ==>
         if rows[k].domain == Some(d) && rows[k].source == SiteHost
         then rows'[k].domain == Some(d) && rows'[k].source == Shared && LogoForgotten(rows[k], rows'[k])
         else rows'[k] == rows[k]
  }

  /** An employer's own JSON-LD beats everything but an admin's edit and an earlier JSON-LD domain,
      and a name search beats a job page's host. */
  predicate Outranked(now: Source, offered: Source) {
    now == ManualEdit || (offered == SiteHost && now in {LogoDev, JsonLd})
  }

  /** One candidate of a scan, decided. The scan stops when the company's own source is stronger, and
      when the candidate is taken; it goes on past a candidate without a domain or on a platform, past
      one that two other companies are hosted on (which all of those lose), and past one no better
      than the domain there is. */
  lemma {:induction false} TryReads(platform: set<Domain>, rows: Rows, key: Key, c: Candidate)
    requires key in rows && c.source in {JsonLd, SiteHost}
    ensures var (rows', settled) := Try(platform, rows, key, c);
            var company := rows[key];
            if Outranked(company.source, c.source) then settled && rows' == rows
            else if c.domain.None? || c.domain.value in platform then !settled && rows' == rows
            else if OthersOn(rows, c.domain.value, key) >= 2 then
              !settled && if c.source == SiteHost then HostLost(rows, rows', c.domain.value) else rows' == rows
            else if company.domain == c.domain then
              settled && rows' == rows[key := company.(source := c.source)]
            else if company.source == c.source && company.domain.Some? then !settled && rows' == rows
            else
              && settled && key in rows' && rows' == rows[key := rows'[key]]
              && rows'[key].domain == c.domain && rows'[key].source == c.source && LogoForgotten(company, rows'[key])
  {
    if c.domain.Some? {
      SharedMeansTwoOthers(rows, c.domain.value, key);
    }
  }

  /** A scan tries the JSON-LD organisation first and then the job page's hosts in their order, until
      one settles it. */
  lemma {:induction false} ScanTriesInOrder(
    platform: set<Domain>, rows: Rows, key: Key, organisation: Option<Domain>, hosts: seq<Option<Domain>>)
    requires key in rows
    ensures var cs := Candidates(organisation, hosts);
            && |cs| == |hosts| + 1 && cs[0] == Candidate(JsonLd, organisation)
            && forall i :: 0 <= i < |hosts| ==> cs[i + 1] == Candidate(SiteHost, hosts[i])
    ensures var cs := Candidates(organisation, hosts);
            exists states: seq<Rows>, settled: seq<bool> ::
              TriedInTurn(platform, rows, key, cs, states, settled) && Resolved(platform, rows, key, cs) == states[|settled|]
  {
    HostsInOrder(hosts);
    var states, settled := InTurn(platform, rows, key, Candidates(organisation, hosts));
  }

  lemma {:induction false} HostsInOrder(hosts: seq<Option<Domain>>)
    ensures |HostCandidates(hosts)| == |hosts|
    ensures forall i :: 0 <= i < |hosts| ==> HostCandidates(hosts)[i] == Candidate(SiteHost, hosts[i])
  {
    if hosts != [] {
      HostsInOrder(hosts[1..]);
    }
  }

  /** One turn: the rows before it and after it, and whether it settled the scan. */
  predicate Turn(platform: set<Domain>, before: Rows, key: Key, c: Candidate, after: Rows, settled: bool) {
    key in before && key in after && Try(platform, before, key, c) == (after, settled)
  }

  /** The rows before and after each candidate tried: every one but the last went on, and the last
      settled it or was the last there was. */
  ghost predicate TriedInTurn(
    platform: set<Domain>, rows: Rows, key: Key, cs: seq<Candidate>, states: seq<Rows>, settled: seq<bool>)
  {
    && |settled| <= |cs| && |states| == |settled| + 1 && states[0] == rows
    && (forall i :: 0 <= i < |settled| ==> Turn(platform, states[i], key, cs[i], states[i + 1], settled[i]))
    && (forall i :: 0 <= i < |settled| - 1 ==> !settled[i])
    && (|settled| < |cs| ==> settled != [] && settled[|settled| - 1])
  }

  lemma {:induction false} OneTurnBefore(
    platform: set<Domain>, rows: Rows, key: Key, cs: seq<Candidate>, next: Rows, states: seq<Rows>, settled: seq<bool>)
    requires cs != [] && Turn(platform, rows, key, cs[0], next, false)
    requires TriedInTurn(platform, next, key, cs[1..], states, settled)
    ensures TriedInTurn(platform, rows, key, cs, [rows] + states, [false] + settled)
  {
    var states', settled' := [rows] + states, [false] + settled;
    forall i | 0 <= i < |settled'|
      ensures Turn(platform, states'[i], key, cs[i], states'[i + 1], settled'[i])
    {
      if i > 0 {
        assert states'[i] == states[i - 1] && states'[i + 1] == states[i] && cs[i] == cs[1..][i - 1] && settled'[i] == settled[i - 1];
      }
    }
  }

  lemma {:induction false} InTurn(platform: set<Domain>, rows: Rows, key: Key, cs: seq<Candidate>)
    returns (states: seq<Rows>, settled: seq<bool>)
    requires key in rows
    ensures TriedInTurn(platform, rows, key, cs, states, settled)
    ensures Resolved(platform, rows, key, cs) == states[|settled|]
  {
    if cs == [] {
      states, settled := [rows], [];
    } else {
      var t := Try(platform, rows, key, cs[0]);
      assert Turn(platform, rows, key, cs[0], t.0, t.1);
      if t.1 {
        states, settled := [rows, t.0], [true];
      } else {
        var rest, flags := InTurn(platform, t.0, key, cs[1..]);
        OneTurnBefore(platform, rows, key, cs, t.0, rest, flags);
        states, settled := [rows] + rest, [false] + flags;
      }
    }
  }

  /** What an admin's edit of the domain leaves: the domain typed, as the admin's, or none; and when
      it is another domain than before, the logo that went with that is forgotten. */
  lemma {:induction false} EditReads(c: Company, typed: Typed)
    ensures typed.Invalid? ==> ManualDomain(c, typed) == c
    ensures typed.Blank? ==> ManualDomain(c, typed).domain == None && ManualDomain(c, typed).source == Unset
    ensures typed.Valid? ==> ManualDomain(c, typed).domain == Some(typed.domain) && ManualDomain(c, typed).source == ManualEdit
    ensures !typed.Invalid? && ManualDomain(c, typed).domain != c.domain ==> LogoForgotten(c, ManualDomain(c, typed))
    ensures !typed.Invalid? && ManualDomain(c, typed).domain == c.domain ==>
              OnlySource(c, ManualDomain(c, typed), ManualDomain(c, typed).source)
  {
  }

  lemma {:induction false} SyncedGood(c: Company, l: Lookup, now: Moment)
    requires GoodCompany(c) && LookupFor(c, l)
    ensures GoodCompany(Synced(c, l, now))
    ensures c.source == ManualEdit ==> Synced(c, l, now).source == ManualEdit && Synced(c, l, now).domain == c.domain
    ensures Rank(Synced(c, l, now).source) >= Rank(c.source)
    ensures Synced(c, l, now).source == SiteHost || Synced(c, l, now).source == Shared ==>
              Synced(c, l, now).source == c.source && Synced(c, l, now).domain == c.domain
  {
  }

  // ---------------------------------------------------------------- whole runs

  datatype Step =
    | Scan(key: Key, organisation: Option<Domain>, hosts: seq<Option<Domain>>)
    | EditDomain(key: Key, typed: Typed)
    | PinLogo(key: Key, logo: string, origin: Origin)
    | UnpinLogo(key: Key)
    | SyncOne(key: Key, lookup: Lookup, now: Moment)

  predicate Enabled(rows: Rows, e: Step) {
    match e
    case Scan(k, _, _) => true
    case EditDomain(k, _) => k in rows
    case PinLogo(k, _, origin) => k in rows && origin != FromLogoDev
    case UnpinLogo(k) => k in rows
    case SyncOne(k, l, _) => k in rows && LookupFor(rows[k], l)
  }

  function Apply(platform: set<Domain>, rows: Rows, e: Step): Rows
    requires Enabled(rows, e)
  {
    match e
    case Scan(k, organisation, hosts) => Resolved(platform, WithCompany(rows, k), k, Candidates(organisation, hosts))
    case EditDomain(k, typed) => rows[k := ManualDomain(rows[k], typed)]
    case PinLogo(k, logo, origin) => rows[k := ManualLogo(rows[k], logo, origin)]
    case UnpinLogo(k) => rows[k := NoLogo(rows[k])]
    case SyncOne(k, l, now) => rows[k := Synced(rows[k], l, now)]
  }

  lemma {:induction false} WithCompanyInv(rows: Rows, k: Key)
    requires Inv(rows)
    ensures Inv(WithCompany(rows, k))
  {
    if k !in rows {
      NoNewClaim(rows, k, New());
    }
  }

  lemma {:induction false} ApplyInv(platform: set<Domain>, rows: Rows, e: Step)
    requires Inv(rows) && Enabled(rows, e)
    ensures Inv(Apply(platform, rows, e))
  {
    match e
    case Scan(k, organisation, hosts) =>
      WithCompanyInv(rows, k);
      CandidatesAutomatic(hosts);
      ResolvedInv(platform, WithCompany(rows, k), k, Candidates(organisation, hosts));
    case EditDomain(k, typed) => NoNewClaim(rows, k, ManualDomain(rows[k], typed));
    case PinLogo(k, logo, origin) => NoNewClaim(rows, k, ManualLogo(rows[k], logo, origin));
    case UnpinLogo(k) => NoNewClaim(rows, k, NoLogo(rows[k]));
    case SyncOne(k, l, now) =>
      SyncedGood(rows[k], l, now);
      NoNewClaim(rows, k, Synced(rows[k], l, now));
  }

  ghost predicate Run(platform: set<Domain>, states: seq<Rows>, steps: seq<Step>) {
    && |states| == |steps| + 1
    && forall i :: 0 <= i < |steps| ==> Enabled(states[i], steps[i]) && states[i + 1] == Apply(platform, states[i], steps[i])
  }

  /** How many companies' job pages are hosted on a domain, theirs or found to be shared. */
  function HostedOn(rows: Rows, d: Domain): nat {
    |set k | k in rows && rows[k].domain == Some(d) && rows[k].source in {SiteHost, Shared}|
  }

  lemma {:induction false} HostedIsClaims(rows: Rows)
    ensures forall d :: HostedOn(rows, d) == |Claims(rows, d)|
  {
    forall d
      ensures HostedOn(rows, d) == |Claims(rows, d)|
    {
      assert Claims(rows, d) == set k | k in rows && rows[k].domain == Some(d) && rows[k].source in {SiteHost, Shared};
    }
  }

  /** After any scans, admin edits and logo syncs: at most two companies hold a site_host or shared
      claim on a domain, and every automatic logo is its company's current usable domain's. */
  lemma {:induction false} ClaimsAndLogosHold(platform: set<Domain>, states: seq<Rows>, steps: seq<Step>, i: nat)
    requires Run(platform, states, steps) && states[0] == map[] && i < |states|
    ensures forall d :: HostedOn(states[i], d) <= 2
    ensures forall k :: k in states[i] && states[i][k].origin == Some(FromLogoDev) ==>
              && states[i][k].source in {SiteHost, LogoDev, JsonLd, ManualEdit} && states[i][k].domain.Some?
              && states[i][k].logoDomain == states[i][k].domain
    ensures Inv(states[i])
  {
    HostedIsClaims(states[i]);
    if i == 0 {
      forall d
        ensures |Claims(states[0], d)| <= 2
      {
        assert Claims(states[0], d) == {};
      }
    } else {
      ClaimsAndLogosHold(platform, states, steps, i - 1);
      ApplyInv(platform, states[i - 1], steps[i - 1]);
    }
  }

  predicate AdminEdits(e: Step, k: Key) {
    e.EditDomain? && e.key == k
  }

  /** Without an admin editing its domain, a company's manual domain stays, its rank falls only when
      its host turns out shared, and a logo an admin pinned stays until an admin acts on it. */
  lemma {:induction false} StepBecomes(platform: set<Domain>, rows: Rows, e: Step, k: Key)
    requires Inv(rows) && Enabled(rows, e) && k in rows && !AdminEdits(e, k)
    ensures k in Apply(platform, rows, e)
    ensures var c, c' := rows[k], Apply(platform, rows, e)[k];
            && (c.source == ManualEdit ==> c'.source == ManualEdit && c'.domain == c.domain)
            && (Rank(c'.source) < Rank(c.source) ==> c.source == SiteHost && c'.source == Shared)
            && (Pinned(c) && !(e.PinLogo? || e.UnpinLogo?) ==> c'.logo == c.logo && c'.origin == c.origin)
  {
    match e
    case Scan(key, organisation, hosts) =>
      WithCompanyInv(rows, key);
      CandidatesAutomatic(hosts);
      ScanBecomes(platform, WithCompany(rows, key), key, Candidates(organisation, hosts), k);
    case EditDomain(key, typed) =>
    case PinLogo(key, logo, origin) =>
    case UnpinLogo(key) =>
    case SyncOne(key, l, now) =>
      if key == k {
        SyncedGood(rows[k], l, now);
      }
  }
}
