/** app/services/collection_discovery.py: grouping the open jobs into proposals, and whether a
    proposal's score is the one the nightly scoring (app/services/collection_lifecycle.py) would
    give the collection it becomes. */
module Discovery {
  import opened Base
  import opened Sorting
  import opened Dimensions
  import opened CollectionStats
  import opened Qualification
  import CollectionTypes

  type Slug = string

  const REMOTE_SLUG: Slug := CollectionTypes.REMOTE_SLUG

  /** slugify, _titles_by_slug, metro_by_code(...).slug and metro_by_slug(...).code. */
  datatype Directory = Directory(
    slugify: string -> Slug, titleOf: map<Slug, string>, areaOf: string -> Option<Slug>, codeOf: map<Slug, string>)

  /** Slugs and titles, and slugs and area codes, go back and forth; no area is called remote; and
      slugs are letters, digits and hyphens. */
  ghost predicate ValidDirectory(d: Directory) {
    && (forall s :: s in d.titleOf || s in d.codeOf ==> ';' !in s)
    && (forall s :: s in d.titleOf ==> d.slugify(d.titleOf[s]) == s)
    && (forall code, s :: d.areaOf(code) == Some(s) <==> s in d.codeOf && d.codeOf[s] == code)
    && REMOTE_SLUG !in d.codeOf
  }

  ghost predicate NoRepeats(s: seq<string>) {
    forall i, j :: 0 <= i < j < |s| ==> s[i] != s[j]
  }

  /** A job's titles are standard ones, and neither titles nor areas repeat. */
  ghost predicate Tagged(d: Directory, j: Job) {
    && NoRepeats(j.titles) && NoRepeats(j.metros)
    && forall t :: t in j.titles && d.slugify(t) in d.titleOf ==> d.titleOf[d.slugify(t)] == t
  }

  // ---------------------------------------------------------------- what the dictionaries hold

  /** One entry for each of the titles that makes this role. */
  function TitleEntries(d: Directory, titles: seq<string>, j: Job, role: Slug): seq<Job> {
    if titles == [] then []
    else
      var n := |titles| - 1;
      TitleEntries(d, titles[..n], j, role) + if role in d.titleOf && d.slugify(titles[n]) == role then [j] else []
  }

  function MetroEntries(d: Directory, codes: seq<string>, j: Job, area: Slug): seq<Job> {
    if codes == [] then []
    else
      var n := |codes| - 1;
      MetroEntries(d, codes[..n], j, area) + if d.areaOf(codes[n]) == Some(area) then [j] else []
  }

  /** What one title adds under an area. */
  function Places(d: Directory, j: Job, area: Slug): seq<Job> {
    (if j.workplace == Remote && area == REMOTE_SLUG then [j] else []) + MetroEntries(d, j.metros, j, area)
  }

  function AreaEntries(d: Directory, titles: seq<string>, j: Job, role: Slug, area: Slug): seq<Job> {
    if titles == [] then []
    else
      var n := |titles| - 1;
      AreaEntries(d, titles[..n], j, role, area) +
      if role in d.titleOf && d.slugify(titles[n]) == role then Places(d, j, area) else []
  }

  /** by_role[role] */
  function RoleGroup(d: Directory, live: seq<Job>, role: Slug): seq<Job> {
    if live == [] then []
    else
      var n := |live| - 1;
      RoleGroup(d, live[..n], role) + if live[n].closed then [] else TitleEntries(d, live[n].titles, live[n], role)
  }

  /** by_role_area[(role, area)] */
  function AreaGroup(d: Directory, live: seq<Job>, role: Slug, area: Slug): seq<Job> {
    if live == [] then []
    else
      var n := |live| - 1;
      AreaGroup(d, live[..n], role, area) +
      if live[n].closed then [] else AreaEntries(d, live[n].titles, live[n], role, area)
  }

  // ---------------------------------------------------------------- filling them

  function At<K(==)>(m: map<K, seq<Job>>, k: K): seq<Job> {
    if k in m then m[k] else []
  }

  predicate NoneEmpty<K(==)>(m: map<K, seq<Job>>) {
    forall k :: k in m ==> m[k] != []
  }

  /** m[k].append(j), on a dictionary of lists that start empty. */
  function Put<K(==)>(m: map<K, seq<Job>>, k: K, j: Job): map<K, seq<Job>> {
    m[k := At(m, k) + [j]]
  }

  /** `out` is `start` with more added to each list. */
  ghost predicate Grown<K(!new)>(start: map<K, seq<Job>>, out: map<K, seq<Job>>, added: K -> seq<Job>) {
    NoneEmpty(out) && forall k :: At(out, k) == At(start, k) + added(k)
  }

  lemma {:induction false} GrownPut<K(!new)>(
    start: map<K, seq<Job>>, m: map<K, seq<Job>>, k: K, j: Job, added: K -> seq<Job>, added': K -> seq<Job>)
    requires Grown(start, m, added)
    requires forall x :: added'(x) == added(x) + if x == k then [j] else []
    ensures Grown(start, Put(m, k, j), added')
  {
    forall x
      ensures At(Put(m, k, j), x) == At(start, x) + added'(x)
    {
      Associative(At(start, x), added(x), [j]);
      assert added(x) + [] == added(x);
    }
  }

  lemma {:induction false} GrownTwice<K(!new)>(
    start: map<K, seq<Job>>, m: map<K, seq<Job>>, out: map<K, seq<Job>>, first: K -> seq<Job>, second: K -> seq<Job>,
    added: K -> seq<Job>)
    requires Grown(start, m, first) && Grown(m, out, second) && forall x :: added(x) == first(x) + second(x)
    ensures Grown(start, out, added)
  {
    forall x
      ensures At(out, x) == At(start, x) + added(x)
    {
      Associative(At(start, x), first(x), second(x));
    }
  }

  lemma {:induction false} GrownSame<K(!new)>(
    start: map<K, seq<Job>>, m: map<K, seq<Job>>, added: K -> seq<Job>, added': K -> seq<Job>)
    requires Grown(start, m, added) && forall x :: added'(x) == added(x)
    ensures Grown(start, m, added')
  {
  }

  type Pair = (Slug, Slug)

  /** What the first n areas of a job add under a role. */
  function PlacesSoFar(d: Directory, role: Slug, j: Job, n: nat): Pair -> seq<Job>
    requires n <= |j.metros|
  {
    (k: Pair) =>
      if k.0 != role then []
      else (if j.workplace == Remote && k.1 == REMOTE_SLUG then [j] else []) + MetroEntries(d, j.metros[..n], j, k.1)
  }

  lemma {:induction false} NextPlace(d: Directory, role: Slug, j: Job, n: nat)
    requires n < |j.metros|
    ensures forall k: Pair :: PlacesSoFar(d, role, j, n + 1)(k) ==
                              PlacesSoFar(d, role, j, n)(k) + if d.areaOf(j.metros[n]) == Some(k.1) && k.0 == role then [j] else []
  {
    assert j.metros[..n + 1][..n] == j.metros[..n];
  }

  method AddRemote(d: Directory, byArea: map<Pair, seq<Job>>, role: Slug, j: Job) returns (out: map<Pair, seq<Job>>)
    requires NoneEmpty(byArea)
    ensures Grown(byArea, out, PlacesSoFar(d, role, j, 0))
  {
    assert j.metros[..0] == [];
    out := byArea;
    if j.workplace == Remote {
      out := Put(out, (role, REMOTE_SLUG), j);
    }
  }

  method AddMetro(d: Directory, ghost byArea: map<Pair, seq<Job>>, m: map<Pair, seq<Job>>, role: Slug, j: Job, n: nat)
    returns (out: map<Pair, seq<Job>>)
    requires n < |j.metros| && Grown(byArea, m, PlacesSoFar(d, role, j, n))
    ensures Grown(byArea, out, PlacesSoFar(d, role, j, n + 1))
  {
    out := m;
    NextPlace(d, role, j, n);
    var area := d.areaOf(j.metros[n]);
    if area.Some? {
      GrownPut(byArea, m, (role, area.value), j, PlacesSoFar(d, role, j, n), PlacesSoFar(d, role, j, n + 1));
      out := Put(out, (role, area.value), j);
    } else {
      GrownSame(byArea, m, PlacesSoFar(d, role, j, n), PlacesSoFar(d, role, j, n + 1));
    }
  }

  method AddPlaces(d: Directory, byArea: map<Pair, seq<Job>>, role: Slug, j: Job) returns (out: map<Pair, seq<Job>>)
    requires NoneEmpty(byArea)
    ensures Grown(byArea, out, PlacesSoFar(d, role, j, |j.metros|))
  {
    out := AddRemote(d, byArea, role, j);
    for n := 0 to |j.metros|
      invariant Grown(byArea, out, PlacesSoFar(d, role, j, n))
    {
      out := AddMetro(d, byArea, out, role, j, n);
    }
  }

  function RolesSoFar(d: Directory, j: Job, n: nat): Slug -> seq<Job>
    requires n <= |j.titles|
  {
    (r: Slug) => TitleEntries(d, j.titles[..n], j, r)
  }

  function AreasSoFar(d: Directory, j: Job, n: nat): Pair -> seq<Job>
    requires n <= |j.titles|
  {
    (k: Pair) => AreaEntries(d, j.titles[..n], j, k.0, k.1)
  }

  lemma {:induction false} NextTitle(d: Directory, j: Job, n: nat)
    requires n < |j.titles|
    ensures forall r :: RolesSoFar(d, j, n + 1)(r) == RolesSoFar(d, j, n)(r) +
                          if r in d.titleOf && d.slugify(j.titles[n]) == r then [j] else []
    ensures forall k: Pair :: AreasSoFar(d, j, n + 1)(k) == AreasSoFar(d, j, n)(k) +
                          if d.slugify(j.titles[n]) in d.titleOf
                          then PlacesSoFar(d, d.slugify(j.titles[n]), j, |j.metros|)(k) else []
  {
    assert j.titles[..n + 1][..n] == j.titles[..n];
    assert j.metros[..|j.metros|] == j.metros;
  }

  method AddJob(d: Directory, byRole: map<Slug, seq<Job>>, byArea: map<Pair, seq<Job>>, j: Job)
    returns (byRole': map<Slug, seq<Job>>, byArea': map<Pair, seq<Job>>)
    requires NoneEmpty(byRole) && NoneEmpty(byArea)
    ensures Grown(byRole, byRole', RolesSoFar(d, j, |j.titles|))
    ensures Grown(byArea, byArea', AreasSoFar(d, j, |j.titles|))
  {
    byRole', byArea' := byRole, byArea;
    for n := 0 to |j.titles|
      invariant Grown(byRole, byRole', RolesSoFar(d, j, n))
      invariant Grown(byArea, byArea', AreasSoFar(d, j, n))
    {
      NextTitle(d, j, n);
      var role := d.slugify(j.titles[n]);
      if role in d.titleOf {
        GrownPut(byRole, byRole', role, j, RolesSoFar(d, j, n), RolesSoFar(d, j, n + 1));
        byRole' := Put(byRole', role, j);
        ghost var before := byArea';
        byArea' := AddPlaces(d, byArea', role, j);
        GrownTwice(byArea, before, byArea', AreasSoFar(d, j, n), PlacesSoFar(d, role, j, |j.metros|), AreasSoFar(d, j, n + 1));
      } else {
        GrownSame(byRole, byRole', RolesSoFar(d, j, n), RolesSoFar(d, j, n + 1));
        GrownSame(byArea, byArea', AreasSoFar(d, j, n), AreasSoFar(d, j, n + 1));
      }
    }
  }

  /** The dictionaries after the first n jobs. */
  ghost predicate Grouped(d: Directory, live: seq<Job>, n: nat, byRole: map<Slug, seq<Job>>, byArea: map<Pair, seq<Job>>)
    requires n <= |live|
  {
    && NoneEmpty(byRole) && NoneEmpty(byArea)
    && (forall r :: At(byRole, r) == RoleGroup(d, live[..n], r))
    && (forall k: Pair :: At(byArea, k) == AreaGroup(d, live[..n], k.0, k.1))
  }

  lemma {:induction false} NextJob(d: Directory, live: seq<Job>, n: nat)
    requires n < |live|
    ensures forall r :: RoleGroup(d, live[..n + 1], r) ==
                        RoleGroup(d, live[..n], r) + if live[n].closed then [] else RolesSoFar(d, live[n], |live[n].titles|)(r)
    ensures forall k: Pair :: AreaGroup(d, live[..n + 1], k.0, k.1) == AreaGroup(d, live[..n], k.0, k.1) +
                              if live[n].closed then [] else AreasSoFar(d, live[n], |live[n].titles|)(k)
  {
    assert live[..n + 1][..n] == live[..n];
    assert live[n].titles[..|live[n].titles|] == live[n].titles;
  }

  /** propose's grouping loop. */
  method GroupJobs(d: Directory, live: seq<Job>) returns (byRole: map<Slug, seq<Job>>, byArea: map<Pair, seq<Job>>)
    ensures NoneEmpty(byRole) && NoneEmpty(byArea)
    ensures forall r :: At(byRole, r) == RoleGroup(d, live, r)
    ensures forall k: Pair :: At(byArea, k) == AreaGroup(d, live, k.0, k.1)
  {
    byRole, byArea := map[], map[];
    for n := 0 to |live|
      invariant Grouped(d, live, n, byRole, byArea)
    {
      NextJob(d, live, n);
      if !live[n].closed {
        byRole, byArea := AddJob(d, byRole, byArea, live[n]);
      }
    }
    assert live[..|live|] == live;
  }

  // ---------------------------------------------------------------- groups are memberships

  /** collection_dimensions.role and .location, for slugs that exist. */
  function RoleDimension(d: Directory, role: Slug): Dimension
    requires role in d.titleOf
  {
    Role(d.titleOf[role])
  }

  predicate AreaExists(d: Directory, area: Slug) {
    area == REMOTE_SLUG || area in d.codeOf
  }

  function AreaDimension(d: Directory, area: Slug): Dimension
    requires AreaExists(d, area)
  {
    if area == "remote" then RemoteOnly else Area(d.codeOf[area])
  }

  /** Among titles that do not repeat, only the role's own makes it, and it comes last or before. */
  lemma {:induction false} LastTitle(d: Directory, titles: seq<string>, role: Slug)
    requires ValidDirectory(d) && role in d.titleOf && NoRepeats(titles) && titles != []
    requires forall t :: t in titles && d.slugify(t) in d.titleOf ==> d.titleOf[d.slugify(t)] == t
    ensures var n := |titles| - 1;
            && NoRepeats(titles[..n]) && (forall t :: t in titles[..n] ==> t in titles)
            && (d.slugify(titles[n]) == role <==> titles[n] == d.titleOf[role])
            && (d.titleOf[role] in titles <==> titles[n] == d.titleOf[role] || d.titleOf[role] in titles[..n])
            && !(titles[n] == d.titleOf[role] && d.titleOf[role] in titles[..n])
  {
    var n := |titles| - 1;
    assert titles == titles[..n] + [titles[n]];
  }

  lemma {:induction false} OncePerTitle(d: Directory, titles: seq<string>, j: Job, role: Slug)
    requires ValidDirectory(d) && role in d.titleOf && NoRepeats(titles)
    requires forall t :: t in titles && d.slugify(t) in d.titleOf ==> d.titleOf[d.slugify(t)] == t
    ensures TitleEntries(d, titles, j, role) == if d.titleOf[role] in titles then [j] else []
  {
    if titles != [] {
      LastTitle(d, titles, role);
      OncePerTitle(d, titles[..|titles| - 1], j, role);
    }
  }

  lemma {:induction false} PlacesPerTitle(d: Directory, titles: seq<string>, j: Job, role: Slug, area: Slug)
    requires ValidDirectory(d) && role in d.titleOf && NoRepeats(titles)
    requires forall t :: t in titles && d.slugify(t) in d.titleOf ==> d.titleOf[d.slugify(t)] == t
    ensures AreaEntries(d, titles, j, role, area) == if d.titleOf[role] in titles then Places(d, j, area) else []
  {
    if titles != [] {
      LastTitle(d, titles, role);
      PlacesPerTitle(d, titles[..|titles| - 1], j, role, area);
    }
  }

  lemma {:induction false} OncePerMetro(d: Directory, codes: seq<string>, j: Job, area: Slug)
    requires ValidDirectory(d) && NoRepeats(codes)
    ensures area !in d.codeOf ==> MetroEntries(d, codes, j, area) == []
    ensures area in d.codeOf ==> MetroEntries(d, codes, j, area) == if d.codeOf[area] in codes then [j] else []
  {
    if codes != [] {
      var n := |codes| - 1;
      OncePerMetro(d, codes[..n], j, area);
      assert codes == codes[..n] + [codes[n]];
      if area in d.codeOf && codes[n] == d.codeOf[area] {
        assert d.codeOf[area] !in codes[..n];
      }
    }
  }

  lemma {:induction false} FilterSnoc<T>(s: seq<T>, p: T -> bool)
    requires s != []
    ensures Filter(s, p) == Filter(s[..|s| - 1], p) + if p(s[|s| - 1]) then [s[|s| - 1]] else []
  {
    if |s| > 1 {
      FilterSnoc(s[1..], p);
      assert s[1..][..|s| - 2] == s[..|s| - 1][1..];
    }
  }

  predicate InRole(z: Zone, d: Directory, role: Slug, j: Job, now: Moment)
    requires role in d.titleOf
  {
    !j.closed && Matches(z, RoleDimension(d, role), j, now)
  }

  predicate InArea(z: Zone, d: Directory, role: Slug, area: Slug, j: Job, now: Moment)
    requires role in d.titleOf && AreaExists(d, area)
  {
    !j.closed && MatchesAll(z, [RoleDimension(d, role), AreaDimension(d, area)], j, now)
  }

  /** A role's group is the open jobs the role's dimension matches, once each and in order. */
  lemma {:induction false} RoleGroupIsMembership(z: Zone, d: Directory, live: seq<Job>, role: Slug, now: Moment)
    requires ValidDirectory(d) && role in d.titleOf && forall j :: j in live ==> Tagged(d, j)
    ensures RoleGroup(d, live, role) == Filter(live, (j: Job) => InRole(z, d, role, j, now))
  {
    if live != [] {
      var n := |live| - 1;
      RoleGroupIsMembership(z, d, live[..n], role, now);
      FilterSnoc(live, (j: Job) => InRole(z, d, role, j, now));
      assert Tagged(d, live[n]);
      OncePerTitle(d, live[n].titles, live[n], role);
    }
  }

  lemma {:induction false} PlacesAreMembership(z: Zone, d: Directory, j: Job, area: Slug, now: Moment)
    requires ValidDirectory(d) && AreaExists(d, area) && Tagged(d, j)
    ensures Places(d, j, area) == if Matches(z, AreaDimension(d, area), j, now) then [j] else []
  {
    OncePerMetro(d, j.metros, j, area);
  }

  lemma {:induction false} BothMatch(z: Zone, d: Directory, role: Slug, area: Slug, j: Job, now: Moment)
    requires role in d.titleOf && AreaExists(d, area)
    ensures InArea(z, d, role, area, j, now) <==>
            InRole(z, d, role, j, now) && Matches(z, AreaDimension(d, area), j, now)
  {
    var ds := [RoleDimension(d, role), AreaDimension(d, area)];
    assert ds[0] == RoleDimension(d, role) && ds[1] == AreaDimension(d, area);
  }

  lemma {:induction false} EntriesAreMembership(z: Zone, d: Directory, j: Job, role: Slug, area: Slug, now: Moment)
    requires ValidDirectory(d) && role in d.titleOf && AreaExists(d, area) && Tagged(d, j) && !j.closed
    ensures AreaEntries(d, j.titles, j, role, area) == if InArea(z, d, role, area, j, now) then [j] else []
  {
    PlacesPerTitle(d, j.titles, j, role, area);
    PlacesAreMembership(z, d, j, area, now);
    BothMatch(z, d, role, area, j, now);
  }

  /** A role and area's group is the open jobs both dimensions match, once each and in order. */
  lemma {:induction false} AreaGroupIsMembership(
    z: Zone, d: Directory, live: seq<Job>, role: Slug, area: Slug, now: Moment)
    requires ValidDirectory(d) && role in d.titleOf && AreaExists(d, area) && forall j :: j in live ==> Tagged(d, j)
    ensures AreaGroup(d, live, role, area) == Filter(live, (j: Job) => InArea(z, d, role, area, j, now))
  {
    if live != [] {
      var n := |live| - 1;
      AreaGroupIsMembership(z, d, live[..n], role, area, now);
      FilterSnoc(live, (j: Job) => InArea(z, d, role, area, j, now));
      assert Tagged(d, live[n]);
      if !live[n].closed {
        EntriesAreMembership(z, d, live[n], role, area, now);
      }
    }
  }

  // ---------------------------------------------------------------- discovery against nightly scoring

  /** What propose gives a group. */
  function Proposed(z: Zone, d: Directory, live: seq<Job>, role: Slug, area: Option<Slug>, now: Moment): Evaluation {
    if area.None? then Evaluate(z, RoleGroup(d, live, role), now, None, false)
    else Evaluate(z, AreaGroup(d, live, role, area.value), now, Some(|RoleGroup(d, live, role)|), false)
  }

  /** by_title[title] of reevaluate_all, closed jobs included. */
  function TitleGroup(live: seq<Job>, title: string): seq<Job> {
    if live == [] then []
    else
      var n := |live| - 1;
      TitleGroup(live[..n], title) + Occurrences(live[n].titles, live[n], title)
  }

  function Occurrences(titles: seq<string>, j: Job, title: string): seq<Job> {
    if titles == [] then []
    else
      var n := |titles| - 1;
      Occurrences(titles[..n], j, title) + if titles[n] == title then [j] else []
  }

  function TitlesSoFar(j: Job, n: nat): string -> seq<Job>
    requires n <= |j.titles|
  {
    (t: string) => Occurrences(j.titles[..n], j, t)
  }

  method AddTitles(byTitle: map<string, seq<Job>>, j: Job) returns (out: map<string, seq<Job>>)
    requires NoneEmpty(byTitle)
    ensures Grown(byTitle, out, TitlesSoFar(j, |j.titles|))
  {
    out := byTitle;
    for n := 0 to |j.titles|
      invariant Grown(byTitle, out, TitlesSoFar(j, n))
    {
      assert j.titles[..n + 1][..n] == j.titles[..n];
      GrownPut(byTitle, out, j.titles[n], j, TitlesSoFar(j, n), TitlesSoFar(j, n + 1));
      out := Put(out, j.titles[n], j);
    }
  }

  /** reevaluate_all's grouping loop. */
  method GroupByTitle(live: seq<Job>) returns (byTitle: map<string, seq<Job>>)
    ensures forall t :: At(byTitle, t) == TitleGroup(live, t)
  {
    byTitle := map[];
    for n := 0 to |live|
      invariant NoneEmpty(byTitle)
      invariant forall t :: At(byTitle, t) == TitleGroup(live[..n], t)
    {
      assert live[..n + 1][..n] == live[..n];
      byTitle := AddTitles(byTitle, live[n]);
      assert live[n].titles[..|live[n].titles|] == live[n].titles;
    }
    assert live[..|live|] == live;
  }

  /** collection_lifecycle.evaluate for the collection of a role, or a role and an area. */
  function Nightly(z: Zone, d: Directory, live: seq<Job>, role: Slug, area: Option<Slug>, now: Moment): Evaluation
    requires role in d.titleOf && (area.Some? ==> AreaExists(d, area.value))
  {
    var roleJobs := TitleGroup(live, d.titleOf[role]);
    if area.None? then
      Evaluate(z, Filter(roleJobs, (j: Job) => !j.closed && MatchesAll(z, [RoleDimension(d, role)], j, now)), now, None, false)
    else
      Evaluate(z, Filter(roleJobs, (j: Job) => InArea(z, d, role, area.value, j, now)), now,
               Some(|Filter(roleJobs, (j: Job) => !j.closed)|), false)
  }

  lemma {:induction false} OneOccurrence(titles: seq<string>, j: Job, title: string)
    requires NoRepeats(titles)
    ensures Occurrences(titles, j, title) == if title in titles then [j] else []
  {
    if titles != [] {
      var n := |titles| - 1;
      OneOccurrence(titles[..n], j, title);
      assert titles == titles[..n] + [titles[n]];
      if titles[n] == title {
        assert title !in titles[..n];
      }
    }
  }

  /** Narrowing a title's jobs is narrowing all jobs, for a condition that asks for the title. */
  lemma {:induction false} ThroughTitle(live: seq<Job>, title: string, p: Job -> bool, whole: Job -> bool)
    requires forall j :: j in live ==> NoRepeats(j.titles) && whole(j) == (title in j.titles && p(j))
    ensures Filter(TitleGroup(live, title), p) == Filter(live, whole)
  {
    if live != [] {
      var n := |live| - 1;
      ThroughTitle(live[..n], title, p, whole);
      FilterSnoc(live, whole);
      assert live[n] in live;
      OneOccurrence(live[n].titles, live[n], title);
      var before := TitleGroup(live[..n], title);
      if title in live[n].titles {
        FilterSnoc(before + [live[n]], p);
        assert (before + [live[n]])[..|before|] == before;
      } else {
        assert before + [] == before;
      }
    }
  }

  /** Main result: discovery scores a group exactly as the nightly run scores the collection it
      becomes, over the same jobs at the same moment. */
  lemma {:induction false} DiscoveryScoresLikeNightly(
    z: Zone, d: Directory, live: seq<Job>, role: Slug, area: Option<Slug>, now: Moment)
    requires ValidDirectory(d) && role in d.titleOf && (area.Some? ==> AreaExists(d, area.value))
    requires forall j :: j in live ==> Tagged(d, j)
    ensures Proposed(z, d, live, role, area, now) == Nightly(z, d, live, role, area, now)
  {
    var title := d.titleOf[role];
    var inRole := (j: Job) => InRole(z, d, role, j, now);
    RoleGroupIsMembership(z, d, live, role, now);
    if area.None? {
      var ds := [RoleDimension(d, role)];
      var p := (j: Job) => !j.closed && MatchesAll(z, ds, j, now);
      assert ds[0] == RoleDimension(d, role);
      ThroughTitle(live, title, p, inRole);
    } else {
      AreaGroupIsMembership(z, d, live, role, area.value, now);
      var p := (j: Job) => InArea(z, d, role, area.value, j, now);
      forall j | j in live
        ensures p(j) == (title in j.titles && p(j))
      {
        BothMatch(z, d, role, area.value, j, now);
      }
      ThroughTitle(live, title, p, p);
      ThroughTitle(live, title, (j: Job) => !j.closed, inRole);
    }
  }

  lemma {:induction false} FilterFewer<T>(s: seq<T>, p: T -> bool, q: T -> bool)
    requires forall x :: x in s && p(x) ==> q(x)
    ensures |Filter(s, p)| <= |Filter(s, q)|
  {
    if s != [] {
      FilterFewer(s[1..], p, q);
    }
  }

  /** Every nightly score is out of 100: a collection's jobs are among its parent's. */
  lemma {:induction false} NightlyInRange(z: Zone, d: Directory, live: seq<Job>, role: Slug, area: Option<Slug>, now: Moment)
    requires role in d.titleOf && (area.Some? ==> AreaExists(d, area.value))
    ensures 0 <= Nightly(z, d, live, role, area, now).total <= 100
  {
    var roleJobs := TitleGroup(live, d.titleOf[role]);
    if area.None? {
      var members := Filter(roleJobs, (j: Job) => !j.closed && MatchesAll(z, [RoleDimension(d, role)], j, now));
      EvaluationInRange(z, members, now, None, false);
    } else {
      var members := Filter(roleJobs, (j: Job) => InArea(z, d, role, area.value, j, now));
      var parent := Filter(roleJobs, (j: Job) => !j.closed);
      FilterFewer(roleJobs, (j: Job) => InArea(z, d, role, area.value, j, now), (j: Job) => !j.closed);
      FilterShorter(members, (j: Job) => !j.closed);
      EvaluationInRange(z, members, now, Some(|parent|), false);
    }
  }

  // ---------------------------------------------------------------- proposals, in order

  datatype Proposal = Proposal(role: Slug, area: Option<Slug>, evaluation: Evaluation)

  function Values(f: Proposal): CollectionTypes.Values {
    if f.area.Some? then map[CollectionTypes.ROLE := f.role, CollectionTypes.LOCATION := f.area.value]
    else map[CollectionTypes.ROLE := f.role]
  }

  function KeyOf(f: Proposal): string {
    CollectionTypes.CollectionKey(Values(f))
  }

  /** Best score first, then by key; `keyLe` is the order of strings. */
  predicate Better(keyLe: (string, string) -> bool, f: Proposal, g: Proposal) {
    f.evaluation.total > g.evaluation.total || (f.evaluation.total == g.evaluation.total && keyLe(KeyOf(f), KeyOf(g)))
  }

  predicate Enough(d: Directory, live: seq<Job>, role: Slug, area: Option<Slug>) {
    if area.None? then |RoleGroup(d, live, role)| >= MIN_JOBS else |AreaGroup(d, live, role, area.value)| >= MIN_JOBS
  }

  /** A group with enough jobs, with its score. */
  predicate IsProposal(z: Zone, d: Directory, live: seq<Job>, now: Moment, f: Proposal) {
    Enough(d, live, f.role, f.area) && f.evaluation == Proposed(z, d, live, f.role, f.area, now)
  }

  lemma {:induction false} NoSuchTitle(d: Directory, titles: seq<string>, j: Job, role: Slug)
    requires role !in d.titleOf
    ensures TitleEntries(d, titles, j, role) == [] && forall area :: AreaEntries(d, titles, j, role, area) == []
  {
    if titles != [] {
      NoSuchTitle(d, titles[..|titles| - 1], j, role);
    }
  }

  lemma {:induction false} NoSuchArea(d: Directory, codes: seq<string>, titles: seq<string>, j: Job, role: Slug, area: Slug)
    requires ValidDirectory(d) && !AreaExists(d, area)
    ensures MetroEntries(d, codes, j, area) == [] && AreaEntries(d, titles, j, role, area) == []
    decreases |titles|, |codes|
  {
    if codes != [] {
      NoSuchArea(d, codes[..|codes| - 1], titles, j, role, area);
    } else if titles != [] {
      NoSuchArea(d, j.metros, titles[..|titles| - 1], j, role, area);
    }
  }

  /** Only groups of roles and areas that exist have anything in them. */
  lemma {:induction false} GroupsExist(d: Directory, live: seq<Job>, role: Slug, area: Slug)
    requires ValidDirectory(d)
    ensures role !in d.titleOf ==> RoleGroup(d, live, role) == []
    ensures role !in d.titleOf || !AreaExists(d, area) ==> AreaGroup(d, live, role, area) == []
  {
    if live != [] {
      var n := |live| - 1;
      GroupsExist(d, live[..n], role, area);
      if role !in d.titleOf {
        NoSuchTitle(d, live[n].titles, live[n], role);
      } else if !AreaExists(d, area) {
        NoSuchArea(d, live[n].metros, live[n].titles, live[n], role, area);
      }
    }
  }

  /** So every proposal is for a collection the registry can hold, with the nightly score. */
  lemma {:induction false} ProposalsScoreLikeNightly(z: Zone, d: Directory, live: seq<Job>, now: Moment, f: Proposal)
    requires ValidDirectory(d) && forall j :: j in live ==> Tagged(d, j)
    requires IsProposal(z, d, live, now, f)
    ensures f.role in d.titleOf && (f.area.Some? ==> AreaExists(d, f.area.value))
    ensures f.evaluation == Nightly(z, d, live, f.role, f.area, now)
  {
    GroupsExist(d, live, f.role, if f.area.Some? then f.area.value else REMOTE_SLUG);
    DiscoveryScoresLikeNightly(z, d, live, f.role, f.area, now);
  }

  predicate IsRoleProposal(z: Zone, d: Directory, live: seq<Job>, now: Moment, role: Slug, f: Proposal) {
    f.role == role && f.area.None? && IsProposal(z, d, live, now, f)
  }

  predicate IsAreaProposal(z: Zone, d: Directory, live: seq<Job>, now: Moment, k: Pair, f: Proposal) {
    f.role == k.0 && f.area == Some(k.1) && IsProposal(z, d, live, now, f)
  }

  /** The list holds, once each, what p accepts for the keys done so far. */
  ghost predicate Collected<K(!new)>(fs: seq<Proposal>, done: set<K>, p: (K, Proposal) -> bool) {
    && (forall f :: f in fs <==> exists k: K :: k in done && p(k, f))
    && (forall i, j :: 0 <= i < j < |fs| ==> fs[i] != fs[j])
  }

  /** One key more, which brings a proposal of its own or none. */
  lemma {:induction false} CollectedStep<K(!new)>(
    fs: seq<Proposal>, done: set<K>, p: (K, Proposal) -> bool, k: K, more: seq<Proposal>)
    requires Collected(fs, done, p) && k !in done && |more| <= 1
    requires forall f :: f in more <==> p(k, f)
    requires forall j: K, f :: p(j, f) && p(k, f) ==> j == k
    ensures Collected(fs + more, done + {k}, p)
  {
    forall i, j | 0 <= i < j < |fs + more|
      ensures (fs + more)[i] != (fs + more)[j]
    {
      if i < |fs| <= j {
        assert fs[i] in fs && more[0] in more;
      }
    }
    forall f
      ensures f in fs + more <==> exists j: K :: j in done + {k} && p(j, f)
    {
      if p(k, f) {
        assert k in done + {k};
      }
    }
  }

  /** Each key makes the proposals p gives it, one or none, and no other key's. */
  ghost predicate Makes<K(!new)>(keys: set<K>, make: K -> seq<Proposal>, p: (K, Proposal) -> bool) {
    && (forall k :: k in keys ==> |make(k)| <= 1 && forall f :: f in make(k) <==> p(k, f))
    && (forall j: K, k: K, f :: p(j, f) && p(k, f) ==> j == k)
  }

  /** The comprehension over one of the dictionaries: what each key brings, in whatever order. */
  method Collect<K(!new, ==)>(keys: set<K>, make: K -> seq<Proposal>, ghost p: (K, Proposal) -> bool) returns (fs: seq<Proposal>)
    requires Makes(keys, make, p)
    ensures Collected(fs, keys, p)
  {
    fs := [];
    var left := keys;
    while left != {}
      invariant left <= keys
      invariant Collected(fs, keys - left, p)
      decreases |left|
    {
      var k :| k in left;
      CollectedStep(fs, keys - left, p, k, make(k));
      fs := fs + make(k);
      assert keys - left + {k} == keys - (left - {k});
      left := left - {k};
    }
    assert keys - left == keys;
  }

  /** The proposal for one role, if its group is large enough. */
  function RoleProposal(z: Zone, now: Moment, role: Slug, group: seq<Job>): seq<Proposal> {
    if |group| >= MIN_JOBS then [Proposal(role, None, Evaluate(z, group, now, None, false))] else []
  }

  /** The proposal for one role and area. */
  function AreaProposal(z: Zone, now: Moment, k: Pair, group: seq<Job>, parent: nat): seq<Proposal> {
    if |group| >= MIN_JOBS then [Proposal(k.0, Some(k.1), Evaluate(z, group, now, Some(parent), false))] else []
  }

  function RoleMaker(z: Zone, now: Moment, byRole: map<Slug, seq<Job>>): Slug -> seq<Proposal> {
    (role: Slug) => RoleProposal(z, now, role, At(byRole, role))
  }

  function AreaMaker(z: Zone, now: Moment, byRole: map<Slug, seq<Job>>, byArea: map<Pair, seq<Job>>): Pair -> seq<Proposal> {
    (k: Pair) => AreaProposal(z, now, k, At(byArea, k), |At(byRole, k.0)|)
  }

  function RoleTest(z: Zone, d: Directory, live: seq<Job>, now: Moment): (Slug, Proposal) -> bool {
    (role: Slug, f: Proposal) => IsRoleProposal(z, d, live, now, role, f)
  }

  function AreaTest(z: Zone, d: Directory, live: seq<Job>, now: Moment): (Pair, Proposal) -> bool {
    (k: Pair, f: Proposal) => IsAreaProposal(z, d, live, now, k, f)
  }

  lemma {:induction false} RoleProposalIs(z: Zone, d: Directory, live: seq<Job>, now: Moment, role: Slug, f: Proposal)
    ensures f in RoleProposal(z, now, role, RoleGroup(d, live, role)) <==> IsRoleProposal(z, d, live, now, role, f)
  {
  }

  lemma {:induction false} AreaProposalIs(z: Zone, d: Directory, live: seq<Job>, now: Moment, k: Pair, f: Proposal)
    ensures f in AreaProposal(z, now, k, AreaGroup(d, live, k.0, k.1), |RoleGroup(d, live, k.0)|) <==>
            IsAreaProposal(z, d, live, now, k, f)
  {
  }

  lemma {:induction false} RolesMake(z: Zone, d: Directory, live: seq<Job>, now: Moment, byRole: map<Slug, seq<Job>>)
    requires forall r :: At(byRole, r) == RoleGroup(d, live, r)
    ensures Makes(byRole.Keys, RoleMaker(z, now, byRole), RoleTest(z, d, live, now))
  {
    var make, p := RoleMaker(z, now, byRole), RoleTest(z, d, live, now);
    forall role, f
      ensures f in make(role) <==> p(role, f)
    {
      RoleProposalIs(z, d, live, now, role, f);
    }
  }

  lemma {:induction false} AreasMake(
    z: Zone, d: Directory, live: seq<Job>, now: Moment, byRole: map<Slug, seq<Job>>, byArea: map<Pair, seq<Job>>)
    requires forall r :: At(byRole, r) == RoleGroup(d, live, r)
    requires forall k: Pair :: At(byArea, k) == AreaGroup(d, live, k.0, k.1)
    ensures Makes(byArea.Keys, AreaMaker(z, now, byRole, byArea), AreaTest(z, d, live, now))
  {
    var make, p := AreaMaker(z, now, byRole, byArea), AreaTest(z, d, live, now);
    forall k: Pair, f
      ensures f in make(k) <==> p(k, f)
    {
      AreaProposalIs(z, d, live, now, k, f);
    }
  }

  lemma {:induction false} EveryRoleGrouped(
    z: Zone, d: Directory, live: seq<Job>, now: Moment, byRole: map<Slug, seq<Job>>, f: Proposal)
    requires forall r :: At(byRole, r) == RoleGroup(d, live, r)
    requires f.area.None? && IsProposal(z, d, live, now, f)
    ensures f.role in byRole
  {
    assert At(byRole, f.role) != [];
  }

  lemma {:induction false} EveryPairGrouped(
    z: Zone, d: Directory, live: seq<Job>, now: Moment, byArea: map<Pair, seq<Job>>, k: Pair, f: Proposal)
    requires forall k: Pair :: At(byArea, k) == AreaGroup(d, live, k.0, k.1)
    requires IsAreaProposal(z, d, live, now, k, f)
    ensures k in byArea
  {
    assert At(byArea, k) != [];
  }

  lemma {:induction false} BetterIsTotal(keyLe: (string, string) -> bool)
    requires TotalOrder(keyLe)
    ensures TotalOrder((f: Proposal, g: Proposal) => Better(keyLe, f, g))
  {
  }

  /** The two lists together hold every proposal. */
  lemma {:induction false} AllProposals(
    z: Zone, d: Directory, live: seq<Job>, now: Moment, byRole: map<Slug, seq<Job>>, byArea: map<Pair, seq<Job>>,
    roles: seq<Proposal>, areas: seq<Proposal>)
    requires forall r :: At(byRole, r) == RoleGroup(d, live, r)
    requires forall k: Pair :: At(byArea, k) == AreaGroup(d, live, k.0, k.1)
    requires Collected(roles, byRole.Keys, RoleTest(z, d, live, now))
    requires Collected(areas, byArea.Keys, AreaTest(z, d, live, now))
    ensures forall f :: f in roles <==> f.area.None? && IsProposal(z, d, live, now, f)
    ensures forall f :: f in areas <==> f.area.Some? && IsProposal(z, d, live, now, f)
  {
    forall f | IsProposal(z, d, live, now, f)
      ensures f.area.None? ==> f in roles
      ensures f.area.Some? ==> f in areas
    {
      if f.area.None? {
        EveryRoleGrouped(z, d, live, now, byRole, f);
        assert IsRoleProposal(z, d, live, now, f.role, f);
      } else {
        EveryPairGrouped(z, d, live, now, byArea, (f.role, f.area.value), f);
        assert IsAreaProposal(z, d, live, now, (f.role, f.area.value), f);
      }
    }
  }

  /** propose */
  method Propose(z: Zone, d: Directory, live: seq<Job>, now: Moment, keyLe: (string, string) -> bool) returns (out: seq<Proposal>)
    requires TotalOrder(keyLe)
    ensures forall f :: f in out <==> IsProposal(z, d, live, now, f)
    ensures forall i, j :: 0 <= i < j < |out| ==> out[i] != out[j]
    ensures SortedBy(out, (f: Proposal, g: Proposal) => Better(keyLe, f, g))
  {
    var byRole, byArea := GroupJobs(d, live);
    RolesMake(z, d, live, now, byRole);
    AreasMake(z, d, live, now, byRole, byArea);
    var roles := Collect(byRole.Keys, RoleMaker(z, now, byRole), RoleTest(z, d, live, now));
    var areas := Collect(byArea.Keys, AreaMaker(z, now, byRole, byArea), AreaTest(z, d, live, now));
    out := Sort(roles + areas, (f: Proposal, g: Proposal) => Better(keyLe, f, g));
    BetterIsTotal(keyLe);
    SortSorted(roles + areas, (f: Proposal, g: Proposal) => Better(keyLe, f, g));
    SameElements(out, roles + areas);
    AllProposals(z, d, live, now, byRole, byArea, roles, areas);
    DistinctTogether(roles, areas);
    DistinctSorted(roles + areas, out);
  }

  lemma {:induction false} DistinctTogether<T>(a: seq<T>, b: seq<T>)
    requires forall i, j :: 0 <= i < j < |a| ==> a[i] != a[j]
    requires forall i, j :: 0 <= i < j < |b| ==> b[i] != b[j]
    requires forall x :: x in a ==> x !in b
    ensures forall i, j :: 0 <= i < j < |a + b| ==> (a + b)[i] != (a + b)[j]
  {
    forall i, j | 0 <= i < j < |a + b|
      ensures (a + b)[i] != (a + b)[j]
    {
      if i < |a| <= j {
        assert a[i] in a && b[j - |a|] in b;
      }
    }
  }

  // ---------------------------------------------------------------- most searched first

  /** One order, and another among what it ties. */
  predicate Then<T>(first: (T, T) -> bool, second: (T, T) -> bool, a: T, b: T) {
    first(a, b) && (first(b, a) ==> second(a, b))
  }

  lemma {:induction false} InsertThen<T(!new)>(x: T, s: seq<T>, first: (T, T) -> bool, second: (T, T) -> bool)
    requires TotalOrder(first) && SortedBy(s, (a, b) => Then(first, second, a, b))
    requires forall y :: y in s ==> second(x, y)
    ensures SortedBy(Insert(x, s, first), (a, b) => Then(first, second, a, b))
  {
    if s == [] {
    } else if first(x, s[0]) {
      forall j | 0 <= j < |s|
        ensures Then(first, second, x, s[j])
      {
        assert s[j] in s;
        assert j > 0 ==> Then(first, second, s[0], s[j]);
      }
    } else {
      InsertThen(x, s[1..], first, second);
      var t := Insert(x, s[1..], first);
      SameElements(t, [x] + s[1..]);
      forall j | 0 <= j < |t|
        ensures Then(first, second, s[0], t[j])
      {
        assert t[j] in [x] + s[1..];
        if t[j] != x {
          var k :| 0 <= k < |s[1..]| && s[1..][k] == t[j];
          assert s[k + 1] == t[j];
        }
      }
    }
  }

  /** discover's sort is stable: most searched first, and within that the order propose gave. */
  lemma {:induction false} StableSort<T(!new)>(s: seq<T>, first: (T, T) -> bool, second: (T, T) -> bool)
    requires TotalOrder(first) && SortedBy(s, second)
    ensures SortedBy(Sort(s, first), (a, b) => Then(first, second, a, b))
  {
    if s != [] {
      StableSort(s[1..], first, second);
      var t := Sort(s[1..], first);
      SameElements(t, s[1..]);
      forall y | y in t
        ensures second(s[0], y)
      {
        var k :| 0 <= k < |s[1..]| && s[1..][k] == y;
        assert s[k + 1] == y;
      }
      InsertThen(s[0], t, first, second);
    }
  }

  lemma {:induction false} FilterSorted<T(!new)>(s: seq<T>, le: (T, T) -> bool, p: T -> bool)
    requires SortedBy(s, le)
    ensures SortedBy(Filter(s, p), le)
  {
    if s != [] {
      FilterSorted(s[1..], le, p);
      var rest := Filter(s[1..], p);
      forall y | y in rest
        ensures le(s[0], y)
      {
        FilterMembers(s[1..], p, y);
        var k :| 0 <= k < |s[1..]| && s[1..][k] == y;
        assert s[k + 1] == y;
      }
    }
  }

  lemma {:induction false} FilterDistinct<T(!new)>(s: seq<T>, p: T -> bool)
    requires forall i, j :: 0 <= i < j < |s| ==> s[i] != s[j]
    ensures forall i, j :: 0 <= i < j < |Filter(s, p)| ==> Filter(s, p)[i] != Filter(s, p)[j]
  {
    if s != [] {
      FilterDistinct(s[1..], p);
      FilterMembers(s[1..], p, s[0]);
      var rest := Filter(s[1..], p);
      forall j | 0 <= j < |rest|
        ensures rest[j] != s[0]
      {
        assert rest[j] in rest;
      }
    }
  }

  // ---------------------------------------------------------------- discover

  function AsRecord(f: Proposal): JobCollections.Proposal {
    JobCollections.Proposal(KeyOf(f), f.evaluation.recommendation)
  }

  /** Worth a page, and new or archived by the lifecycle. */
  predicate IsNew(cs: map<JobCollections.Key, JobCollections.Collection>, f: Proposal) {
    JobCollections.Wanted(cs, AsRecord(f))
  }

  predicate SearchedMore(demand: string -> nat, f: Proposal, g: Proposal) {
    demand(KeyOf(f)) >= demand(KeyOf(g))
  }

  /** Most searched first, then best score, then by key. */
  predicate Ranks(demand: string -> nat, keyLe: (string, string) -> bool, f: Proposal, g: Proposal) {
    Then((a, b) => SearchedMore(demand, a, b), (a, b) => Better(keyLe, a, b), f, g)
  }

  /** The first `limit` of the new proposals in rank order. */
  ghost predicate Picked(
    z: Zone, d: Directory, live: seq<Job>, now: Moment, cs: map<JobCollections.Key, JobCollections.Collection>,
    demand: string -> nat, keyLe: (string, string) -> bool, limit: nat, picked: seq<Proposal>)
  {
    && |picked| <= limit
    && (forall f :: f in picked ==> IsProposal(z, d, live, now, f) && IsNew(cs, f))
    && (forall i, j :: 0 <= i < j < |picked| ==> KeyOf(picked[i]) != KeyOf(picked[j]) && Ranks(demand, keyLe, picked[i], picked[j]))
    && (forall g :: IsProposal(z, d, live, now, g) && IsNew(cs, g) && g !in picked ==>
          |picked| == limit && forall f :: f in picked ==> Ranks(demand, keyLe, f, g))
  }

  lemma {:induction false} ValuesOf(d: Directory, f: Proposal)
    requires ValidDirectory(d) && f.role in d.titleOf && (f.area.Some? ==> AreaExists(d, f.area.value))
    ensures CollectionTypes.Slugs(Values(f)) && CollectionTypes.CollectionKey(Values(f)) == KeyOf(f)
  {
    assert ';' !in REMOTE_SLUG;
  }

  lemma {:induction false} ValuesDiffer(f: Proposal, g: Proposal)
    requires f.role != g.role || f.area != g.area
    ensures Values(f) != Values(g)
  {
    assert Values(f)[CollectionTypes.ROLE] == f.role && Values(g)[CollectionTypes.ROLE] == g.role;
    assert CollectionTypes.LOCATION in Values(f) <==> f.area.Some?;
    assert CollectionTypes.LOCATION in Values(g) <==> g.area.Some?;
  }

  /** Different proposals of one run have different keys. */
  lemma {:induction false} KeysDiffer(z: Zone, d: Directory, live: seq<Job>, now: Moment, f: Proposal, g: Proposal)
    requires ValidDirectory(d) && IsProposal(z, d, live, now, f) && IsProposal(z, d, live, now, g) && f != g
    ensures KeyOf(f) != KeyOf(g)
  {
    GroupsExist(d, live, f.role, if f.area.Some? then f.area.value else REMOTE_SLUG);
    GroupsExist(d, live, g.role, if g.area.Some? then g.area.value else REMOTE_SLUG);
    ValuesOf(d, f);
    ValuesOf(d, g);
    ValuesDiffer(f, g);
    if KeyOf(f) == KeyOf(g) {
      CollectionTypes.KeyInjective(Values(f), Values(g));
    }
  }

  /** Filter, demand sort and cut, in discover's order. */
  method Pick(ghost z: Zone, ghost d: Directory, ghost live: seq<Job>, ghost now: Moment, proposals: seq<Proposal>,
              cs: map<JobCollections.Key, JobCollections.Collection>, demand: string -> nat,
              ghost keyLe: (string, string) -> bool, limit: nat)
    returns (picked: seq<Proposal>)
    requires ValidDirectory(d) && (forall f :: f in proposals <==> IsProposal(z, d, live, now, f))
    requires forall i, j :: 0 <= i < j < |proposals| ==> proposals[i] != proposals[j]
    requires SortedBy(proposals, (f: Proposal, g: Proposal) => Better(keyLe, f, g))
    ensures Picked(z, d, live, now, cs, demand, keyLe, limit, picked)
  {
    var isNew := (f: Proposal) => IsNew(cs, f);
    var searched := (f: Proposal, g: Proposal) => SearchedMore(demand, f, g);
    ghost var better := (f: Proposal, g: Proposal) => Better(keyLe, f, g);
    var new' := Filter(proposals, isNew);
    var ranked := Sort(new', searched);
    picked := if |ranked| > limit then ranked[..limit] else ranked;
    FilterSorted(proposals, better, isNew);
    FilterDistinct(proposals, isNew);
    StableSort(new', searched, better);
    DistinctSorted(new', ranked);
    forall f
      ensures f in ranked <==> IsProposal(z, d, live, now, f) && IsNew(cs, f)
    {
      SameElements(ranked, new');
      FilterMembers(proposals, isNew, f);
    }
    forall i, j | 0 <= i < j < |ranked|
      ensures Ranks(demand, keyLe, ranked[i], ranked[j])
    {
      assert Then(searched, better, ranked[i], ranked[j]);
    }
    FirstOfRanked(z, d, live, now, cs, demand, keyLe, limit, ranked);
  }

  lemma {:induction false} FirstOfRanked(
    z: Zone, d: Directory, live: seq<Job>, now: Moment, cs: map<JobCollections.Key, JobCollections.Collection>,
    demand: string -> nat, keyLe: (string, string) -> bool, limit: nat, ranked: seq<Proposal>)
    requires ValidDirectory(d) && (forall f :: f in ranked <==> IsProposal(z, d, live, now, f) && IsNew(cs, f))
    requires forall i, j :: 0 <= i < j < |ranked| ==> ranked[i] != ranked[j] && Ranks(demand, keyLe, ranked[i], ranked[j])
    ensures Picked(z, d, live, now, cs, demand, keyLe, limit, if |ranked| > limit then ranked[..limit] else ranked)
  {
    var picked := if |ranked| > limit then ranked[..limit] else ranked;
    forall i, j | 0 <= i < j < |picked|
      ensures KeyOf(picked[i]) != KeyOf(picked[j]) && Ranks(demand, keyLe, picked[i], picked[j])
    {
      assert ranked[i] in ranked && ranked[j] in ranked;
      KeysDiffer(z, d, live, now, picked[i], picked[j]);
    }
    forall g | g in ranked
      ensures g in picked || (|picked| == limit && forall f :: f in picked ==> Ranks(demand, keyLe, f, g))
    {
      var j :| 0 <= j < |ranked| && ranked[j] == g;
      if j < |picked| {
        assert picked[j] in picked;
      }
    }
  }

  /** The text a proposal's collection is stored under. */
  function KeyText(f: Proposal): string {
    if f.area.Some? then "role=" + f.role + ";location=" + f.area.value else "role=" + f.role
  }

  lemma {:induction false} KeyReads(f: Proposal)
    ensures KeyOf(f) == KeyText(f)
  {
    CollectionTypes.RoleKeys(f.role, if f.area.Some? then f.area.value else "");
  }

  /** A group of at least 20 jobs, with its score: a role's on its own, and a role and area's against
      the role's as its parent. */
  predicate HasEnough(z: Zone, d: Directory, live: seq<Job>, now: Moment, f: Proposal) {
    var role := RoleGroup(d, live, f.role);
    if f.area.None? then |role| >= 20 && f.evaluation == Evaluate(z, role, now, None, false)
    else
      var both := AreaGroup(d, live, f.role, f.area.value);
      |both| >= 20 && f.evaluation == Evaluate(z, both, now, Some(|role|), false)
  }

  /** Not below the bar, and either nothing is stored under its key or the lifecycle archived it. */
  predicate MayBePicked(cs: map<JobCollections.Key, JobCollections.Collection>, f: Proposal) {
    && f.evaluation.recommendation in {JobCollections.Index, JobCollections.Review}
    && (KeyText(f) in cs ==>
          var c := cs[KeyText(f)];
          c.status == JobCollections.Archived && c.events != [] && c.events[|c.events| - 1].trigger == JobCollections.Lifecycle)
  }

  /** Searched more; or as much, with a higher score; or with the same score, earlier by key. */
  predicate ComesBefore(demand: string -> nat, keyLe: (string, string) -> bool, f: Proposal, g: Proposal) {
    var a, b := KeyText(f), KeyText(g);
    || demand(a) > demand(b)
    || (demand(a) == demand(b) && (|| f.evaluation.total > g.evaluation.total
                                   || (f.evaluation.total == g.evaluation.total && keyLe(a, b))))
  }

  lemma {:induction false} ProposalReads(z: Zone, d: Directory, live: seq<Job>, now: Moment, f: Proposal)
    ensures IsProposal(z, d, live, now, f) <==> HasEnough(z, d, live, now, f)
  {
  }

  lemma {:induction false} NewReads(cs: map<JobCollections.Key, JobCollections.Collection>, f: Proposal)
    ensures IsNew(cs, f) <==> MayBePicked(cs, f)
  {
    KeyReads(f);
    NotBelowBar(f.evaluation.recommendation);
  }

  lemma {:induction false} NotBelowBar(r: JobCollections.Recommendation)
    ensures r != JobCollections.BelowBar <==> r in {JobCollections.Index, JobCollections.Review}
  {
    match r
    case Index =>
    case Review =>
    case BelowBar =>
  }

  lemma {:induction false} RankReads(demand: string -> nat, keyLe: (string, string) -> bool, f: Proposal, g: Proposal)
    ensures Ranks(demand, keyLe, f, g) <==> ComesBefore(demand, keyLe, f, g)
  {
    KeyReads(f);
    KeyReads(g);
  }

  /** The first `limit` of the proposals that may be picked, in order. */
  ghost predicate FirstOnes(
    z: Zone, d: Directory, live: seq<Job>, now: Moment, cs: map<JobCollections.Key, JobCollections.Collection>,
    demand: string -> nat, keyLe: (string, string) -> bool, limit: nat, picked: seq<Proposal>)
  {
    && |picked| <= limit
    && (forall f :: f in picked ==> HasEnough(z, d, live, now, f) && MayBePicked(cs, f))
    && (forall i, j :: 0 <= i < j < |picked| ==> KeyText(picked[i]) != KeyText(picked[j]) && ComesBefore(demand, keyLe, picked[i], picked[j]))
    && (forall g :: HasEnough(z, d, live, now, g) && MayBePicked(cs, g) && g !in picked ==>
          |picked| == limit && forall f :: f in picked ==> ComesBefore(demand, keyLe, f, g))
  }

  lemma {:induction false} PickedReads(
    z: Zone, d: Directory, live: seq<Job>, now: Moment, cs: map<JobCollections.Key, JobCollections.Collection>,
    demand: string -> nat, keyLe: (string, string) -> bool, limit: nat, picked: seq<Proposal>)
    requires Picked(z, d, live, now, cs, demand, keyLe, limit, picked)
    ensures FirstOnes(z, d, live, now, cs, demand, keyLe, limit, picked)
  {
    forall f
      ensures IsProposal(z, d, live, now, f) && IsNew(cs, f) <==> HasEnough(z, d, live, now, f) && MayBePicked(cs, f)
      ensures KeyOf(f) == KeyText(f)
    {
      ProposalReads(z, d, live, now, f);
      NewReads(cs, f);
      KeyReads(f);
    }
    forall f, g
      ensures Ranks(demand, keyLe, f, g) <==> ComesBefore(demand, keyLe, f, g)
    {
      RankReads(demand, keyLe, f, g);
    }
  }

  /** Each picked collection is there, qualified if it earned an index and a candidate otherwise, and
      no other collection has changed, come or gone. */
  ghost predicate WritesPicked(
    cs: map<JobCollections.Key, JobCollections.Collection>, cs': map<JobCollections.Key, JobCollections.Collection>,
    picked: seq<Proposal>)
  {
    && (forall f :: f in picked ==>
          && KeyText(f) in cs'
          && cs'[KeyText(f)].status ==
             if f.evaluation.recommendation == JobCollections.Index then JobCollections.Qualified else JobCollections.Candidate)
    && (forall k :: (forall f :: f in picked ==> KeyText(f) != k) ==>
          (k in cs' <==> k in cs) && (k in cs ==> cs'[k] == cs[k]))
  }

  lemma {:induction false} OnePickedIsWritten(
    cs: map<JobCollections.Key, JobCollections.Collection>, picked: seq<Proposal>, records: seq<JobCollections.Proposal>,
    day: JobCollections.Day, i: nat)
    requires i < |picked| && records == Column(picked, (f: Proposal) => AsRecord(f)) && JobCollections.DistinctKeys(records)
    ensures var f := picked[i];
            && KeyText(f) in JobCollections.RecordAll(cs, records, day)
            && JobCollections.RecordAll(cs, records, day)[KeyText(f)].status ==
               if f.evaluation.recommendation == JobCollections.Index then JobCollections.Qualified else JobCollections.Candidate
  {
    var f := picked[i];
    assert records[i] == AsRecord(f);
    KeyReads(f);
    JobCollections.RecordedReads(cs, records, day, AsRecord(f));
  }

  lemma {:induction false} OthersNotWritten(
    cs: map<JobCollections.Key, JobCollections.Collection>, picked: seq<Proposal>, records: seq<JobCollections.Proposal>,
    day: JobCollections.Day, k: JobCollections.Key)
    requires records == Column(picked, (f: Proposal) => AsRecord(f)) && forall f :: f in picked ==> KeyText(f) != k
    ensures k in JobCollections.RecordAll(cs, records, day) <==> k in cs
    ensures k in cs ==> JobCollections.RecordAll(cs, records, day)[k] == cs[k]
  {
    forall p | p in records
      ensures p.key != k
    {
      var i :| 0 <= i < |records| && records[i] == p;
      KeyReads(picked[i]);
      assert picked[i] in picked;
    }
    JobCollections.RecordAllFrame(cs, records, day, k);
  }

  lemma {:induction false} PickedAreWritten(
    cs: map<JobCollections.Key, JobCollections.Collection>, picked: seq<Proposal>, day: JobCollections.Day)
    requires forall i, j :: 0 <= i < j < |picked| ==> KeyOf(picked[i]) != KeyOf(picked[j])
    ensures WritesPicked(cs, JobCollections.RecordAll(cs, Column(picked, (f: Proposal) => AsRecord(f)), day), picked)
  {
    var records := Column(picked, (f: Proposal) => AsRecord(f));
    var cs' := JobCollections.RecordAll(cs, records, day);
    forall f | f in picked
      ensures KeyText(f) in cs'
      ensures cs'[KeyText(f)].status ==
              if f.evaluation.recommendation == JobCollections.Index then JobCollections.Qualified else JobCollections.Candidate
    {
      var i :| 0 <= i < |picked| && picked[i] == f;
      OnePickedIsWritten(cs, picked, records, day, i);
    }
    forall k | forall f :: f in picked ==> KeyText(f) != k
      ensures k in cs' <==> k in cs
      ensures k in cs ==> cs'[k] == cs[k]
    {
      OthersNotWritten(cs, picked, records, day, k);
    }
  }

  /** The last loop of discover(apply=True). */
  method RecordPicked(registry: JobCollections.Registry, picked: seq<Proposal>, day: JobCollections.Day)
    requires forall f :: f in picked ==> IsNew(registry.collections, f)
    requires forall i, j :: 0 <= i < j < |picked| ==> KeyOf(picked[i]) != KeyOf(picked[j])
    modifies registry
    ensures registry.collections ==
            JobCollections.RecordAll(old(registry.collections), Column(picked, (f: Proposal) => AsRecord(f)), day)
    ensures WritesPicked(old(registry.collections), registry.collections, picked)
  {
    var records := Column(picked, (f: Proposal) => AsRecord(f));
    forall p | p in records
      ensures JobCollections.Wanted(registry.collections, p)
    {
      var i :| 0 <= i < |records| && records[i] == p;
      assert picked[i] in picked;
    }
    PickedAreWritten(registry.collections, picked, day);
    registry.RecordProposals(records, day);
  }

  /** Main result: discover, whole. It proposes every group with enough jobs, keeps what is worth a
      page and new or archived by the lifecycle, ranks by demand and then score, and records the
      first `limit`, each under its own key, with nothing else in the registry touched. */
  method Discover(registry: JobCollections.Registry, z: Zone, d: Directory, live: seq<Job>, now: Moment,
                  demand: string -> nat, keyLe: (string, string) -> bool, limit: nat, apply: bool)
    returns (picked: seq<Proposal>)
    requires TotalOrder(keyLe) && ValidDirectory(d)
    modifies registry
    ensures Picked(z, d, live, now, old(registry.collections), demand, keyLe, limit, picked)
    ensures FirstOnes(z, d, live, now, old(registry.collections), demand, keyLe, limit, picked)
    ensures apply ==> WritesPicked(old(registry.collections), registry.collections, picked)
    ensures registry.collections ==
            if apply then JobCollections.RecordAll(old(registry.collections), Column(picked, (f: Proposal) => AsRecord(f)), z.dayOf(now))
            else old(registry.collections)
  {
    var proposals := Propose(z, d, live, now, keyLe);
    picked := Pick(z, d, live, now, proposals, registry.collections, demand, keyLe, limit);
    PickedReads(z, d, live, now, registry.collections, demand, keyLe, limit, picked);
    if apply {
      RecordPicked(registry, picked, z.dayOf(now));
    }
  }
}
