/** The job collection registry: app/services/job_collections.py (statuses and their history),
    collection_admin.py (a person's actions), collection_lifecycle.py (nightly scoring and its
    rules) and the writing half of collection_discovery.py. */
module JobCollections {
  import opened Base

  datatype Status = Candidate | Qualified | Published | Indexable | Performing | Declining | Noindex | Archived

  datatype Trigger = Manual | Qualification | Lifecycle | System

  datatype Recommendation = Index | Review | BelowBar

  datatype Action = Approve | TakeOut | Archive | Restore

  type Day = int
  type Admin = nat

  const GRACE_DAYS := 3
  const EMPTY_DAYS := 14

  /** A job_collection_events row; `day` is the Eastern date of its created_at. */
  datatype Event = Event(
    previous: Option<Status>, status: Status, trigger: Trigger, reason: string, actor: Option<Admin>, day: Day)

  /** A job_collections row with its events, oldest first. `belowSince` and `emptySince` are the
      two dates kept in its qualification. */
  datatype Collection = Collection(status: Status, events: seq<Event>, belowSince: Option<Day>, emptySince: Option<Day>)

  /** One nightly (or on-demand) scoring of a collection. */
  datatype Scoring = Scoring(day: Day, recommendation: Recommendation, openJobs: nat)

  // ---------------------------------------------------------------- the rules

  function Transitions(s: Status): set<Status> {
    match s
    case Candidate => {Qualified, Archived}
    case Qualified => {Published, Candidate, Archived}
    case Published => {Indexable, Noindex, Archived}
    case Indexable => {Performing, Declining, Noindex, Archived}
    case Performing => {Declining, Noindex, Archived}
    case Declining => {Performing, Indexable, Noindex, Archived}
    case Noindex => {Indexable, Archived}
    case Archived => {Candidate}
  }

  /** The allowed moves from the other end: the statuses each one is entered from. */
  predicate MayFollow(from: Status, to: Status) {
    match to
    case Candidate => from in {Qualified, Archived}
    case Qualified => from == Candidate
    case Published => from == Qualified
    case Indexable => from in {Published, Declining, Noindex}
    case Performing => from in {Indexable, Declining}
    case Declining => from in {Indexable, Performing}
    case Noindex => from in {Published, Indexable, Performing, Declining}
    case Archived => from != Archived
  }

  predicate ManualOnly(s: Status) {
    s == Published || s == Indexable
  }

  predicate Indexed(s: Status) {
    s in {Published, Indexable, Performing, Declining}
  }

  predicate Space(c: char) {
    c in {' ', '\t', '\n', '\r'}
  }

  /** reason.strip() is empty. */
  predicate Blank(s: string) {
    forall i :: 0 <= i < |s| ==> Space(s[i])
  }

  function Strip(s: string): string {
    if s == [] then s
    else if Space(s[0]) then Strip(s[1..])
    else if Space(s[|s| - 1]) then Strip(s[..|s| - 1])
    else s
  }

  /** _check_event passes. */
  predicate MayRecord(status: Status, reason: string, trigger: Trigger, actor: Option<Admin>) {
    && !Blank(reason)
    && (trigger == Manual ==> actor.Some?)
    && (ManualOnly(status) ==> trigger == Manual)
  }

  predicate MayMove(c: Collection, to: Status, reason: string, trigger: Trigger, actor: Option<Admin>) {
    to in Transitions(c.status) && MayRecord(to, reason, trigger, actor)
  }

  function Moved(c: Collection, to: Status, reason: string, trigger: Trigger, actor: Option<Admin>, day: Day): Collection {
    c.(status := to, events := c.events + [Event(Some(c.status), to, trigger, Strip(reason), actor, day)])
  }

  function Created(reason: string, trigger: Trigger, actor: Option<Admin>, day: Day): Collection {
    Collection(Candidate, [Event(None, Candidate, trigger, Strip(reason), actor, day)], None, None)
  }

  /** collection_admin._PATHS. */
  function Path(a: Action, from: Status): Option<seq<Status>> {
    match a
    case Approve =>
      (match from
       case Candidate => Some([Qualified, Published, Indexable])
       case Qualified => Some([Published, Indexable])
       case Published => Some([Indexable])
       case Noindex => Some([Indexable])
       case _ => None)
    case TakeOut => if Indexed(from) then Some([Noindex]) else None
    case Archive => if from != Archived then Some([Archived]) else None
    case Restore => if from == Archived then Some([Candidate]) else None
  }

  predicate ApprovedSince(events: seq<Event>, since: Day) {
    exists i :: 0 <= i < |events| && events[i].trigger == Manual && events[i].status == Indexable && events[i].day >= since
  }

  function Since(was: Option<Day>, today: Day, holds: bool): Option<Day> {
    if !holds then None else if was.Some? then was else Some(today)
  }

  /** The rule _record applies, in its order. */
  function ChangeFor(c: Collection, belowSince: Option<Day>, emptySince: Option<Day>, s: Scoring): Option<(Status, Trigger)> {
    if emptySince.Some? && s.day - emptySince.value >= EMPTY_DAYS then Some((Archived, Lifecycle))
    else if Indexed(c.status) && belowSince.Some? && s.day - belowSince.value >= GRACE_DAYS
            && !ApprovedSince(c.events, belowSince.value) then Some((Noindex, Lifecycle))
    else if c.status == Qualified && s.recommendation != Index then Some((Candidate, Qualification))
    else if c.status == Candidate && s.recommendation == Index then Some((Qualified, Qualification))
    else None
  }

  /** _record with apply=True, on a collection that is not archived. */
  function Scored(c: Collection, s: Scoring): Collection {
    var below := Since(c.belowSince, s.day, s.recommendation == BelowBar);
    var empty := Since(c.emptySince, s.day, s.openJobs == 0);
    var change := ChangeFor(c, below, empty, s);
    var c' := c.(belowSince := below, emptySince := empty);
    if change.None? then c' else Moved(c', change.value.0, "scored", change.value.1, None, s.day)
  }

  /** _archived_by_lifecycle. */
  predicate ArchivedByLifecycle(c: Collection) {
    c.status == Archived && c.events != [] && c.events[|c.events| - 1].trigger == Lifecycle
  }

  /** discover() recording a proposal for a collection, new or returning. */
  function Discovered(c: Option<Collection>, r: Recommendation, day: Day): Collection {
    var start := if c.Some? then Moved(c.value, Candidate, "found by discovery again", Lifecycle, None, day)
                 else Created("found by discovery", System, None, day);
    var moved := if r == Index then Moved(start, Qualified, "scored", Qualification, None, day) else start;
    moved.(belowSince := None, emptySince := None)
  }

  // ---------------------------------------------------------------- the registry

  type Key = string

  datatype Proposal = Proposal(key: Key, recommendation: Recommendation)

  class Registry {
    var collections: map<Key, Collection>

    constructor ()
      ensures collections == map[]
    {
      collections := map[];
    }

    /** create_collection, once its dimension values have made a key. */
    method CreateCollection(key: Key, reason: string, trigger: Trigger, actor: Option<Admin>, day: Day) returns (ok: bool)
      modifies this
      ensures ok <==> key !in old(collections) && MayRecord(Candidate, reason, trigger, actor)
      ensures collections == if ok then old(collections)[key := Created(reason, trigger, actor, day)] else old(collections)
    {
      if key in collections || !MayRecord(Candidate, reason, trigger, actor) {
        return false;
      }
      collections := collections[key := Created(reason, trigger, actor, day)];
      return true;
    }

    /** transition: the move and its event, or an error that changes nothing. */
    method Transition(key: Key, to: Status, reason: string, trigger: Trigger, actor: Option<Admin>, day: Day) returns (ok: bool)
      requires key in collections
      modifies this
      ensures ok <==>
                && MayFollow(old(collections)[key].status, to)
                && (exists i :: 0 <= i < |reason| && reason[i] !in {' ', '\t', '\n', '\r'})
                && (trigger == Manual ==> actor.Some?) && (to in {Published, Indexable} ==> trigger == Manual)
      ensures ok <==> MayMove(old(collections)[key], to, reason, trigger, actor)
      ensures collections ==
              if ok then old(collections)[key := Moved(old(collections)[key], to, reason, trigger, actor, day)]
              else old(collections)
    {
      var c := collections[key];
      if to !in Transitions(c.status) {
        return false;
      }
      if !MayRecord(to, reason, trigger, actor) {
        return false;
      }
      c := c.(status := to, events := c.events + [Event(Some(c.status), to, trigger, Strip(reason), actor, day)]);
      collections := collections[key := c];
      return true;
    }

    /** apply_action walks a path of transitions: all of them, or none. */
    method ApplyAction(key: Key, action: Action, admin: Admin, reason: string, day: Day) returns (ok: bool)
      requires key in collections
      modifies this
      ensures ok <==>
                && (exists i :: 0 <= i < |reason| && reason[i] !in {' ', '\t', '\n', '\r'})
                && match action
                   case Approve => old(collections)[key].status in {Candidate, Qualified, Published, Noindex}
                   case TakeOut => old(collections)[key].status in {Published, Indexable, Performing, Declining}
                   case Archive => old(collections)[key].status != Archived
                   case Restore => old(collections)[key].status == Archived
      ensures !ok ==> collections == old(collections)
      ensures ok ==> key in collections && collections == old(collections)[key := collections[key]]
      ensures ok ==> ActedOn(old(collections)[key], collections[key], action, reason, admin, day)
      ensures ok ==> Path(action, old(collections)[key].status).Some? && collections[key] ==
                     Walked(old(collections)[key], Path(action, old(collections)[key].status).value, reason, admin, day)
    {
      var path := Path(action, collections[key].status);
      if path.None? || Blank(reason) {
        return false;
      }
      ghost var start := collections[key];
      for i := 0 to |path.value|
        invariant key in collections && collections == old(collections)[key := collections[key]]
        invariant collections[key] == Walked(start, path.value[..i], reason, admin, day)
      {
        PathStep(action, start, path.value, i, reason, admin, day);
        assert path.value[..i + 1][..i] == path.value[..i];
        var moved := Transition(key, path.value[i], reason, Manual, Some(admin), day);
        assert moved;
      }
      assert path.value[..|path.value|] == path.value;
      ActionReads(action, start, reason, admin, day);
      return true;
    }

    /** _record on one collection; reevaluate_all does this for every one that is not archived. */
    method Record(key: Key, s: Scoring)
      requires key in collections && collections[key].status != Archived
      modifies this
      ensures collections == old(collections)[key := Scored(old(collections)[key], s)]
    {
      var c := collections[key];
      var below := if s.recommendation == BelowBar then (if c.belowSince.Some? then c.belowSince else Some(s.day)) else None;
      var empty := if s.openJobs == 0 then (if c.emptySince.Some? then c.emptySince else Some(s.day)) else None;
      var change := ChangeFor(c, below, empty, s);
      collections := collections[key := c.(belowSince := below, emptySince := empty)];
      if change.Some? {
        ChangeAllowed(c, below, empty, s);
        var moved := Transition(key, change.value.0, "scored", change.value.1, None, s.day);
        assert moved;
      }
    }

    /** The writing half of discover(apply=True): each chosen proposal becomes a new collection, or
        brings its archived one back. */
    method RecordProposals(chosen: seq<Proposal>, day: Day)
      requires DistinctKeys(chosen) && forall p :: p in chosen ==> Wanted(collections, p)
      modifies this
      ensures collections == RecordAll(old(collections), chosen, day)
    {
      for n := 0 to |chosen|
        invariant collections == RecordAll(old(collections), chosen[..n], day)
      {
        assert chosen[..n + 1][..n] == chosen[..n];
        assert chosen[n] in chosen;
        RecordAllFrame(old(collections), chosen[..n], day, chosen[n].key);
        WriteProposal(chosen[n], day);
      }
      assert chosen[..|chosen|] == chosen;
    }

    method WriteProposal(p: Proposal, day: Day)
      requires Wanted(collections, p)
      modifies this
      ensures collections == WithProposal(old(collections), p, day)
    {
      ReasonsSaySomething();
      var ok;
      if p.key in collections {
        ok := Transition(p.key, Candidate, "found by discovery again", Lifecycle, None, day);
      } else {
        ok := CreateCollection(p.key, "found by discovery", System, None, day);
      }
      assert ok;
      if p.recommendation == Index {
        ok := Transition(p.key, Qualified, "scored", Qualification, None, day);
        assert ok;
      }
      collections := collections[p.key := collections[p.key].(belowSince := None, emptySince := None)];
    }
  }

  lemma {:induction false} ReasonsSaySomething()
    ensures !Blank("found by discovery again") && !Blank("found by discovery") && !Blank("scored")
  {
    assert "found by discovery again"[0] == 'f' && "found by discovery"[0] == 'f' && "scored"[0] == 's';
  }

  /** Whatever _record's rule picks for a collection that is not archived is a legal move for the
      system to make. */
  lemma {:induction false} ChangeAllowed(c: Collection, below: Option<Day>, empty: Option<Day>, s: Scoring)
    requires c.status != Archived && ChangeFor(c, below, empty, s).Some?
    ensures var (to, trigger) := ChangeFor(c, below, empty, s).value;
            MayMove(c.(belowSince := below, emptySince := empty), to, "scored", trigger, None)
  {
    assert !Blank("scored") by { assert "scored"[0] == 's'; }
  }

  /** Where each action leaves a collection, and what it records: events of the admin's, one for each
      status passed on the way, and an approval publishes what was not published before. */
  ghost predicate ActedOn(c: Collection, c': Collection, a: Action, reason: string, admin: Admin, day: Day) {
    && c'.status == (match a case Approve => Indexable case TakeOut => Noindex case Archive => Archived case Restore => Candidate)
    && c'.belowSince == c.belowSince && c'.emptySince == c.emptySince
    && |c'.events| == |c.events| + (if a == Approve && c.status == Candidate then 3
                                    else if a == Approve && c.status == Qualified then 2 else 1)
    && c'.events[..|c.events|] == c.events
    && (forall i :: |c.events| <= i < |c'.events| ==>
          && c'.events[i].trigger == Manual && c'.events[i].actor == Some(admin)
          && c'.events[i].reason == Strip(reason) && c'.events[i].day == day)
    && c'.events[|c'.events| - 1].status == c'.status
    && (a == Approve ==>
          ((exists i :: |c.events| <= i < |c'.events| && c'.events[i].status == Published) <==> c.status in {Candidate, Qualified}))
  }

  lemma {:induction false} WalkedMore(c: Collection, path: seq<Status>, to: Status, reason: string, admin: Admin, day: Day)
    ensures Walked(c, [], reason, admin, day) == c
    ensures Walked(c, path + [to], reason, admin, day) ==
            Moved(Walked(c, path, reason, admin, day), to, reason, Manual, Some(admin), day)
  {
    assert (path + [to])[..|path|] == path;
  }

  lemma {:induction false} WalkedThrough(c: Collection, x: Status, y: Status, z: Status, reason: string, admin: Admin, day: Day)
    ensures var one := Moved(c, x, reason, Manual, Some(admin), day);
            var two := Moved(one, y, reason, Manual, Some(admin), day);
            && Walked(c, [x], reason, admin, day) == one
            && Walked(c, [x, y], reason, admin, day) == two
            && Walked(c, [x, y, z], reason, admin, day) == Moved(two, z, reason, Manual, Some(admin), day)
  {
    WalkedMore(c, [], x, reason, admin, day);
    WalkedMore(c, [x], y, reason, admin, day);
    WalkedMore(c, [x, y], z, reason, admin, day);
    assert [] + [x] == [x] && [x] + [y] == [x, y] && [x, y] + [z] == [x, y, z];
  }

  lemma {:induction false} CandidateApproved(c: Collection, reason: string, admin: Admin, day: Day)
    requires c.status == Candidate
    ensures ActedOn(c, Walked(c, [Qualified, Published, Indexable], reason, admin, day), Approve, reason, admin, day)
  {
    WalkedThrough(c, Qualified, Published, Indexable, reason, admin, day);
    assert Walked(c, [Qualified, Published, Indexable], reason, admin, day).events[|c.events| + 1].status == Published;
  }

  lemma {:induction false} QualifiedApproved(c: Collection, reason: string, admin: Admin, day: Day)
    requires c.status == Qualified
    ensures ActedOn(c, Walked(c, [Published, Indexable], reason, admin, day), Approve, reason, admin, day)
  {
    WalkedThrough(c, Published, Indexable, Indexable, reason, admin, day);
    assert Walked(c, [Published, Indexable], reason, admin, day).events[|c.events|].status == Published;
  }

  lemma {:induction false} ActionReads(a: Action, c: Collection, reason: string, admin: Admin, day: Day)
    requires Path(a, c.status).Some?
    ensures ActedOn(c, Walked(c, Path(a, c.status).value, reason, admin, day), a, reason, admin, day)
  {
    if a == Approve && c.status == Candidate {
      CandidateApproved(c, reason, admin, day);
    } else if a == Approve && c.status == Qualified {
      QualifiedApproved(c, reason, admin, day);
    } else {
      var path := Path(a, c.status).value;
      WalkedThrough(c, path[0], path[0], path[0], reason, admin, day);
      assert path == [path[0]];
    }
  }

  /** Stripping takes white space off both ends, all of it and nothing else. */
  lemma {:induction false} StripTrims(s: string) returns (i: nat, j: nat)
    ensures i <= j <= |s| && Strip(s) == s[i..j]
    ensures Blank(s[..i]) && Blank(s[j..])
    ensures Strip(s) != [] ==> !Space(Strip(s)[0]) && !Space(Strip(s)[|Strip(s)| - 1])
    decreases |s|
  {
    if s == [] {
      i, j := 0, 0;
    } else if Space(s[0]) {
      var h, k := StripTrims(s[1..]);
      i, j := h + 1, k + 1;
      assert s[1..][h..k] == s[i..j];
      assert s[1..][k..] == s[j..];
      assert s[..i] == [s[0]] + s[1..][..h];
    } else if Space(s[|s| - 1]) {
      i, j := StripTrims(s[..|s| - 1]);
      TrimmedEnd(s, i, j);
    } else {
      i, j := 0, |s|;
    }
  }

  lemma {:induction false} TrimmedEnd(s: string, i: nat, j: nat)
    requires s != [] && Space(s[|s| - 1]) && i <= j < |s| && Blank(s[..|s| - 1][..i]) && Blank(s[..|s| - 1][j..])
    ensures s[i..j] == s[..|s| - 1][i..j] && Blank(s[..i]) && Blank(s[j..])
  {
    var n := |s| - 1;
    assert s[..i] == s[..n][..i];
    assert s[j..] == s[..n][j..] + [s[n]];
  }

  predicate Wanted(cs: map<Key, Collection>, p: Proposal) {
    p.recommendation != BelowBar && (p.key !in cs || ArchivedByLifecycle(cs[p.key]))
  }

  ghost predicate DistinctKeys(ps: seq<Proposal>) {
    forall i, j :: 0 <= i < j < |ps| ==> ps[i].key != ps[j].key
  }

  function WithProposal(cs: map<Key, Collection>, p: Proposal, day: Day): map<Key, Collection> {
    cs[p.key := Discovered(if p.key in cs then Some(cs[p.key]) else None, p.recommendation, day)]
  }

  function RecordAll(cs: map<Key, Collection>, ps: seq<Proposal>, day: Day): map<Key, Collection> {
    if ps == [] then cs else WithProposal(RecordAll(cs, ps[..|ps| - 1], day), ps[|ps| - 1], day)
  }

  lemma {:induction false} RecordAllFrame(cs: map<Key, Collection>, ps: seq<Proposal>, day: Day, k: Key)
    requires forall p :: p in ps ==> p.key != k
    ensures k in RecordAll(cs, ps, day) <==> k in cs
    ensures k in cs ==> RecordAll(cs, ps, day)[k] == cs[k]
  {
    if ps != [] {
      assert ps[|ps| - 1] in ps;
      RecordAllFrame(cs, ps[..|ps| - 1], day, k);
    }
  }

  /** Each recorded proposal changes its own collection, once, and no other. */
  lemma {:induction false} RecordAllAt(cs: map<Key, Collection>, ps: seq<Proposal>, day: Day, p: Proposal)
    requires DistinctKeys(ps) && p in ps
    ensures p.key in RecordAll(cs, ps, day)
    ensures RecordAll(cs, ps, day)[p.key] == Discovered(if p.key in cs then Some(cs[p.key]) else None, p.recommendation, day)
  {
    var n := |ps| - 1;
    if p == ps[n] {
      forall q | q in ps[..n]
        ensures q.key != p.key
      {
        var i :| 0 <= i < n && ps[i] == q;
      }
      RecordAllFrame(cs, ps[..n], day, p.key);
    } else {
      RecordAllAt(cs, ps[..n], day, p);
    }
  }

  /** What recording does to a collection that was there: it comes back, with what discovery writes
      on it, exactly when it was chosen, and otherwise stays as it was. */
  lemma {:induction false} ComesBackIffChosen(cs: map<Key, Collection>, ps: seq<Proposal>, day: Day, k: Key)
    requires DistinctKeys(ps) && (forall p :: p in ps ==> Wanted(cs, p)) && k in cs
    ensures k in RecordAll(cs, ps, day)
    ensures RecordAll(cs, ps, day)[k] != cs[k] <==> exists p :: p in ps && p.key == k
    ensures RecordAll(cs, ps, day)[k] != cs[k] ==>
              ArchivedByLifecycle(cs[k]) && RecordAll(cs, ps, day)[k].status in {Candidate, Qualified}
  {
    if p :| p in ps && p.key == k {
      RecordAllAt(cs, ps, day, p);
      assert |RecordAll(cs, ps, day)[k].events| > |cs[k].events|;
    } else {
      RecordAllFrame(cs, ps, day, k);
    }
  }

  /** What discovery writes: the collection qualified if its jobs earn an index and a candidate
      otherwise, its dates started over, and one event for each status, the first made by the
      lifecycle if the collection was there before. */
  lemma {:induction false} RecordedReads(cs: map<Key, Collection>, ps: seq<Proposal>, day: Day, p: Proposal)
    requires DistinctKeys(ps) && p in ps
    ensures p.key in RecordAll(cs, ps, day)
    ensures var c' := RecordAll(cs, ps, day)[p.key];
            var es := if p.key in cs then cs[p.key].events else [];
            && c'.status == (if p.recommendation == Index then Qualified else Candidate)
            && c'.belowSince == None && c'.emptySince == None
            && |c'.events| == |es| + (if p.recommendation == Index then 2 else 1)
            && c'.events[..|es|] == es
            && c'.events[|es|].status == Candidate && c'.events[|c'.events| - 1].status == c'.status
            && c'.events[|es|].previous == (if p.key in cs then Some(cs[p.key].status) else None)
            && c'.events[|es|].trigger == (if p.key in cs then Lifecycle else System)
            && (p.recommendation == Index ==> c'.events[|es| + 1].trigger == Qualification
                                              && c'.events[|es| + 1].previous == Some(Candidate))
            && forall i :: |es| <= i < |c'.events| ==> c'.events[i].actor == None && c'.events[i].day == day
  {
    RecordAllAt(cs, ps, day, p);
  }

  /** A person's path of moves, each recorded as theirs. */
  function Walked(c: Collection, path: seq<Status>, reason: string, admin: Admin, day: Day): Collection {
    if path == [] then c
    else
      var n := |path| - 1;
      Moved(Walked(c, path[..n], reason, admin, day), path[n], reason, Manual, Some(admin), day)
  }

  /** Every step of every path is one of the allowed transitions. */
  lemma {:induction false} PathStep(a: Action, c: Collection, path: seq<Status>, i: nat, reason: string, admin: Admin, day: Day)
    requires Path(a, c.status) == Some(path) && i < |path| && !Blank(reason)
    ensures MayMove(Walked(c, path[..i], reason, admin, day), path[i], reason, Manual, Some(admin))
  {
    if i == 1 {
      assert path[..1] == [path[0]];
      assert path[..1][..0] == [];
    } else if i == 2 {
      assert path[..2][..1] == path[..1];
      assert path[..1][..0] == [];
    }
  }
}
