/** What every run of the collection registry keeps: the history of statuses, and the streaks
    the nightly lifecycle acts on. */
module CollectionLaws {
  import opened Base
  import opened JobCollections

  // ---------------------------------------------------------------- runs

  datatype Step =
    | Act(action: Action, admin: Admin, reason: string, day: Day)
    | Score(scoring: Scoring)
    | Rediscover(recommendation: Recommendation, day: Day)

  /** A collection, and the scorings recorded since its qualification last started over. */
  datatype World = World(c: Collection, log: seq<Scoring>)

  predicate Enabled(w: World, e: Step) {
    match e
    case Act(a, admin, reason, _) => Path(a, w.c.status).Some? && !Blank(reason)
    case Score(s) => w.c.status != Archived && (w.log != [] ==> w.log[|w.log| - 1].day <= s.day)
                     && (s.openJobs == 0 ==> s.recommendation == BelowBar)
    case Rediscover(r, _) => r != BelowBar && ArchivedByLifecycle(w.c)
  }

  function Apply(w: World, e: Step): World
    requires Enabled(w, e)
  {
    match e
    case Act(a, admin, reason, day) => w.(c := Walked(w.c, Path(a, w.c.status).value, reason, admin, day))
    case Score(s) => World(Scored(w.c, s), w.log + [s])
    case Rediscover(r, day) => World(Discovered(Some(w.c), r, day), [])
  }

  ghost predicate Run(worlds: seq<World>, steps: seq<Step>) {
    && |worlds| == |steps| + 1
    && forall i :: 0 <= i < |steps| ==> Enabled(worlds[i], steps[i]) && worlds[i + 1] == Apply(worlds[i], steps[i])
  }

  /** A collection as create_collection, or discovery, first records it. */
  ghost predicate Starts(w: World) {
    && w.log == []
    && ((exists reason, trigger, actor, day :: MayRecord(Candidate, reason, trigger, actor)
                                               && w.c == Created(reason, trigger, actor, day))
        || (exists r, day :: r != BelowBar && w.c == Discovered(None, r, day)))
  }

  // ---------------------------------------------------------------- the history of statuses

  predicate GoodEvent(e: Event) {
    && !Blank(e.reason)
    && (e.trigger == Manual ==> e.actor.Some?)
    && (ManualOnly(e.status) ==> e.trigger == Manual)
  }

  /** The events are one path through the allowed transitions, from the collection's creation to
      its status, and only a person undoes a person's archive. */
  ghost predicate GoodHistory(c: Collection) {
    var es := c.events;
    && es != []
    && es[0].previous == None && es[0].status == Candidate
    && es[|es| - 1].status == c.status
    && (forall i :: 0 <= i < |es| ==> GoodEvent(es[i]))
    && (forall i :: 0 < i < |es| ==> es[i].previous == Some(es[i - 1].status) && es[i].status in Transitions(es[i - 1].status))
    && (forall i :: 0 < i < |es| && es[i - 1].status == Archived && es[i - 1].trigger == Manual ==> es[i].trigger == Manual)
  }

  lemma {:induction false} StripKeepsContent(s: string)
    requires !Blank(s)
    ensures !Blank(Strip(s))
    decreases |s|
  {
    var i :| 0 <= i < |s| && !Space(s[i]);
    if Space(s[0]) {
      assert s[1..][i - 1] == s[i];
      StripKeepsContent(s[1..]);
    } else if Space(s[|s| - 1]) {
      assert s[..|s| - 1][i] == s[i];
      StripKeepsContent(s[..|s| - 1]);
    }
  }

  lemma {:induction false} MovedHistory(c: Collection, to: Status, reason: string, trigger: Trigger, actor: Option<Admin>, day: Day)
    requires GoodHistory(c) && MayMove(c, to, reason, trigger, actor)
    requires c.status == Archived ==> trigger == Manual || c.events[|c.events| - 1].trigger != Manual
    ensures GoodHistory(Moved(c, to, reason, trigger, actor, day))
  {
    StripKeepsContent(reason);
  }

  lemma {:induction false} WalkedHistory(c: Collection, path: seq<Status>, n: nat, a: Action, reason: string, admin: Admin, day: Day)
    requires GoodHistory(c) && Path(a, c.status) == Some(path) && n <= |path| && !Blank(reason)
    ensures GoodHistory(Walked(c, path[..n], reason, admin, day))
  {
    if n > 0 {
      WalkedHistory(c, path, n - 1, a, reason, admin, day);
      assert path[..n][..n - 1] == path[..n - 1];
      PathStep(a, c, path, n - 1, reason, admin, day);
      MovedHistory(Walked(c, path[..n - 1], reason, admin, day), path[n - 1], reason, Manual, Some(admin), day);
    }
  }

  lemma {:induction false} ScoredHistory(c: Collection, s: Scoring)
    requires GoodHistory(c) && c.status != Archived
    ensures GoodHistory(Scored(c, s))
  {
    var below := Since(c.belowSince, s.day, s.recommendation == BelowBar);
    var empty := Since(c.emptySince, s.day, s.openJobs == 0);
    var change := ChangeFor(c, below, empty, s);
    if change.Some? {
      ReasonsSaySomething();
      MovedHistory(c.(belowSince := below, emptySince := empty), change.value.0, "scored", change.value.1, None, s.day);
    }
  }

  /** What discovery starts from: a new collection, or an archived one back as a candidate. */
  lemma {:induction false} FoundHistory(c: Option<Collection>, day: Day) returns (start: Collection)
    requires c.Some? ==> GoodHistory(c.value) && ArchivedByLifecycle(c.value)
    ensures start == if c.Some? then Moved(c.value, Candidate, "found by discovery again", Lifecycle, None, day)
                     else Created("found by discovery", System, None, day)
    ensures GoodHistory(start) && start.status == Candidate
  {
    ReasonsSaySomething();
    if c.Some? {
      MovedHistory(c.value, Candidate, "found by discovery again", Lifecycle, None, day);
      start := Moved(c.value, Candidate, "found by discovery again", Lifecycle, None, day);
    } else {
      StripKeepsContent("found by discovery");
      start := Created("found by discovery", System, None, day);
    }
  }

  lemma {:induction false} DiscoveredHistory(c: Option<Collection>, r: Recommendation, day: Day)
    requires c.Some? ==> GoodHistory(c.value) && ArchivedByLifecycle(c.value)
    ensures GoodHistory(Discovered(c, r, day))
  {
    var start := FoundHistory(c, day);
    if r == Index {
      ReasonsSaySomething();
      MovedHistory(start, Qualified, "scored", Qualification, None, day);
    }
  }

  lemma {:induction false} RunHistory(worlds: seq<World>, steps: seq<Step>, i: nat)
    requires Run(worlds, steps) && Starts(worlds[0]) && i < |worlds|
    ensures GoodHistory(worlds[i].c)
  {
    if i == 0 {
      var w := worlds[0];
      if reason, trigger, actor, day :| MayRecord(Candidate, reason, trigger, actor) && w.c == Created(reason, trigger, actor, day) {
        StripKeepsContent(reason);
      } else {
        var r, day :| r != BelowBar && w.c == Discovered(None, r, day);
        DiscoveredHistory(None, r, day);
      }
    } else {
      RunHistory(worlds, steps, i - 1);
      var w := worlds[i - 1];
      match steps[i - 1]
      case Act(a, admin, reason, day) =>
        var path := Path(a, w.c.status).value;
        assert path[..|path|] == path;
        WalkedHistory(w.c, path, |path|, a, reason, admin, day);
      case Score(s) => ScoredHistory(w.c, s);
      case Rediscover(r, day) => DiscoveredHistory(Some(w.c), r, day);
    }
  }

  predicate InIndex(s: Status) {
    s == Indexable || s == Performing || s == Declining
  }

  /** A person put it in the index, and it has not left since event i. */
  ghost predicate PutInIndexAt(es: seq<Event>, i: nat) {
    && i < |es| && es[i].status == Indexable && es[i].trigger == Manual && es[i].actor.Some?
    && forall j :: i <= j < |es| ==> InIndex(es[j].status)
  }

  lemma {:induction false} SomeoneIndexedIt(c: Collection, es: seq<Event>, n: nat) returns (i: nat)
    requires GoodHistory(c) && es == c.events && 0 < n <= |es| && InIndex(es[n - 1].status)
    ensures PutInIndexAt(es[..n], i)
  {
    if es[n - 1].status == Indexable {
      assert GoodEvent(es[n - 1]);
      i := n - 1;
    } else {
      assert es[n - 1].status in Transitions(es[n - 2].status);
      i := SomeoneIndexedIt(c, es, n - 1);
      forall j | i <= j < n
        ensures InIndex(es[..n][j].status)
      {
        if j < n - 1 {
          assert es[..n][j] == es[..n - 1][j];
        }
      }
      assert es[..n][i] == es[..n - 1][i];
    }
  }

  /** Each status was entered from one it may follow, and published or put in the index by hand. */
  ghost predicate AllowedAndManual(es: seq<Event>) {
    && (forall k :: 0 < k < |es| ==> MayFollow(es[k - 1].status, es[k].status))
    && (forall k :: 0 <= k < |es| && es[k].status in {Published, Indexable} ==> es[k].trigger == Manual && es[k].actor.Some?)
  }

  lemma {:induction false} GoodIsAllowed(c: Collection)
    requires GoodHistory(c)
    ensures AllowedAndManual(c.events)
  {
    forall k | 0 <= k < |c.events| && c.events[k].status in {Published, Indexable}
      ensures c.events[k].trigger == Manual && c.events[k].actor.Some?
    {
      assert GoodEvent(c.events[k]);
    }
  }

  /** In every run: a connected path of allowed moves ending at the status, each with a reason and
      each manual one with its admin; whatever is in the index was put there by a person since it
      last entered; and only a person undoes a person's archive. */
  lemma {:induction false} EveryRunIsAccountable(worlds: seq<World>, steps: seq<Step>, i: nat)
    requires Run(worlds, steps) && Starts(worlds[0]) && i < |worlds|
    ensures GoodHistory(worlds[i].c)
    ensures AllowedAndManual(worlds[i].c.events)
    ensures InIndex(worlds[i].c.status) ==> exists k: nat :: PutInIndexAt(worlds[i].c.events, k)
  {
    RunHistory(worlds, steps, i);
    var c := worlds[i].c;
    GoodIsAllowed(c);
    if InIndex(c.status) {
      var k := SomeoneIndexedIt(c, c.events, |c.events|);
      assert c.events[..|c.events|] == c.events;
    }
  }

  /** The i-th move of a person's path, as recorded. */
  ghost predicate RecordsMove(c: Collection, c': Collection, path: seq<Status>, i: nat, reason: string, admin: Admin, day: Day) {
    && i < |path| && |c.events| + i < |c'.events|
    && c'.events[|c.events| + i] ==
       Event(Some(if i == 0 then c.status else path[i - 1]), path[i], Manual, Strip(reason), Some(admin), day)
  }

  /** A completed admin action ends where its path ends, and each of its moves is the admin's. */
  lemma {:induction false} ActionRecordsItself(c: Collection, path: seq<Status>, reason: string, admin: Admin, day: Day)
    ensures var c' := Walked(c, path, reason, admin, day);
            && c'.status == (if path == [] then c.status else path[|path| - 1])
            && |c'.events| == |c.events| + |path| && c'.events[..|c.events|] == c.events
            && c'.belowSince == c.belowSince && c'.emptySince == c.emptySince
            && forall i: nat :: i < |path| ==> RecordsMove(c, c', path, i, reason, admin, day)
  {
    if path != [] {
      var n := |path| - 1;
      ActionRecordsItself(c, path[..n], reason, admin, day);
      var before, c' := Walked(c, path[..n], reason, admin, day), Walked(c, path, reason, admin, day);
      forall i: nat | i < |path|
        ensures RecordsMove(c, c', path, i, reason, admin, day)
      {
        if i < n {
          assert RecordsMove(c, before, path[..n], i, reason, admin, day);
        }
      }
    }
  }

  // ---------------------------------------------------------------- streaks

  predicate Low(s: Scoring) {
    s.recommendation == BelowBar
  }

  predicate Bare(s: Scoring) {
    s.openJobs == 0
  }

  /** The unbroken run of scorings with property p that ends the log starts at index k. */
  ghost predicate StreakFrom(log: seq<Scoring>, p: Scoring -> bool, k: nat) {
    && k < |log|
    && (forall j :: k <= j < |log| ==> p(log[j]))
    && (k > 0 ==> !p(log[k - 1]))
  }

  /** `since` is the first date of the log's current streak, or nothing when there is none. */
  ghost predicate StreakSince(log: seq<Scoring>, p: Scoring -> bool, since: Option<Day>) {
    if log == [] || !p(log[|log| - 1]) then since.None?
    else since.Some? && exists k: nat :: StreakFrom(log, p, k) && log[k].day == since.value
  }

  lemma {:induction false} StreakGrows(log: seq<Scoring>, p: Scoring -> bool, since: Option<Day>, s: Scoring)
    requires StreakSince(log, p, since)
    ensures StreakSince(log + [s], p, Since(since, s.day, p(s)))
  {
    var log' := log + [s];
    if p(s) {
      if log != [] && p(log[|log| - 1]) {
        var k: nat :| StreakFrom(log, p, k) && log[k].day == since.value;
        assert StreakFrom(log', p, k);
      } else {
        assert StreakFrom(log', p, |log|);
      }
    }
  }

  ghost predicate Ordered(log: seq<Scoring>) {
    forall i, j :: 0 <= i < j < |log| ==> log[i].day <= log[j].day
  }

  ghost predicate Streaks(w: World) {
    && StreakSince(w.log, s => Low(s), w.c.belowSince)
    && StreakSince(w.log, s => Bare(s), w.c.emptySince)
    && Ordered(w.log)
    && forall i :: 0 <= i < |w.log| && Bare(w.log[i]) ==> Low(w.log[i])
  }

  lemma {:induction false} ScoredDates(c: Collection, s: Scoring)
    ensures Scored(c, s).belowSince == Since(c.belowSince, s.day, Low(s))
    ensures Scored(c, s).emptySince == Since(c.emptySince, s.day, Bare(s))
  {
  }

  /** below_bar_since and empty_since are the first dates of the current streaks. */
  lemma {:induction false} RunStreaks(worlds: seq<World>, steps: seq<Step>, i: nat)
    requires Run(worlds, steps) && Starts(worlds[0]) && i < |worlds|
    ensures Streaks(worlds[i])
  {
    if i > 0 {
      RunStreaks(worlds, steps, i - 1);
      var w := worlds[i - 1];
      match steps[i - 1]
      case Act(a, admin, reason, day) =>
        ActionRecordsItself(w.c, Path(a, w.c.status).value, reason, admin, day);
      case Score(s) =>
        ScoredDates(w.c, s);
        StreakGrows(w.log, x => Low(x), w.c.belowSince, s);
        StreakGrows(w.log, x => Bare(x), w.c.emptySince, s);
      case Rediscover(r, day) =>
    }
  }

  /** A streak of what holds whenever p does started no later than p's. */
  lemma {:induction false} WiderStreakStartsFirst(log: seq<Scoring>, p: Scoring -> bool, k: nat, q: Scoring -> bool, b: nat)
    requires StreakFrom(log, p, k) && StreakFrom(log, q, b)
    requires forall j :: 0 <= j < |log| && p(log[j]) ==> q(log[j])
    ensures b <= k
  {
    if b > 0 {
      var j := b - 1;
      assert !q(log[j]);
    }
  }

  /** Every empty streak lies inside a below-bar streak. */
  lemma {:induction false} EmptyWithinBelow(worlds: seq<World>, steps: seq<Step>, i: nat)
    requires Run(worlds, steps) && Starts(worlds[0]) && i < |worlds|
    ensures var c := worlds[i].c;
            c.emptySince.Some? ==> c.belowSince.Some? && c.belowSince.value <= c.emptySince.value
  {
    RunStreaks(worlds, steps, i);
    var w := worlds[i];
    if w.c.emptySince.Some? {
      var k: nat :| StreakFrom(w.log, s => Bare(s), k) && w.log[k].day == w.c.emptySince.value;
      var b: nat :| StreakFrom(w.log, s => Low(s), b) && w.log[b].day == w.c.belowSince.value;
      WiderStreakStartsFirst(w.log, s => Bare(s), k, s => Low(s), b);
    }
  }

  /** The log has ended in scorings without an open job since index k. */
  ghost predicate EmptyFrom(log: seq<Scoring>, k: nat) {
    k < |log| && (forall j :: k <= j < |log| ==> log[j].openJobs == 0) && (k > 0 ==> log[k - 1].openJobs != 0)
  }

  /** The log has ended in scorings below the bar since index k. */
  ghost predicate BelowFrom(log: seq<Scoring>, k: nat) {
    k < |log| && (forall j :: k <= j < |log| ==> log[j].recommendation == BelowBar) && (k > 0 ==> log[k - 1].recommendation != BelowBar)
  }

  /** A person put the collection in the index on or after a day. */
  predicate PutInIndexSince(es: seq<Event>, day: Day) {
    exists i :: 0 <= i < |es| && es[i].status == Indexable && es[i].trigger == Manual && es[i].day >= day
  }

  /** Exactly when a nightly scoring takes a collection out of the index or archives it: after 3
      days below the bar that no approval since their first day stands over, or after 14 days
      empty. */
  lemma {:induction false} AutomaticRemoval(worlds: seq<World>, steps: seq<Step>, i: nat)
    requires Run(worlds, steps) && Starts(worlds[0]) && i < |steps| && steps[i].Score?
    ensures var w, w', s := worlds[i], worlds[i + 1], steps[i].scoring;
            && (w'.c.status == Archived <==> exists k: nat :: EmptyFrom(w'.log, k) && s.day - w'.log[k].day >= 14)
            && (w'.c.status == Noindex && w.c.status != Noindex <==>
                  && w.c.status in {Published, Indexable, Performing, Declining} && w'.c.status != Archived
                  && exists k: nat :: BelowFrom(w'.log, k) && s.day - w'.log[k].day >= 3
                                      && !PutInIndexSince(w.c.events, w'.log[k].day))
  {
    var w, w', s := worlds[i], worlds[i + 1], steps[i].scoring;
    RunStreaks(worlds, steps, i + 1);
    SameStreaks(w'.log);
    OneStreak(w'.log, x => Bare(x));
    OneStreak(w'.log, x => Low(x));
    RemovalOnDates(w.c, s);
  }

  /** The rule, in terms of the two dates the scoring leaves. */
  lemma {:induction false} RemovalOnDates(c: Collection, s: Scoring)
    requires c.status != Archived
    ensures var c' := Scored(c, s);
            && (c'.status == Archived <==> c'.emptySince.Some? && s.day - c'.emptySince.value >= 14)
            && (c'.status == Noindex && c.status != Noindex <==>
                  && c.status in {Published, Indexable, Performing, Declining} && c'.status != Archived
                  && c'.belowSince.Some? && s.day - c'.belowSince.value >= 3
                  && !PutInIndexSince(c.events, c'.belowSince.value))
  {
    assert forall since: Day :: ApprovedSince(c.events, since) <==> PutInIndexSince(c.events, since);
  }

  lemma {:induction false} SameStreaks(log: seq<Scoring>)
    ensures forall k: nat :: EmptyFrom(log, k) <==> StreakFrom(log, x => Bare(x), k)
    ensures forall k: nat :: BelowFrom(log, k) <==> StreakFrom(log, x => Low(x), k)
  {
  }

  /** The other moves a scoring makes. A qualified collection that no longer earns an index is a
      candidate again, and a candidate that earns one is qualified, unless the scoring archives it;
      a published one is never changed but by removal. A move is one more event, by the system;
      without one the history stays as it was. */
  lemma {:induction false} ScoringMoves(w: World, s: Scoring)
    requires Enabled(w, Score(s))
    ensures var c, c' := w.c, Apply(w, Score(s)).c;
            && (c.status == Qualified && c'.status == Candidate <==>
                  c.status == Qualified && c'.status != Archived && s.recommendation != Index)
            && (c.status == Candidate && c'.status == Qualified <==>
                  c.status == Candidate && c'.status != Archived && s.recommendation == Index)
            && (c'.status != c.status ==>
                  || c'.status in {Archived, Noindex}
                  || (c.status == Qualified && c'.status == Candidate) || (c.status == Candidate && c'.status == Qualified))
            && (c'.status == c.status ==> c'.events == c.events)
            && (c'.status != c.status ==>
                  && |c'.events| == |c.events| + 1 && c'.events[..|c.events|] == c.events
                  && var e := c'.events[|c.events|];
                     && e.previous == Some(c.status) && e.status == c'.status && e.actor == None && e.day == s.day
                     && e.trigger == (if c'.status in {Archived, Noindex} then Lifecycle else Qualification))
  {
  }

  lemma {:induction false} OneStreak(log: seq<Scoring>, p: Scoring -> bool)
    ensures forall k: nat, l: nat :: StreakFrom(log, p, k) && StreakFrom(log, p, l) ==> k == l
  {
    forall k: nat, l: nat | StreakFrom(log, p, k) && StreakFrom(log, p, l)
      ensures k == l
    {
    }
  }

  /** Events are only ever added. */
  lemma {:induction false} EventsGrow(worlds: seq<World>, steps: seq<Step>, i: nat, j: nat)
    requires Run(worlds, steps) && i <= j < |worlds|
    ensures |worlds[i].c.events| <= |worlds[j].c.events|
    ensures worlds[j].c.events[..|worlds[i].c.events|] == worlds[i].c.events
  {
    if i < j {
      EventsGrow(worlds, steps, i, j - 1);
      var w := worlds[j - 1];
      if steps[j - 1].Act? {
        ActionRecordsItself(w.c, Path(steps[j - 1].action, w.c.status).value, steps[j - 1].reason, steps[j - 1].admin, steps[j - 1].day);
      }
    }
  }

  /** While the scorings from world i on are all below the bar, the streak's first date stays. */
  lemma {:induction false} StreakDateStays(worlds: seq<World>, steps: seq<Step>, i: nat, j: nat)
    requires Run(worlds, steps) && i <= j < |worlds| && worlds[i].c.belowSince.Some?
    requires forall n :: i <= n < j ==> !steps[n].Rediscover? && (steps[n].Score? ==> Low(steps[n].scoring))
    ensures worlds[j].c.belowSince == worlds[i].c.belowSince
  {
    if i < j {
      StreakDateStays(worlds, steps, i, j - 1);
      var w := worlds[j - 1];
      match steps[j - 1]
      case Act(a, admin, reason, day) => ActionRecordsItself(w.c, Path(a, w.c.status).value, reason, admin, day);
      case Score(s) => ScoredDates(w.c, s);
    }
  }

  /** A person's approval during a below-bar streak stands for the rest of the streak: no scoring
      in it takes the collection out of the index. */
  lemma {:induction false} ApprovalStandsForTheStreak(worlds: seq<World>, steps: seq<Step>, i: nat, j: nat)
    requires Run(worlds, steps) && Starts(worlds[0]) && i <= j < |steps|
    requires worlds[i].c.belowSince.Some? && ApprovedSince(worlds[i].c.events, worlds[i].c.belowSince.value)
    requires forall n :: i <= n <= j ==> !steps[n].Rediscover? && (steps[n].Score? ==> Low(steps[n].scoring))
    requires steps[j].Score? && worlds[j].c.status != Noindex
    ensures worlds[j + 1].c.status != Noindex
  {
    StreakDateStays(worlds, steps, i, j);
    EventsGrow(worlds, steps, i, j);
    var since := worlds[i].c.belowSince.value;
    var es := worlds[i].c.events;
    var k :| 0 <= k < |es| && es[k].trigger == Manual && es[k].status == Indexable && es[k].day >= since;
    assert worlds[j].c.events[..|es|][k] == es[k];
    assert ApprovedSince(worlds[j].c.events, since);
  }

  /** No scoring and no discovery puts a collection live or in the index. */
  lemma {:induction false} OnlyPeoplePublish(w: World, e: Step)
    requires Enabled(w, e) && !e.Act?
    ensures ManualOnly(Apply(w, e).c.status) ==> Apply(w, e).c.status == w.c.status
  {
  }
}
