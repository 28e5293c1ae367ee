/** Crash transparency of app/services/auto_score.py:152-285: whatever deliveries died where,
    a run that ends, ends as if it had never been interrupted. */
module AutoScoreLaws {
  import opened Base
  import opened AutoScore

  // ---------------------------------------------------------------- the uninterrupted answer

  datatype Verdict = Verdict(
    status: Status, score: Option<int>, tailored: Option<int>, tailoredScore: Option<int>,
    best: Option<int>, app: Option<App>)

  function VerdictOf(w: World): Verdict {
    Verdict(w.run.status, w.run.score, w.run.tailored, w.run.tailoredScore, w.run.best, w.app)
  }

  function Picked(a: App, resume: int): App {
    a.(selected := if a.selected.Some? then a.selected else Some(resume))
  }

  /** The application a finished run saves: the user's own one, or a new one that starts archived
      when the first score is too low. */
  function BaseApp(o: Answers, app0: Option<App>, score: int): App {
    if app0.Some? then app0.value else o.linked.(archived := score < TAILOR_THRESHOLD, selected := None, ready := false)
  }

  /** What the run comes to, read off the stages' answers alone: no time, no crashes, no order. */
  function Expected(o: Answers, resume: int, app0: Option<App>): Verdict {
    if o.score.None? then Verdict(Failed, None, None, None, None, app0)
    else
      var s := o.score.value;
      var app := Picked(BaseApp(o, app0, s), resume).(score := Some(s));
      if s < TAILOR_THRESHOLD then Verdict(BelowThreshold, Some(s), None, None, Some(s), Some(app))
      else if o.tailored.None? then Verdict(Failed, Some(s), None, None, None, Stamped(app0, Score, s))
      else if o.tailoredScore.None? then
        Verdict(Failed, Some(s), o.tailored, None, None, Stamped(Stamped(app0, Score, s), Tailor, o.tailored.value))
      else
        var best := Max(s, o.tailoredScore.value);
        var app := app.(tailored := o.tailored, tailoredScore := o.tailoredScore, ready := best >= READY_THRESHOLD);
        Verdict(if best >= READY_THRESHOLD then Ready else NotReady, Some(s), o.tailored, o.tailoredScore, Some(best), Some(app))
  }

  // ---------------------------------------------------------------- what every crash leaves behind

  /** The pointers an existing application carries while the run is in progress. */
  function StampedSoFar(app0: Option<App>, r: Run): Option<App> {
    var a1 := if r.score.Some? then Stamped(app0, Score, r.score.value) else app0;
    var a2 := if r.tailored.Some? then Stamped(a1, Tailor, r.tailored.value) else a1;
    if r.tailoredScore.Some? then Stamped(a2, ScoreAgain, r.tailoredScore.value) else a2
  }

  predicate Passed(r: Run) {
    r.score.Some? && r.score.value >= TAILOR_THRESHOLD
  }

  /** The results committed so far are a prefix of the answers, and the status fits them. */
  predicate InProgress(o: Answers, app0: Option<App>, w: World) {
    var r := w.run;
    && r.best.None?
    && (r.score.Some? ==> r.score == o.score)
    && (r.tailored.Some? ==> r.tailored == o.tailored && Passed(r))
    && (r.tailoredScore.Some? ==> r.tailoredScore == o.tailoredScore && r.tailored.Some?)
    && (r.status == Queued ==> r.score.None?)
    && (r.status == Scoring ==> r.tailored.None?)
    && (r.status == Tailoring ==> Passed(r) && r.tailoredScore.None?)
    && (r.status == ScoringTailored ==> r.tailored.Some?)
    && w.app == StampedSoFar(app0, r)
  }

  predicate Good(o: Answers, resume: int, app0: Option<App>, w: World) {
    && w.run.resume == resume
    && (if Active(w.run.status) then InProgress(o, app0, w) else VerdictOf(w) == Expected(o, resume, app0))
    && AllAccounted(w)
  }

  /** A stage has an outcome: its result, or the failure that ended the run. */
  predicate Settled(r: Run, g: Stage) {
    || ResultOf(r, g).Some?
    || (r.status == Failed && (g == Tailor ==> r.score.Some?) && (g == ScoreAgain ==> r.tailored.Some?))
  }

  /** The LLM was called for a stage once per outcome, plus once per crash inside it. */
  predicate Accounted(w: World, g: Stage) {
    Count(w.calls, g) == Count(w.lost, g) + if Settled(w.run, g) then 1 else 0
  }

  predicate AllAccounted(w: World) {
    Accounted(w, Score) && Accounted(w, Tailor) && Accounted(w, ScoreAgain)
  }

  /** The same, while stage g's call is out. */
  predicate Calling(w: World, g: Stage) {
    && Count(w.calls, g) == Count(w.lost, g) + 1
    && (g != Score ==> Accounted(w, Score)) && (g != Tailor ==> Accounted(w, Tailor))
    && (g != ScoreAgain ==> Accounted(w, ScoreAgain))
  }

  predicate Due(r: Run, g: Stage) {
    && ResultOf(r, g).None?
    && (g == Tailor ==> Passed(r))
    && (g == ScoreAgain ==> r.tailored.Some?)
  }

  /** Stage g's call is out and has not been accounted for. */
  predicate AtCall(o: Answers, resume: int, app0: Option<App>, w: World, g: Stage) {
    && w.alive && w.run.resume == resume && InProgress(o, app0, w) && w.run.status == StatusOf(g) && Due(w.run, g)
    && Calling(w, g)
  }

  lemma {:induction false} OutcomeAccounted(o: Answers, resume: int, app0: Option<App>, w: World, g: Stage)
    requires AtCall(o, resume, app0, w, g)
    ensures AllAccounted(CommitOutcome(o, w, g))
  {
    assert !Settled(w.run, g);
  }

  lemma {:induction false} FailureGood(o: Answers, resume: int, app0: Option<App>, w: World, g: Stage)
    requires AtCall(o, resume, app0, w, g) && Answer(o, g).None?
    ensures Good(o, resume, app0, CommitOutcome(o, w, g))
  {
    OutcomeAccounted(o, resume, app0, w, g);
  }

  lemma {:induction false} ResultGood(o: Answers, resume: int, app0: Option<App>, w: World, g: Stage)
    requires AtCall(o, resume, app0, w, g) && Answer(o, g).Some?
    ensures Good(o, resume, app0, CommitOutcome(o, w, g))
  {
    OutcomeAccounted(o, resume, app0, w, g);
  }

  lemma {:induction false} OutcomeGood(o: Answers, resume: int, app0: Option<App>, w: World, g: Stage)
    requires AtCall(o, resume, app0, w, g)
    ensures Good(o, resume, app0, CommitOutcome(o, w, g))
  {
    if Answer(o, g).None? {
      FailureGood(o, resume, app0, w, g);
    } else {
      ResultGood(o, resume, app0, w, g);
    }
  }

  /** Marking a stage's status, and then calling its LLM, keep the invariant. */
  lemma {:induction false} MarkGood(o: Answers, resume: int, app0: Option<App>, w: World, g: Stage)
    requires Good(o, resume, app0, w) && Going(w) && ResultOf(w.run, g).None? && Due(w.run, g)
    ensures var w1 := SetStatus(w, StatusOf(g));
            Good(o, resume, app0, w1) && (w1.alive ==> w1.run.status == StatusOf(g) && Due(w1.run, g))
  {
  }

  lemma {:induction false} CallGood(o: Answers, resume: int, app0: Option<App>, w: World, g: Stage)
    requires Good(o, resume, app0, w) && w.alive && w.run.status == StatusOf(g) && Due(w.run, g)
    ensures var w2 := CallLlm(w, g);
            if w2.alive then w2.run == w.run && InProgress(o, app0, w2) && Calling(w2, g) else Good(o, resume, app0, w2)
  {
    assert !Settled(w.run, g);
  }

  lemma {:induction false} StageGood(o: Answers, resume: int, app0: Option<App>, w: World, g: Stage)
    requires Good(o, resume, app0, w) && Going(w) && (ResultOf(w.run, g).None? ==> Due(w.run, g))
    ensures Good(o, resume, app0, DoStage(o, w, g))
  {
    if ResultOf(w.run, g).None? {
      var w1 := SetStatus(w, StatusOf(g));
      MarkGood(o, resume, app0, w, g);
      if w1.alive {
        CallGood(o, resume, app0, w1, g);
        if CallLlm(w1, g).alive {
          OutcomeGood(o, resume, app0, CallLlm(w1, g), g);
        }
      }
    }
  }

  lemma {:induction false} ConcludeGood(o: Answers, resume: int, app0: Option<App>, w: World)
    requires Good(o, resume, app0, w) && Going(w) && w.run.score.Some?
    requires Passed(w.run) ==> w.run.tailored.Some? && w.run.tailoredScore.Some?
    ensures Good(o, resume, app0, Conclude(o, w))
  {
    var t := Conclude(o, w);
    if Active(t.run.status) {
      assert InProgress(o, app0, t);
    } else {
      assert VerdictOf(t) == Expected(o, resume, app0);
    }
  }

  lemma {:induction false} StagesGood(o: Answers, resume: int, app0: Option<App>, w: World)
    requires Good(o, resume, app0, w) && Going(w)
    ensures Good(o, resume, app0, Stages(o, w))
  {
    StageGood(o, resume, app0, w, Score);
    StageGives(o, w, Score);
    var w1 := DoStage(o, w, Score);
    if Going(w1) {
      if w1.run.score.value < TAILOR_THRESHOLD {
        ConcludeGood(o, resume, app0, w1);
      } else {
        StageGood(o, resume, app0, w1, Tailor);
        StageGives(o, w1, Tailor);
        var w2 := DoStage(o, w1, Tailor);
        StageGives(o, w2, ScoreAgain);
        if Going(w2) {
          StageGood(o, resume, app0, w2, ScoreAgain);
          var w3 := DoStage(o, w2, ScoreAgain);
          if Going(w3) {
            ConcludeGood(o, resume, app0, w3);
          }
        }
      }
    }
  }

  // ---------------------------------------------------------------- deliveries

  /** A message reaches a worker `delays` can keep alive. */
  function Arrive(w: World, at: int, delays: seq<nat>): World {
    w.(now := at, delays := delays, alive := true)
  }

  /** A delivery brings its own answers: an LLM asked again need not repeat itself, and the earlier
      results a new application is linked to may have changed. */
  datatype Delivery = Delivery(at: int, delays: seq<nat>, answers: Answers)

  /** A run and the deliveries it has had, one after another, none of them past the stale limit. */
  ghost predicate History(worlds: seq<World>, ds: seq<Delivery>) {
    && |worlds| == |ds| + 1
    && forall i :: 0 <= i < |ds| ==>
         && worlds[i].now <= ds[i].at
         && !IsStale(Arrive(worlds[i], ds[i].at, ds[i].delays))
         && worlds[i + 1] == Deliver(ds[i].answers, Arrive(worlds[i], ds[i].at, ds[i].delays))
  }

  predicate JustQueued(w: World, resume: int, app0: Option<App>) {
    && w.run == Run(Queued, resume, w.run.createdAt, w.run.updatedAt, None, None, None, None)
    && w.app == app0 && w.calls == Counts(0, 0, 0) && w.lost == Counts(0, 0, 0)
  }

  // ---------------------------------------------------------------- the answers that were kept

  /** The kept answers after a delivery: its own for the stages whose outcome it committed, and its
      linked results if it ended the run. */
  function KeptNext(k: Answers, o: Answers, before: Run, after: Run): Answers {
    Answers(
      if Settled(after, Score) && !Settled(before, Score) then o.score else k.score,
      if Settled(after, Tailor) && !Settled(before, Tailor) then o.tailored else k.tailored,
      if Settled(after, ScoreAgain) && !Settled(before, ScoreAgain) then o.tailoredScore else k.tailoredScore,
      if Active(before.status) && !Active(after.status) then o.linked else k.linked)
  }

  /** Each stage's answer in the delivery that committed its outcome. `start` fills in for stages
      without one yet and can be anything. */
  function Kept(start: Answers, worlds: seq<World>, ds: seq<Delivery>, i: nat): Answers
    requires |worlds| == |ds| + 1 && i < |worlds|
  {
    if i == 0 then start
    else KeptNext(Kept(start, worlds, ds, i - 1), ds[i - 1].answers, worlds[i - 1].run, worlds[i].run)
  }

  /** What a delivery goes by: the kept answers where there is a result, its own elsewhere. */
  function Mix(k: Answers, o: Answers, r: Run): Answers {
    Answers(if r.score.Some? then k.score else o.score, if r.tailored.Some? then k.tailored else o.tailored,
            if r.tailoredScore.Some? then k.tailoredScore else o.tailoredScore, o.linked)
  }

  lemma {:induction false} OtherResultsStay(o: Answers, w: World, g: Stage, x: Stage)
    requires g != x
    ensures ResultOf(DoStage(o, w, g).run, x) == ResultOf(w.run, x)
  {
  }

  lemma {:induction false} SameStage(o: Answers, m: Answers, w: World, g: Stage)
    requires ResultOf(w.run, g).None? ==> Answer(o, g) == Answer(m, g)
    ensures DoStage(o, w, g) == DoStage(m, w, g)
  {
  }

  lemma {:induction false} SameDelivery(k: Answers, o: Answers, w: World)
    ensures Deliver(o, w) == Deliver(Mix(k, o, w.run), w)
  {
    var m := Mix(k, o, w.run);
    SameStage(o, m, w, Score);
    var w1 := DoStage(o, w, Score);
    OtherResultsStay(o, w, Score, Tailor);
    OtherResultsStay(o, w, Score, ScoreAgain);
    SameStage(o, m, w1, Tailor);
    var w2 := DoStage(o, w1, Tailor);
    OtherResultsStay(o, w1, Tailor, ScoreAgain);
    SameStage(o, m, w2, ScoreAgain);
    SameConclusion(o, m, w1);
    SameConclusion(o, m, DoStage(o, w2, ScoreAgain));
  }

  lemma {:induction false} SameConclusion(o: Answers, m: Answers, w: World)
    requires o.linked == m.linked
    ensures Conclude(o, w) == Conclude(m, w)
  {
  }

  lemma {:induction false} MixGood(k: Answers, o: Answers, resume: int, app0: Option<App>, w: World)
    requires Good(k, resume, app0, w) && Active(w.run.status)
    ensures Good(Mix(k, o, w.run), resume, app0, w)
  {
  }

  lemma {:induction false} StagesKeepResults(o: Answers, w: World, x: Stage)
    requires ResultOf(w.run, x).Some?
    ensures ResultOf(Stages(o, w).run, x).Some?
  {
    StageGives(o, w, Score);
    var w1 := DoStage(o, w, Score);
    StageGives(o, w1, Tailor);
    StageGives(o, DoStage(o, w1, Tailor), ScoreAgain);
  }

  /** An ended run's verdict does not depend on the answers of stages that had no outcome. */
  lemma {:induction false} KeptGood(k: Answers, o: Answers, resume: int, app0: Option<App>, w: World, after: World)
    requires Active(w.run.status) && Good(Mix(k, o, w.run), resume, app0, after)
    requires forall x :: ResultOf(w.run, x).Some? ==> ResultOf(after.run, x).Some?
    ensures Good(KeptNext(k, o, w.run, after.run), resume, app0, after)
  {
    var m, n := Mix(k, o, w.run), KeptNext(k, o, w.run, after.run);
    assert Settled(after.run, Score) ==> n.score == m.score;
    assert Settled(after.run, Tailor) ==> n.tailored == m.tailored;
    assert Settled(after.run, ScoreAgain) ==> n.tailoredScore == m.tailoredScore;
    if !Active(after.run.status) {
      assert n.linked == m.linked;
      SameExpectation(m, n, resume, app0, after);
    }
  }

  lemma {:induction false} SameExpectation(m: Answers, n: Answers, resume: int, app0: Option<App>, w: World)
    requires VerdictOf(w) == Expected(m, resume, app0) && m.linked == n.linked
    requires Settled(w.run, Score) ==> n.score == m.score
    requires Settled(w.run, Tailor) ==> n.tailored == m.tailored
    requires Settled(w.run, ScoreAgain) ==> n.tailoredScore == m.tailoredScore
    ensures Expected(n, resume, app0) == Expected(m, resume, app0)
  {
  }

  /** One delivery, dead or alive, keeps the invariant for the answers kept so far. */
  lemma {:induction false} DeliveryGood(k: Answers, o: Answers, resume: int, app0: Option<App>, w: World)
    requires Good(k, resume, app0, w) && !IsStale(w) && w.alive
    ensures Good(KeptNext(k, o, w.run, Deliver(o, w).run), resume, app0, Deliver(o, w))
  {
    if TakesUp(w) {
      var m := Mix(k, o, w.run);
      MixGood(k, o, resume, app0, w);
      StagesGood(m, resume, app0, w);
      SameDelivery(k, o, w);
      forall x | ResultOf(w.run, x).Some?
        ensures ResultOf(Deliver(o, w).run, x).Some?
      {
        StagesKeepResults(m, w, x);
      }
      KeptGood(k, o, resume, app0, w, Deliver(o, w));
    } else {
      assert KeptNext(k, o, w.run, w.run) == k;
    }
  }

  /** Every crash leaves the run resumable: its committed results are the kept answers, an existing
      application carries exactly those, and each stage has called the LLM once per outcome plus
      once per crash inside it. */
  lemma {:induction false} HistoryGood(
    start: Answers, resume: int, app0: Option<App>, worlds: seq<World>, ds: seq<Delivery>, i: nat)
    requires History(worlds, ds) && i < |worlds| && JustQueued(worlds[0], resume, app0)
    ensures Good(Kept(start, worlds, ds, i), resume, app0, worlds[i])
  {
    if i == 0 {
      assert AllAccounted(worlds[0]);
    } else {
      HistoryGood(start, resume, app0, worlds, ds, i - 1);
      var k, w := Kept(start, worlds, ds, i - 1), Arrive(worlds[i - 1], ds[i - 1].at, ds[i - 1].delays);
      assert Good(k, resume, app0, w);
      DeliveryGood(k, ds[i - 1].answers, resume, app0, w);
    }
  }

  lemma {:induction false} StageLasts(o: Answers, w: World, g: Stage)
    requires Going(w) && |w.delays| >= 3
    ensures DoStage(o, w, g).alive && |DoStage(o, w, g).delays| >= |w.delays| - 3
  {
  }

  /** A delivery that takes the run up and lives long enough ends it. */
  lemma {:induction false} LivingDeliveryEnds(o: Answers, w: World)
    requires TakesUp(w) && w.alive && |w.delays| >= 10
    ensures !Active(Deliver(o, w).run.status)
  {
    StageLasts(o, w, Score);
    StageGives(o, w, Score);
    var w1 := DoStage(o, w, Score);
    if Going(w1) && w1.run.score.value >= TAILOR_THRESHOLD {
      StageLasts(o, w1, Tailor);
      StageGives(o, w1, Tailor);
      var w2 := DoStage(o, w1, Tailor);
      StageGives(o, w2, ScoreAgain);
      if Going(w2) {
        StageLasts(o, w2, ScoreAgain);
      }
    }
  }

  /** Crash transparency. Whatever deliveries died where, and whatever the LLM answered each of
      them: one that arrives with the lease over and lives ends the run; one within a live lease, or
      after the end, changes nothing and calls nothing; and a run that has ended stands exactly as an
      uninterrupted one given the answers that were kept, status, scores, best score and application. */
  lemma {:induction false} CrashTransparency(
    start: Answers, resume: int, app0: Option<App>, worlds: seq<World>, ds: seq<Delivery>, i: nat)
    requires History(worlds, ds) && i < |ds| && JustQueued(worlds[0], resume, app0)
    ensures var w := Arrive(worlds[i], ds[i].at, ds[i].delays);
            && (TakesUp(w) && |ds[i].delays| >= 10 ==> !Active(worlds[i + 1].run.status))
            && (!TakesUp(w) ==> worlds[i + 1] == w)
    ensures !Active(worlds[i + 1].run.status) ==>
              VerdictOf(worlds[i + 1]) == Expected(Kept(start, worlds, ds, i + 1), resume, app0)
    ensures AllAccounted(worlds[i + 1])
  {
    var w := Arrive(worlds[i], ds[i].at, ds[i].delays);
    HistoryGood(start, resume, app0, worlds, ds, i + 1);
    if TakesUp(w) && |ds[i].delays| >= 10 {
      LivingDeliveryEnds(ds[i].answers, w);
    }
  }

  // ---------------------------------------------------------------- in the row's own columns

  /** How an ended run reads, whatever deaths and retries it had: each status from the scores, the
      best score as the greater of the two there are, and the user's application with this run's
      results, marked ready by a score of 85 and, when new, archived below 75. */
  ghost predicate ReadsRight(r: Run, app: Option<App>, app0: Option<App>, linked: App) {
    && (r.status == BelowThreshold <==> r.score.Some? && r.score.value < 75)
    && (r.status == Failed <==> r.score.None? || (r.score.value >= 75 && r.tailoredScore.None?))
    && (r.status == Ready <==> r.score.Some? && r.tailoredScore.Some? && r.score.value >= 75
                               && (r.score.value >= 85 || r.tailoredScore.value >= 85))
    && (r.status == NotReady <==> r.score.Some? && r.tailoredScore.Some? && 75 <= r.score.value < 85
                                  && r.tailoredScore.value < 85)
    && (r.status == Failed ==> r.best.None?)
    && (r.status == BelowThreshold ==> r.best == r.score && r.tailored.None? && r.tailoredScore.None?)
    && (r.status == Ready || r.status == NotReady ==>
          && r.best.Some? && r.best.value in {r.score.value, r.tailoredScore.value}
          && r.best.value >= r.score.value && r.best.value >= r.tailoredScore.value)
    && (r.status == Failed ==> CarriesResults(r, app, app0))
    && (r.status != Failed ==> app.Some? && SavedRight(r, app.value, if app0.Some? then app0.value else
          linked.(archived := r.score.value < 75, selected := None, ready := false)))
  }

  /** An application that was there, with the results committed so far, and none that was not. */
  predicate CarriesResults(r: Run, app: Option<App>, app0: Option<App>) {
    && (app0.None? ==> app.None?)
    && (app0.Some? ==> app == Some(app0.value.(
                                score := if r.score.Some? then r.score else app0.value.score,
                                tailored := if r.tailored.Some? then r.tailored else app0.value.tailored,
                                tailoredScore := if r.tailoredScore.Some? then r.tailoredScore else app0.value.tailoredScore)))
  }

  predicate SavedRight(r: Run, app: App, base: App) {
    && app.archived == base.archived
    && app.score == r.score
    && app.selected == (if base.selected.Some? then base.selected else Some(r.resume))
    && app.tailored == (if r.status == BelowThreshold then base.tailored else r.tailored)
    && app.tailoredScore == (if r.status == BelowThreshold then base.tailoredScore else r.tailoredScore)
    && app.ready == (if r.status == BelowThreshold then base.ready else r.status == Ready)
  }

  lemma {:induction false} ExpectedReads(o: Answers, resume: int, app0: Option<App>, w: World)
    requires VerdictOf(w) == Expected(o, resume, app0) && w.run.resume == resume
    ensures ReadsRight(w.run, w.app, app0, o.linked)
  {
  }

  /** Whatever deliveries a run had, it ends as its scores say, and until then the application
      carries exactly the results that are in. */
  lemma {:induction false} EndedRunReads(
    start: Answers, resume: int, app0: Option<App>, worlds: seq<World>, ds: seq<Delivery>, i: nat)
    requires History(worlds, ds) && i < |worlds| && JustQueued(worlds[0], resume, app0)
    ensures worlds[i].run.resume == resume
    ensures if worlds[i].run.status in {Queued, Scoring, Tailoring, ScoringTailored}
            then worlds[i].run.best.None? && CarriesResults(worlds[i].run, worlds[i].app, app0)
            else ReadsRight(worlds[i].run, worlds[i].app, app0, Kept(start, worlds, ds, i).linked)
  {
    HistoryGood(start, resume, app0, worlds, ds, i);
    var w, k := worlds[i], Kept(start, worlds, ds, i);
    if !Active(w.run.status) {
      ExpectedReads(k, resume, app0, w);
    }
  }

  /** Each of r''s results is r's, or one of these answers where r had none. */
  predicate Gained(o: Answers, r: Run, r': Run) {
    && (r'.score == r.score || (r.score.None? && r'.score == o.score))
    && (r'.tailored == r.tailored || (r.tailored.None? && r'.tailored == o.tailored))
    && (r'.tailoredScore == r.tailoredScore || (r.tailoredScore.None? && r'.tailoredScore == o.tailoredScore))
  }

  lemma {:induction false} StageGains(o: Answers, w: World, g: Stage)
    ensures Gained(o, w.run, DoStage(o, w, g).run)
  {
  }

  lemma {:induction false} ConcludeGains(o: Answers, w: World)
    ensures Gained(o, w.run, Conclude(o, w).run)
  {
  }

  lemma {:induction false} StagesGain(o: Answers, w: World)
    ensures Gained(o, w.run, Stages(o, w).run)
  {
    var w1 := DoStage(o, w, Score);
    var w2 := DoStage(o, w1, Tailor);
    var w3 := DoStage(o, w2, ScoreAgain);
    StageGains(o, w, Score);
    StageGains(o, w1, Tailor);
    StageGains(o, w2, ScoreAgain);
    ConcludeGains(o, w1);
    ConcludeGains(o, w3);
  }

  lemma {:induction false} DeliveryGains(o: Answers, w: World)
    ensures Gained(o, w.run, Deliver(o, w).run)
  {
    StagesGain(o, w);
  }

  lemma {:induction false} HistoryGains(worlds: seq<World>, ds: seq<Delivery>, n: nat)
    requires History(worlds, ds) && n < |ds|
    ensures Gained(ds[n].answers, worlds[n].run, worlds[n + 1].run)
  {
    DeliveryGains(ds[n].answers, Arrive(worlds[n], ds[n].at, ds[n].delays));
  }

  lemma {:induction false} GainedAnswers(worlds: seq<World>, ds: seq<Delivery>, i: nat)
    requires |worlds| == |ds| + 1 && i < |worlds|
    requires worlds[0].run.score.None? && worlds[0].run.tailored.None? && worlds[0].run.tailoredScore.None?
    requires forall n :: 0 <= n < |ds| ==> Gained(ds[n].answers, worlds[n].run, worlds[n + 1].run)
    ensures worlds[i].run.score.Some? ==> exists n :: 0 <= n < i && ds[n].answers.score == worlds[i].run.score
    ensures worlds[i].run.tailored.Some? ==> exists n :: 0 <= n < i && ds[n].answers.tailored == worlds[i].run.tailored
    ensures worlds[i].run.tailoredScore.Some? ==>
              exists n :: 0 <= n < i && ds[n].answers.tailoredScore == worlds[i].run.tailoredScore
  {
    if i > 0 {
      GainedAnswers(worlds, ds, i - 1);
      assert Gained(ds[i - 1].answers, worlds[i - 1].run, worlds[i].run);
    }
  }

  /** Every result of a run is what the LLM answered one of its deliveries. */
  lemma {:induction false} ResultsWereAnswered(worlds: seq<World>, ds: seq<Delivery>, i: nat, resume: int, app0: Option<App>)
    requires History(worlds, ds) && i < |worlds| && JustQueued(worlds[0], resume, app0)
    ensures worlds[i].run.score.Some? ==> exists n :: 0 <= n < i && ds[n].answers.score == worlds[i].run.score
    ensures worlds[i].run.tailored.Some? ==> exists n :: 0 <= n < i && ds[n].answers.tailored == worlds[i].run.tailored
    ensures worlds[i].run.tailoredScore.Some? ==>
              exists n :: 0 <= n < i && ds[n].answers.tailoredScore == worlds[i].run.tailoredScore
  {
    forall n | 0 <= n < |ds|
      ensures Gained(ds[n].answers, worlds[n].run, worlds[n + 1].run)
    {
      HistoryGains(worlds, ds, n);
    }
    GainedAnswers(worlds, ds, i);
  }

  lemma {:induction false} StageSpends(o: Answers, w: World, g: Stage)
    ensures w.alive ==> !DoStage(o, w, g).alive || |DoStage(o, w, g).delays| <= |w.delays|
    ensures w.alive && Active(w.run.status) && ResultOf(w.run, g).None? ==> DoStage(o, w, g) != w
    ensures DoStage(o, w, g).alive ==> w.alive
    ensures DoStage(o, w, g).alive && DoStage(o, w, g) != w ==> |DoStage(o, w, g).delays| < |w.delays|
  {
  }

  lemma {:induction false} ConcludeSpends(o: Answers, w: World)
    requires w.alive
    ensures !Conclude(o, w).alive || |Conclude(o, w).delays| < |w.delays|
  {
  }

  /** A worker that takes the run up does something, if only die. */
  lemma {:induction false} StagesSpend(o: Answers, w: World)
    requires Going(w)
    ensures !Stages(o, w).alive || |Stages(o, w).delays| < |w.delays|
  {
    StageSpends(o, w, Score);
    StageGives(o, w, Score);
    var w1 := DoStage(o, w, Score);
    StageSpends(o, w1, Tailor);
    var w2 := DoStage(o, w1, Tailor);
    StageSpends(o, w2, ScoreAgain);
    var w3 := DoStage(o, w2, ScoreAgain);
    if Going(w1) {
      ConcludeSpends(o, w1);
      if Going(w3) {
        ConcludeSpends(o, w3);
      }
    }
  }

  /** A delivery leaves a run alone exactly when it has ended, or when it is not past 300 seconds and
      another delivery's stage call may still be out: 90 seconds for a score, 150 for a tailoring. */
  lemma {:induction false} LeftAloneExactly(o: Answers, w: World)
    requires w.alive
    ensures Deliver(o, w) == w <==>
              || w.run.status !in {Queued, Scoring, Tailoring, ScoringTailored}
              || (w.run.createdAt >= w.now - 300
                  && ((w.run.status == Scoring && w.run.score.None? && w.run.updatedAt >= w.now - 90)
                      || (w.run.status == Tailoring && w.run.tailored.None? && w.run.updatedAt >= w.now - 150)
                      || (w.run.status == ScoringTailored && w.run.tailoredScore.None? && w.run.updatedAt >= w.now - 90)))
    ensures w.run.status in {Queued, Scoring, Tailoring, ScoringTailored} && w.run.createdAt < w.now - 300 && w.delays != [] ==>
              Deliver(o, w) == w.(run := w.run.(status := Failed, updatedAt := w.now + w.delays[0]),
                                  now := w.now + w.delays[0], delays := w.delays[1..])
  {
    if TakesUp(w) {
      StagesSpend(o, w);
      assert Deliver(o, w) != w;
    } else if Active(w.run.status) && IsStale(w) {
      var f := SetStatus(w, Failed);
      assert f.alive ==> f.run.status == Failed;
      assert f != w;
    }
  }

  function FreshRun(): World {
    World(Run(Queued, 1, 0, 0, None, None, None, None), None, 0, [], false, Counts(0, 0, 0), Counts(0, 0, 0))
  }

  /** A worker that lives for two effects marks the stage, calls the LLM and dies with its answer. */
  lemma {:induction false} DiesWithAnAnswer(o: Answers)
    ensures var w := Deliver(o, Arrive(FreshRun(), 0, [0, 0]));
            && w.run == FreshRun().run.(status := Scoring) && w.app == None && w.now == 0
            && w.calls == w.lost == Counts(1, 0, 0)
  {
    assert [0, 0][1..] == [0] && [0][1..] == [];
  }

  lemma {:induction false} EndsAsExpected(o: Answers, resume: int, app0: Option<App>, w: World)
    requires Good(o, resume, app0, w) && TakesUp(w) && w.alive && |w.delays| >= 10
    ensures Deliver(o, w).run.status == Expected(o, resume, app0).status
  {
    StagesGood(o, resume, app0, w);
    LivingDeliveryEnds(o, w);
  }

  lemma {:induction false} TwoDeliveries(w0: World, d0: Delivery, w1: World, d1: Delivery) returns (worlds: seq<World>)
    requires w0.now <= d0.at && !IsStale(Arrive(w0, d0.at, d0.delays)) && w1 == Deliver(d0.answers, Arrive(w0, d0.at, d0.delays))
    requires w1.now <= d1.at && !IsStale(Arrive(w1, d1.at, d1.delays))
    ensures History(worlds, [d0, d1]) && worlds == [w0, w1, Deliver(d1.answers, Arrive(w1, d1.at, d1.delays))]
  {
    worlds := [w0, w1, Deliver(d1.answers, Arrive(w1, d1.at, d1.delays))];
  }

  /** So an interrupted run may end otherwise than its first call would have had it: an answer that
      was lost with its worker does not bind the next one. */
  lemma {:induction false} RetryMayAnswerDifferently(o: Answers) returns (worlds: seq<World>, ds: seq<Delivery>)
    requires o.score.Some? && o.score.value < TAILOR_THRESHOLD
    ensures History(worlds, ds) && |ds| == 2 && JustQueued(worlds[0], 1, None)
    ensures ds[0].answers == o && worlds[1].lost.score == 1 && Expected(o, 1, None).status == BelowThreshold
    ensures worlds[2].run.status == Ready
  {
    var again := o.(score := Some(80), tailored := Some(7), tailoredScore := Some(90));
    var d0, d1 := Delivery(0, [0, 0], o), Delivery(200, [0, 0, 0, 0, 0, 0, 0, 0, 0, 0], again);
    DiesWithAnAnswer(o);
    var w1 := Deliver(o, Arrive(FreshRun(), 0, d0.delays));
    ds := [d0, d1];
    worlds := TwoDeliveries(FreshRun(), d0, w1, d1);
    SecondEndsReady(again, w1, d1);
  }

  lemma {:induction false} SecondEndsReady(again: Answers, w1: World, d: Delivery)
    requires w1.run == FreshRun().run.(status := Scoring) && w1.app == None && w1.calls == w1.lost == Counts(1, 0, 0)
    requires again.score == Some(80) && again.tailored.Some? && again.tailoredScore == Some(90)
    requires d.at == 200 && |d.delays| >= 10
    ensures Deliver(again, Arrive(w1, d.at, d.delays)).run.status == Ready
  {
    EndsAsExpected(again, 1, None, Arrive(w1, d.at, d.delays));
  }

  function Lost(w: World): nat {
    w.lost.score + w.lost.tailor + w.lost.scoreAgain
  }

  /** From w to w', a call is lost only by dying. */
  predicate LosesByDying(w: World, w': World) {
    && (!w.alive ==> w' == w)
    && Lost(w') <= Lost(w) + if w.alive && !w'.alive then 1 else 0
  }

  lemma {:induction false} StageLoss(o: Answers, w: World, g: Stage)
    ensures LosesByDying(w, DoStage(o, w, g))
  {
  }

  lemma {:induction false} ThreeStagesLoss(o: Answers, w: World)
    ensures LosesByDying(w, DoStage(o, DoStage(o, DoStage(o, w, Score), Tailor), ScoreAgain))
    ensures LosesByDying(w, DoStage(o, w, Score))
  {
    var w1 := DoStage(o, w, Score);
    StageLoss(o, w, Score);
    StageLoss(o, w1, Tailor);
    StageLoss(o, DoStage(o, w1, Tailor), ScoreAgain);
  }

  lemma {:induction false} ConcludeLoss(o: Answers, w: World)
    ensures Conclude(o, w).lost == w.lost && (Conclude(o, w).alive ==> w.alive)
  {
  }

  lemma {:induction false} StagesLoss(o: Answers, w: World)
    requires w.alive
    ensures Lost(Stages(o, w)) <= Lost(w) + if Stages(o, w).alive then 0 else 1
  {
    var w1 := DoStage(o, w, Score);
    ThreeStagesLoss(o, w);
    ConcludeLoss(o, w1);
    ConcludeLoss(o, DoStage(o, DoStage(o, w1, Tailor), ScoreAgain));
  }

  /** A delivery that dies loses at most one LLM call, between a stage's call and its commit, and
      one that lives loses none. */
  lemma {:induction false} OneDeathOneLoss(o: Answers, w: World)
    requires w.alive
    ensures Lost(Deliver(o, w)) <= Lost(w) + if Deliver(o, w).alive then 0 else 1
  {
    if TakesUp(w) {
      StagesLoss(o, w);
    }
  }
}
