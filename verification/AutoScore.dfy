/** app/services/auto_score.py: one background "score, tailor, score the tailored version" run,
    worked on by queue deliveries any of which may die between two effects. */
module AutoScore {
  import opened Base

  datatype Status =
    | Queued | Scoring | Tailoring | ScoringTailored
    | Ready | NotReady | BelowThreshold | Failed

  datatype Stage = Score | Tailor | ScoreAgain

  const TAILOR_THRESHOLD := 75
  const READY_THRESHOLD := 85
  const STALE_AFTER := 300

  /** The user's application for the job: its archive flag, result pointers, picked resume and
      whether it is marked ready to apply. */
  datatype App = App(
    archived: bool, score: Option<int>, tailored: Option<int>, tailoredScore: Option<int>,
    selected: Option<int>, ready: bool)

  /** The auto_score_runs row. A stage's result id and its score are written together, so one
      value stands for both. */
  datatype Run = Run(
    status: Status, resume: int, createdAt: int, updatedAt: int,
    score: Option<int>, tailored: Option<int>, tailoredScore: Option<int>, best: Option<int>)

  datatype Counts = Counts(score: nat, tailor: nat, scoreAgain: nat)

  /** What each stage's LLM action gives for this run (None: it raises), and the earlier results
      a new application is linked to. */
  datatype Answers = Answers(score: Option<int>, tailored: Option<int>, tailoredScore: Option<int>, linked: App)

  /** One delivery at work. `delays` holds the time before each effect it lives to perform;
      when it runs out, the worker is dead. `calls` counts LLM calls made, `lost` those whose
      worker died before committing the outcome. */
  datatype World = World(
    run: Run, app: Option<App>, now: int, delays: seq<nat>, alive: bool, calls: Counts, lost: Counts)

  // ---------------------------------------------------------------- predicates and readers

  predicate Active(s: Status) {
    s in {Queued, Scoring, Tailoring, ScoringTailored}
  }

  function Lease(s: Status): int {
    if s == Queued then 60 else if s == Tailoring then 150 else 90
  }

  predicate IsStale(w: World) {
    w.run.createdAt < w.now - STALE_AFTER
  }

  predicate LeaseExpired(w: World) {
    w.run.updatedAt < w.now - Lease(w.run.status)
  }

  predicate StageStartedButUnfinished(r: Run) {
    || (r.status == Scoring && r.score.None?)
    || (r.status == Tailoring && r.tailored.None?)
    || (r.status == ScoringTailored && r.tailoredScore.None?)
  }

  function StatusOf(g: Stage): Status {
    match g case Score => Scoring case Tailor => Tailoring case ScoreAgain => ScoringTailored
  }

  function ResultOf(r: Run, g: Stage): Option<int> {
    match g case Score => r.score case Tailor => r.tailored case ScoreAgain => r.tailoredScore
  }

  function Answer(o: Answers, g: Stage): Option<int> {
    match g case Score => o.score case Tailor => o.tailored case ScoreAgain => o.tailoredScore
  }

  function Count(c: Counts, g: Stage): nat {
    match g case Score => c.score case Tailor => c.tailor case ScoreAgain => c.scoreAgain
  }

  function Add(c: Counts, g: Stage): Counts {
    match g
    case Score => c.(score := c.score + 1)
    case Tailor => c.(tailor := c.tailor + 1)
    case ScoreAgain => c.(scoreAgain := c.scoreAgain + 1)
  }

  function WithResult(r: Run, g: Stage, v: int): Run {
    match g
    case Score => r.(score := Some(v))
    case Tailor => r.(tailored := Some(v))
    case ScoreAgain => r.(tailoredScore := Some(v))
  }

  /** _stamp_application_pointer with create=False. */
  function Stamped(a: Option<App>, g: Stage, v: int): Option<App> {
    if a.None? then None
    else match g
         case Score => Some(a.value.(score := Some(v)))
         case Tailor => Some(a.value.(tailored := Some(v)))
         case ScoreAgain => Some(a.value.(tailoredScore := Some(v)))
  }

  /** _save_application: get or create, then this run's own results. */
  function SavedApplication(o: Answers, r: Run, a: Option<App>): App
    requires r.score.Some?
  {
    var app := if a.Some? then a.value else o.linked.(archived := r.score.value < TAILOR_THRESHOLD, selected := None, ready := false);
    var app := app.(score := r.score, selected := if app.selected.Some? then app.selected else Some(r.resume));
    if r.tailoredScore.Some? then app.(tailored := r.tailored, tailoredScore := r.tailoredScore) else app
  }

  function Max(a: int, b: int): int {
    if a >= b then a else b
  }

  // ---------------------------------------------------------------- a delivery, as a function

  /** Wait for the next effect, or die. */
  function Tick(w: World): World {
    if !w.alive then w
    else if w.delays == [] then w.(alive := false)
    else w.(now := w.now + w.delays[0], delays := w.delays[1..])
  }

  function SetStatus(w: World, s: Status): World {
    var w := Tick(w);
    if w.alive then w.(run := w.run.(status := s, updatedAt := w.now)) else w
  }

  function CallLlm(w: World, g: Stage): World {
    var w := Tick(w);
    if w.alive then w.(calls := Add(w.calls, g)) else w
  }

  /** Commit a stage's result, or _fail when its LLM action raised. */
  function CommitOutcome(o: Answers, w: World, g: Stage): World {
    var v := Answer(o, g);
    var t := Tick(w);
    if !t.alive then t.(lost := Add(t.lost, g))
    else if v.None? then t.(run := t.run.(status := Failed, updatedAt := t.now))
    else t.(run := WithResult(t.run, g, v.value).(updatedAt := t.now), app := Stamped(t.app, g, v.value))
  }

  predicate Going(w: World) {
    w.alive && Active(w.run.status)
  }

  function DoStage(o: Answers, w: World, g: Stage): World {
    if !Going(w) || ResultOf(w.run, g).Some? then w
    else
      var w1 := SetStatus(w, StatusOf(g));
      if !w1.alive then w1
      else
        var w2 := CallLlm(w1, g);
        if !w2.alive then w2 else CommitOutcome(o, w2, g)
  }

  /** The last commit: best score, application and final status together. */
  function Conclude(o: Answers, w: World): World {
    var t := Tick(w);
    if !t.alive || t.run.score.None? then t
    else if t.run.score.value < TAILOR_THRESHOLD then
      t.(run := t.run.(best := t.run.score, status := BelowThreshold, updatedAt := t.now),
         app := Some(SavedApplication(o, t.run, t.app)))
    else if t.run.tailoredScore.None? then t
    else
      var best := Max(t.run.score.value, t.run.tailoredScore.value);
      var ready := best >= READY_THRESHOLD;
      t.(run := t.run.(best := Some(best), status := if ready then Ready else NotReady, updatedAt := t.now),
         app := Some(SavedApplication(o, t.run, t.app).(ready := ready)))
  }

  function Stages(o: Answers, w: World): World {
    var w1 := DoStage(o, w, Score);
    if !Going(w1) then w1
    else if w1.run.score.Some? && w1.run.score.value < TAILOR_THRESHOLD then Conclude(o, w1)
    else
      var w3 := DoStage(o, DoStage(o, w1, Tailor), ScoreAgain);
      if !Going(w3) then w3 else Conclude(o, w3)
  }

  /** A delivery arriving now works on the run: it is under way, and nobody's lease is running. */
  predicate TakesUp(w: World) {
    Active(w.run.status) && !IsStale(w) && !(StageStartedButUnfinished(w.run) && !LeaseExpired(w))
  }

  /** run_auto_score. */
  function Deliver(o: Answers, w: World): World {
    if !Active(w.run.status) then w
    else if IsStale(w) then SetStatus(w, Failed)
    else if StageStartedButUnfinished(w.run) && !LeaseExpired(w) then w
    else Stages(o, w)
  }

  // ---------------------------------------------------------------- the worker

  /** The database rows a worker sees, and the worker itself. */
  class Worker {
    var run: Run
    var app: Option<App>
    var now: int
    var delays: seq<nat>
    var alive: bool
    var calls: Counts
    var lost: Counts

    ghost function W(): World
      reads this
    {
      World(run, app, now, delays, alive, calls, lost)
    }

    constructor (w: World)
      ensures W() == w
    {
      run, app, now, delays, alive, calls, lost := w.run, w.app, w.now, w.delays, w.alive, w.calls, w.lost;
    }

    method Wait()
      modifies this
      ensures W() == Tick(old(W()))
    {
      if alive {
        if delays == [] {
          alive := false;
        } else {
          now := now + delays[0];
          delays := delays[1..];
        }
      }
    }

    method MarkStatus(s: Status)
      modifies this
      ensures W() == SetStatus(old(W()), s)
    {
      Wait();
      if alive {
        run := run.(status := s, updatedAt := now);
      }
    }

    method RunStage(o: Answers, g: Stage)
      requires Going(W())
      modifies this
      ensures W() == DoStage(o, old(W()), g)
    {
      if ResultOf(run, g).Some? {
        return;
      }
      MarkStatus(StatusOf(g));
      if !alive {
        return;
      }
      Wait();
      if !alive {
        return;
      }
      calls := Add(calls, g);
      Wait();
      if !alive {
        lost := Add(lost, g);
      } else if Answer(o, g).None? {
        run := run.(status := Failed, updatedAt := now);
      } else {
        run := WithResult(run, g, Answer(o, g).value).(updatedAt := now);
        app := Stamped(app, g, Answer(o, g).value);
      }
    }

    /** Saves the application and ends the run in one commit. */
    method Finish(o: Answers)
      requires Going(W()) && run.score.Some?
      requires run.score.value >= TAILOR_THRESHOLD ==> run.tailoredScore.Some?
      modifies this
      ensures W() == Conclude(o, old(W()))
      ensures alive ==> app.Some? && run.best.Some? && app.value.score == run.score == old(run.score)
      ensures alive && run.score.value < 75 ==> run.status == BelowThreshold && run.best == run.score
      ensures alive && run.score.value >= 75 ==>
                var first, second := run.score.value, run.tailoredScore.value;
                && run.best.value >= first && run.best.value >= second && run.best.value in {first, second}
                && run.status == (if first >= 85 || second >= 85 then Ready else NotReady)
                && app.value.ready == (first >= 85 || second >= 85)
    {
      Wait();
      if !alive {
        return;
      }
      if run.score.value < TAILOR_THRESHOLD {
        app := Some(SavedApplication(o, run, app));
        run := run.(best := run.score, status := BelowThreshold, updatedAt := now);
        return;
      }
      var best := Max(run.score.value, run.tailoredScore.value);
      app := Some(SavedApplication(o, run, app));
      if best >= READY_THRESHOLD {
        app := Some(app.value.(ready := true));
        run := run.(best := Some(best), status := Ready, updatedAt := now);
      } else {
        app := Some(app.value.(ready := false));
        run := run.(best := Some(best), status := NotReady, updatedAt := now);
      }
    }

    /** The three stages, picking up after the last finished one. */
    method RunStages(o: Answers)
      requires Going(W())
      modifies this
      ensures W() == Stages(o, old(W()))
    {
      ghost var w := W();
      StageGives(o, w, Score);
      RunStage(o, Score);
      if !(alive && Active(run.status)) {
        return;
      }
      ghost var w1 := W();
      if run.score.value < TAILOR_THRESHOLD {
        Finish(o);
        return;
      }
      StageGives(o, w1, Tailor);
      RunStage(o, Tailor);
      ghost var w2 := W();
      StageGives(o, w2, ScoreAgain);
      if alive && Active(run.status) {
        RunStage(o, ScoreAgain);
      }
      if alive && Active(run.status) {
        Finish(o);
      }
    }

    /** latest_run, which the page polls: a run past the stale limit is failed, and one whose lease
        is over is sent to the worker again. */
    method LatestRun() returns (requeue: bool)
      requires alive
      modifies this`run
      ensures var r := old(run);
              var stale := r.status in {Queued, Scoring, Tailoring, ScoringTailored} && r.createdAt < now - 300;
              && run == (if stale then r.(status := Failed, updatedAt := now) else r)
              && (requeue <==>
                    && !stale
                    && ((r.status == Queued && r.updatedAt < now - 60)
                        || (r.status == Tailoring && r.updatedAt < now - 150)
                        || (r.status in {Scoring, ScoringTailored} && r.updatedAt < now - 90)))
      ensures requeue ==> TakesUp(W())
    {
      if !Active(run.status) {
        return false;
      }
      if run.createdAt < now - STALE_AFTER {
        run := run.(status := Failed, updatedAt := now);
        return false;
      }
      return run.updatedAt < now - Lease(run.status);
    }

    method RunAutoScore(o: Answers)
      requires alive
      modifies this
      ensures W() == Deliver(o, old(W()))
    {
      if !Active(run.status) {
        return;
      }
      if run.createdAt < now - STALE_AFTER {
        MarkStatus(Failed);
        return;
      }
      if StageStartedButUnfinished(run) && !(run.updatedAt < now - Lease(run.status)) {
        return;
      }
      RunStages(o);
    }
  }

  /** A stage that leaves the run going has its result, and keeps the results it found. */
  lemma {:induction false} StageGives(o: Answers, w: World, g: Stage)
    ensures Going(DoStage(o, w, g)) ==> Going(w) && ResultOf(DoStage(o, w, g).run, g).Some?
    ensures !Going(w) ==> DoStage(o, w, g) == w
    ensures forall x :: ResultOf(w.run, x).Some? ==> ResultOf(DoStage(o, w, g).run, x) == ResultOf(w.run, x)
  {
  }
}
