/**
 Execution of one trace evaluation run: scores, counters and status in the database, committed
 after each trace (run_eval_run and fail_eval_run in backend/app/infrastructure/local_tasks/handlers.py,
 with the row updates of backend/app/infrastructure/db/repositories/eval_repo.py).
 */
module EvalRun {
  import opened Wrappers
  import opened Collections

  type RunId = string
  type TraceId = string
  type Metric = string

  datatype ScoreStatus = Success | Failed

  datatype Score = Score(run: RunId, trace: TraceId, metric: Metric, status: ScoreStatus, value: Option<string>)

  datatype RunStatus = Pending | Running | Completed | Failed

  datatype RunRow = RunRow(status: RunStatus, evaluated: nat, failed: nat, error: Option<string>, metricNames: seq<Metric>)

  datatype Db = Db(scores: seq<Score>, runs: map<RunId, RunRow>)

  /** The job's payload. */
  datatype Task = Task(run: RunId, traceIds: seq<TraceId>, metricMap: map<TraceId, seq<Metric>>)

  /**
   What one attempt meets: the traces that exist, each metric's value or failure (None), and whether
   a score can be built from the value; an error there is caught like one of the metric. (An error of
   the database while storing the score is an interruption: the session then refuses the next one too.)
   */
  datatype World = World(
    found: set<TraceId>, evaluate: (TraceId, Metric) -> Option<string>, scorable: (TraceId, Metric) -> bool)

  // -- Row updates -------------------------------------------------------------

  function WithoutRun(scores: seq<Score>, run: RunId): seq<Score> {
    if scores == [] then []
    else
      var s := scores[|scores| - 1];
      WithoutRun(scores[..|scores| - 1], run) + if s.run == run then [] else [s]
  }

  function SetStatus(db: Db, run: RunId, status: RunStatus, error: Option<string>): Db {
    if run !in db.runs then db
    else db.(runs := db.runs[run := db.runs[run].(status := status, error := error)])
  }

  function Bump(db: Db, run: RunId, evaluated: nat, failed: nat): Db {
    if run !in db.runs then db
    else
      var r := db.runs[run];
      db.(runs := db.runs[run := r.(evaluated := r.evaluated + evaluated, failed := r.failed + failed)])
  }

  function ResetCounters(db: Db, run: RunId): Db {
    if run !in db.runs then db
    else db.(runs := db.runs[run := db.runs[run].(evaluated := 0, failed := 0)])
  }

  function FailEvalRun(db: Db, run: RunId, message: string): Db {
    SetStatus(db, run, RunStatus.Failed, Some(message))
  }

  // -- Commits of one attempt --------------------------------------------------

  /** The setup commit: old scores deleted, counters zero, status RUNNING. */
  function Setup(db: Db, run: RunId): Db {
    SetStatus(ResetCounters(db.(scores := WithoutRun(db.scores, run)), run), run, Running, None)
  }

  /** An empty or absent override map falls back to the run's own metrics. */
  function MetricsFor(task: Task, row: RunRow, t: TraceId): seq<Metric> {
    if task.metricMap != map[] && t in task.metricMap then task.metricMap[t] else row.metricNames
  }

  function ScoreOf(task: Task, w: World, t: TraceId, m: Metric): Score {
    if w.evaluate(t, m).Some? && w.scorable(t, m) then Score(task.run, t, m, Success, w.evaluate(t, m))
    else Score(task.run, t, m, ScoreStatus.Failed, None)
  }

  function ScoreAll(task: Task, w: World, t: TraceId, metrics: seq<Metric>): seq<Score> {
    if metrics == [] then []
    else ScoreAll(task, w, t, metrics[..|metrics| - 1]) + [ScoreOf(task, w, t, metrics[|metrics| - 1])]
  }

  function CountFailed(scores: seq<Score>): nat {
    if scores == [] then 0
    else CountFailed(scores[..|scores| - 1]) + if scores[|scores| - 1].status == ScoreStatus.Failed then 1 else 0
  }

  /** Stores the scores and counts the failed ones. */
  function AddScores(db: Db, run: RunId, scores: seq<Score>): Db {
    Bump(db.(scores := db.scores + scores), run, 0, CountFailed(scores))
  }

  lemma AddScoreTwice(db: Db, run: RunId, scores: seq<Score>, s: Score)
    ensures Bump(AddScores(db, run, scores).(scores := AddScores(db, run, scores).scores + [s]), run, 0, CountFailed([s]))
            == AddScores(db, run, scores + [s])
  {
    assert (scores + [s])[..|scores|] == scores;
    assert db.scores + scores + [s] == db.scores + (scores + [s]);
  }

  /** One trace, up to its commit. */
  function ProcessTrace(db: Db, task: Task, w: World, row: RunRow, t: TraceId): Db {
    if t !in w.found then Bump(db, task.run, 1, 0)
    else
      Bump(AddScores(db, task.run, ScoreAll(task, w, t, MetricsFor(task, row, t))), task.run, 1, 0)
  }

  /** The database after the setup commit and the commits of the first `k` traces. */
  function Checkpoint(db: Db, task: Task, w: World, k: nat): Db
    requires task.run in db.runs && k <= |task.traceIds|
  {
    if k == 0 then Setup(db, task.run)
    else ProcessTrace(Checkpoint(db, task, w, k - 1), task, w, db.runs[task.run], task.traceIds[k - 1])
  }

  /** A whole attempt, to its last commit. */
  function Finished(db: Db, task: Task, w: World): Db
    requires task.run in db.runs
  {
    SetStatus(Checkpoint(db, task, w, |task.traceIds|), task.run, Completed, None)
  }

  /** The database after an attempt's first `commits` commits. */
  function Committed(db: Db, task: Task, w: World, commits: nat): Db
    requires task.run in db.runs
  {
    if commits == 0 then db
    else if commits <= |task.traceIds| + 1 then Checkpoint(db, task, w, commits - 1)
    else Finished(db, task, w)
  }

  // -- The handler -------------------------------------------------------------

  datatype Failure = Interrupted | RunNotFound

  /**
   One database session. `awaits` is how many more awaited calls succeed; the next one raises,
   times out or dies with the process, and the session's uncommitted work is gone.
   */
  class EvalSession {
    var committed: Db
    var session: Db
    var awaits: nat

    constructor (db: Db, awaits: nat)
      ensures committed == db && session == db && this.awaits == awaits
    {
      committed, session, this.awaits := db, db, awaits;
    }

    method Await() returns (alive: bool)
      modifies this`awaits, this`session
      ensures committed == old(committed)
      ensures alive ==> session == old(session) && awaits == old(awaits) - 1
      ensures !alive ==> session == committed && awaits == old(awaits) == 0
    {
      if awaits == 0 {
        session := committed;
        return false;
      }
      awaits := awaits - 1;
      alive := true;
    }

    method Commit() returns (alive: bool)
      modifies this
      ensures alive ==> session == committed == old(session)
      ensures !alive ==> session == committed == old(committed) && awaits == 0
    {
      alive := Await();
      if alive { committed := session; }
    }

    /** Runs one metric and stores its score, or its failure and the failure count. */
    method ScoreMetric(task: Task, w: World, t: TraceId, m: Metric) returns (alive: bool)
      modifies this`awaits, this`session
      ensures committed == old(committed)
      ensures !alive ==> session == committed && awaits == 0
      ensures alive ==> session == Bump(old(session).(scores := old(session).scores + [ScoreOf(task, w, t, m)]), task.run,
                                        0, CountFailed([ScoreOf(task, w, t, m)]))
    {
      alive := Await(); // the metric's own calls
      if !alive { return; }
      var value := w.evaluate(t, m);
      if value.Some? {
        alive := Await();
        if !alive { return; }
        if w.scorable(t, m) {
          session := session.(scores := session.scores + [Score(task.run, t, m, Success, value)]);
          return;
        }
      }
      alive := Await();
      if !alive { return; }
      session := session.(scores := session.scores + [Score(task.run, t, m, ScoreStatus.Failed, None)]);
      alive := Await();
      if !alive { return; }
      session := Bump(session, task.run, 0, 1);
    }

    method ScoreTrace(task: Task, w: World, t: TraceId, metrics: seq<Metric>) returns (alive: bool)
      modifies this`awaits, this`session
      ensures committed == old(committed)
      ensures !alive ==> session == committed && awaits == 0
      ensures alive ==> session == AddScores(old(session), task.run, ScoreAll(task, w, t, metrics))
    {
      ghost var db := session;
      for i := 0 to |metrics|
        invariant committed == old(committed)
        invariant session == AddScores(db, task.run, ScoreAll(task, w, t, metrics[..i]))
      {
        alive := ScoreMetric(task, w, t, metrics[i]);
        if !alive { return; }
        assert metrics[..i + 1][..i] == metrics[..i];
        AddScoreTwice(db, task.run, ScoreAll(task, w, t, metrics[..i]), ScoreOf(task, w, t, metrics[i]));
      }
      assert metrics[..|metrics|] == metrics;
      alive := true;
    }

    /** One trace and its commit. */
    method RunTrace(task: Task, w: World, row: RunRow, t: TraceId) returns (alive: bool)
      requires session == committed
      modifies this
      ensures session == committed
      ensures alive ==> committed == ProcessTrace(old(committed), task, w, row, t)
      ensures !alive ==> committed == old(committed) && awaits == 0
    {
      alive := Await(); // the trace lookup
      if !alive { return; }
      if t in w.found {
        alive := ScoreTrace(task, w, t, MetricsFor(task, row, t));
        if !alive { return; }
      }
      alive := Await();
      if !alive { return; }
      session := Bump(session, task.run, 1, 0);
      assert session == ProcessTrace(old(committed), task, w, row, t);
      alive := Commit();
    }

    /** Deletes what earlier attempts scored, clears the counters, marks the run RUNNING and commits. */
    method SetUp(run: RunId) returns (alive: bool)
      requires session == committed
      modifies this
      ensures session == committed
      ensures alive ==> committed == Setup(old(committed), run)
      ensures !alive ==> committed == old(committed) && awaits == 0
    {
      alive := Await();
      if !alive { return; }
      session := session.(scores := WithoutRun(session.scores, run));
      alive := Await();
      if !alive { return; }
      session := ResetCounters(session, run);
      alive := Await();
      if !alive { return; }
      session := SetStatus(session, run, Running, None);
      alive := Commit();
    }

    /**
     Wherever the attempt stops, what is committed is one of its checkpoints; only an interruption
     or a missing run stops it short.
     */
    method RunEvalRun(task: Task, w: World) returns (r: Result<string, Failure>)
      requires session == committed
      modifies this
      ensures session == committed
      ensures r.Ok? ==> task.run in old(committed).runs && committed == Finished(old(committed), task, w)
      ensures r == Err(Interrupted) ==> awaits == 0
      ensures r == Err(RunNotFound) ==> task.run !in old(committed).runs && committed == Setup(old(committed), task.run)
      ensures r.Err? && task.run in old(committed).runs ==>
                exists n: nat :: n <= |task.traceIds| + 1 && committed == Committed(old(committed), task, w, n)
    {
      ghost var db := committed;
      var alive := SetUp(task.run);
      if !alive {
        assert task.run in db.runs ==> committed == Committed(db, task, w, 0);
        return Err(Interrupted);
      }
      if task.run !in session.runs { return Err(RunNotFound); }
      var row := session.runs[task.run];
      for k := 0 to |task.traceIds|
        invariant task.run in db.runs && row.metricNames == db.runs[task.run].metricNames
        invariant session == committed == Checkpoint(db, task, w, k)
      {
        alive := RunTrace(task, w, row, task.traceIds[k]);
        if !alive {
          assert committed == Committed(db, task, w, k + 1);
          return Err(Interrupted);
        }
      }
      alive := Await();
      if alive {
        session := SetStatus(session, task.run, Completed, None);
        alive := Commit();
      }
      if !alive {
        assert committed == Committed(db, task, w, |task.traceIds| + 1);
        return Err(Interrupted);
      }
      r := Ok("completed");
    }
  }

  // -- What every commit shows -------------------------------------------------

  /** Scores of `run` for one (trace, metric) pair. */
  function Count(scores: seq<Score>, run: RunId, t: TraceId, m: Metric): nat {
    if scores == [] then 0
    else
      var s := scores[|scores| - 1];
      Count(scores[..|scores| - 1], run, t, m) + if s.run == run && s.trace == t && s.metric == m then 1 else 0
  }

  function OfRun(scores: seq<Score>, run: RunId): seq<Score> {
    if scores == [] then []
    else
      var s := scores[|scores| - 1];
      OfRun(scores[..|scores| - 1], run) + if s.run == run then [s] else []
  }

  lemma {:induction false} CountAppend(a: seq<Score>, b: seq<Score>, run: RunId, t: TraceId, m: Metric)
    ensures Count(a + b, run, t, m) == Count(a, run, t, m) + Count(b, run, t, m)
  {
    if b == [] {
      assert a + b == a;
    } else {
      assert (a + b)[..|a + b| - 1] == a + b[..|b| - 1];
      CountAppend(a, b[..|b| - 1], run, t, m);
    }
  }

  lemma {:induction false} WithoutRunAppend(a: seq<Score>, b: seq<Score>, run: RunId)
    ensures WithoutRun(a + b, run) == WithoutRun(a, run) + WithoutRun(b, run)
  {
    if b == [] {
      assert a + b == a;
    } else {
      assert (a + b)[..|a + b| - 1] == a + b[..|b| - 1];
      WithoutRunAppend(a, b[..|b| - 1], run);
    }
  }

  /** Deleting one run's scores leaves every other run's, in order. */
  lemma {:induction false} WithoutRunKeeps(scores: seq<Score>, run: RunId, r: RunId)
    ensures OfRun(WithoutRun(scores, run), r) == if r == run then [] else OfRun(scores, r)
  {
    if scores != [] {
      var init, s := scores[..|scores| - 1], scores[|scores| - 1];
      WithoutRunKeeps(init, run, r);
      if s.run != run { OfRunAppend(WithoutRun(init, run), [s], r); }
      assert WithoutRun(init, run) + [] == WithoutRun(init, run);
      assert [s][..0] == [] && OfRun([s], r) == if s.run == r then [s] else [];
    }
  }

  lemma {:induction false} OfRunAppend(a: seq<Score>, b: seq<Score>, run: RunId)
    ensures OfRun(a + b, run) == OfRun(a, run) + OfRun(b, run)
  {
    if b == [] {
      assert a + b == a;
    } else {
      assert (a + b)[..|a + b| - 1] == a + b[..|b| - 1];
      OfRunAppend(a, b[..|b| - 1], run);
    }
  }

  /** The scores of all other runs are the same, run by run and taken together. */
  ghost predicate SameOthers(x: seq<Score>, y: seq<Score>, run: RunId) {
    && (forall r: RunId :: r != run ==> OfRun(x, r) == OfRun(y, r))
    && WithoutRun(x, run) == WithoutRun(y, run)
  }

  lemma OthersSame(x: seq<Score>, y: seq<Score>, run: RunId)
    requires WithoutRun(x, run) == WithoutRun(y, run)
    ensures SameOthers(x, y, run)
  {
    forall r: RunId | r != run ensures OfRun(x, r) == OfRun(y, r) {
      WithoutRunKeeps(x, run, r);
      WithoutRunKeeps(y, run, r);
    }
  }

  /** Setup clears the run's own scores and counters, and leaves every other run as it was. */
  lemma SetupExactly(db: Db, run: RunId)
    requires run in db.runs
    ensures
      var d := Setup(db, run);
      && OfRun(d.scores, run) == [] && (forall r: RunId :: r != run ==> OfRun(d.scores, r) == OfRun(db.scores, r))
      && d.runs == db.runs[run := RunRow(Running, 0, 0, None, db.runs[run].metricNames)]
  {
    forall r: RunId ensures OfRun(Setup(db, run).scores, r) == if r == run then [] else OfRun(db.scores, r) {
      WithoutRunKeeps(db.scores, run, r);
    }
  }

  lemma {:induction false} FailedAppend(a: seq<Score>, b: seq<Score>, run: RunId)
    ensures CountFailed(OfRun(a + b, run)) == CountFailed(OfRun(a, run)) + CountFailed(OfRun(b, run))
  {
    if b == [] {
      assert a + b == a;
    } else {
      var init, s := b[..|b| - 1], b[|b| - 1];
      assert (a + b)[..|a + b| - 1] == a + init;
      FailedAppend(a, init, run);
      AppendOfRun(OfRun(a + init, run), s, run);
      AppendOfRun(OfRun(init, run), s, run);
    }
  }

  lemma AppendOfRun(xs: seq<Score>, s: Score, run: RunId)
    ensures CountFailed(xs + if s.run == run then [s] else [])
            == CountFailed(xs) + if s.run == run && s.status == ScoreStatus.Failed then 1 else 0
  {
    assert (xs + [s])[..|xs|] == xs;
    assert xs + [] == xs;
  }

  lemma {:induction false} SetupClears(scores: seq<Score>, run: RunId, t: TraceId, m: Metric)
    ensures Count(WithoutRun(scores, run), run, t, m) == 0
    ensures OfRun(WithoutRun(scores, run), run) == []
    ensures WithoutRun(WithoutRun(scores, run), run) == WithoutRun(scores, run)
  {
    if scores != [] {
      var init, s := scores[..|scores| - 1], scores[|scores| - 1];
      SetupClears(init, run, t, m);
      var kept := WithoutRun(init, run);
      assert (kept + [s])[..|kept|] == kept;
      assert kept + [] == kept;
    }
  }

  lemma {:induction false} TraceCounts(task: Task, w: World, t: TraceId, metrics: seq<Metric>, u: TraceId, m: Metric)
    ensures Count(ScoreAll(task, w, t, metrics), task.run, u, m) == if u == t then Occurrences(m, metrics) else 0
    ensures OfRun(ScoreAll(task, w, t, metrics), task.run) == ScoreAll(task, w, t, metrics)
    ensures WithoutRun(ScoreAll(task, w, t, metrics), task.run) == []
  {
    if metrics != [] {
      var init := metrics[..|metrics| - 1];
      TraceCounts(task, w, t, init, u, m);
      var before, s := ScoreAll(task, w, t, init), ScoreOf(task, w, t, metrics[|metrics| - 1]);
      assert (before + [s])[..|before|] == before;
    }
  }

  /** What processing trace `u` stores. */
  function NewScores(task: Task, w: World, row: RunRow, u: TraceId): seq<Score> {
    if u in w.found then ScoreAll(task, w, u, MetricsFor(task, row, u)) else []
  }

  lemma BumpedOnce(db: Db, run: RunId, news: seq<Score>, failed: nat)
    requires run in db.runs
    ensures
      var c, r := Bump(Bump(db.(scores := db.scores + news), run, 0, failed), run, 1, 0), db.runs[run];
      && c.scores == db.scores + news
      && c.runs == db.runs[run := r.(evaluated := r.evaluated + 1, failed := r.failed + failed)]
  {
  }

  lemma TraceRows(db: Db, task: Task, w: World, row: RunRow, u: TraceId)
    requires task.run in db.runs
    ensures
      var c, r := ProcessTrace(db, task, w, row, u), db.runs[task.run];
      && c.scores == db.scores + NewScores(task, w, row, u)
      && c.runs == db.runs[task.run := r.(evaluated := r.evaluated + 1,
                                          failed := r.failed + CountFailed(NewScores(task, w, row, u)))]
  {
    var news := NewScores(task, w, row, u);
    if u in w.found {
      BumpedOnce(db, task.run, news, CountFailed(news));
    } else {
      assert db.scores + news == db.scores;
    }
  }

  /** One trace adds its own scores to the run and nothing to any other. */
  lemma TraceScores(scores: seq<Score>, task: Task, w: World, row: RunRow, u: TraceId, t: TraceId, m: Metric)
    ensures
      var after := scores + NewScores(task, w, row, u);
      && Count(after, task.run, t, m) == Count(scores, task.run, t, m)
         + (if u == t && t in w.found then Occurrences(m, MetricsFor(task, row, t)) else 0)
      && CountFailed(OfRun(after, task.run))
         == CountFailed(OfRun(scores, task.run)) + CountFailed(NewScores(task, w, row, u))
      && WithoutRun(after, task.run) == WithoutRun(scores, task.run)
  {
    TraceCounts(task, w, u, MetricsFor(task, row, u), t, m);
    CountAppend(scores, NewScores(task, w, row, u), task.run, t, m);
    FailedAppend(scores, NewScores(task, w, row, u), task.run);
    WithoutRunAppend(scores, NewScores(task, w, row, u), task.run);
    assert WithoutRun(scores, task.run) + [] == WithoutRun(scores, task.run);
  }

  /** The run row and the other rows at a checkpoint. */
  ghost predicate RowsShow(c: Db, db: Db, run: RunId, k: nat)
    requires run in db.runs
  {
    && run in c.runs
    && c.runs == db.runs[run := c.runs[run]]
    && c.runs[run] == RunRow(Running, k, CountFailed(OfRun(c.scores, run)), None, db.runs[run].metricNames)
  }

  lemma {:induction false} CheckpointRows(db: Db, task: Task, w: World, k: nat)
    requires task.run in db.runs && k <= |task.traceIds|
    ensures RowsShow(Checkpoint(db, task, w, k), db, task.run, k)
  {
    if k == 0 {
      SetupClears(db.scores, task.run, "", "");
    } else {
      CheckpointRows(db, task, w, k - 1);
      var before, u := Checkpoint(db, task, w, k - 1), task.traceIds[k - 1];
      TraceRows(before, task, w, db.runs[task.run], u);
      TraceScores(before.scores, task, w, db.runs[task.run], u, "", "");
    }
  }

  /** One more trace at a checkpoint. */
  lemma NextScores(before: Db, task: Task, w: World, row: RunRow, u: TraceId, t: TraceId, m: Metric)
    requires task.run in before.runs
    ensures
      var c := ProcessTrace(before, task, w, row, u);
      && Count(c.scores, task.run, t, m) == Count(before.scores, task.run, t, m)
         + (if u == t && t in w.found then Occurrences(m, MetricsFor(task, row, t)) else 0)
      && WithoutRun(c.scores, task.run) == WithoutRun(before.scores, task.run)
  {
    TraceRows(before, task, w, row, u);
    TraceScores(before.scores, task, w, row, u, t, m);
  }

  /** Scores for one pair that the first `k` traces ask for. */
  function AskedFor(task: Task, w: World, row: RunRow, k: nat, t: TraceId, m: Metric): nat
    requires k <= |task.traceIds|
  {
    (if t in w.found then Occurrences(t, task.traceIds[..k]) else 0) * Occurrences(m, MetricsFor(task, row, t))
  }

  lemma AskedForNext(task: Task, w: World, row: RunRow, k: nat, t: TraceId, m: Metric)
    requires 0 < k <= |task.traceIds|
    ensures AskedFor(task, w, row, k, t, m) == AskedFor(task, w, row, k - 1, t, m)
            + if task.traceIds[k - 1] == t && t in w.found then Occurrences(m, MetricsFor(task, row, t)) else 0
  {
    OccurrencesPrefix(t, task.traceIds, k);
    ProductStep(t in w.found, task.traceIds[k - 1] == t, Occurrences(t, task.traceIds[..k - 1]),
                Occurrences(m, MetricsFor(task, row, t)));
  }

  lemma AskedForNone(task: Task, w: World, row: RunRow, t: TraceId, m: Metric)
    ensures AskedFor(task, w, row, 0, t, m) == 0
  {
    MulZero(Occurrences(m, MetricsFor(task, row, t)));
    assert task.traceIds[..0] == [];
  }

  lemma RunKept(db: Db, task: Task, w: World, k: nat)
    requires task.run in db.runs && k <= |task.traceIds|
    ensures task.run in Checkpoint(db, task, w, k).runs
  {
    CheckpointRows(db, task, w, k);
  }

  /** From one checkpoint to the next. */
  lemma CheckpointScoresNext(db: Db, task: Task, w: World, k: nat, t: TraceId, m: Metric)
    requires task.run in db.runs && 0 < k <= |task.traceIds|
    ensures
      var b, c := Checkpoint(db, task, w, k - 1), Checkpoint(db, task, w, k);
      && Count(c.scores, task.run, t, m) == Count(b.scores, task.run, t, m)
         + (if task.traceIds[k - 1] == t && t in w.found then Occurrences(m, MetricsFor(task, db.runs[task.run], t)) else 0)
      && WithoutRun(c.scores, task.run) == WithoutRun(b.scores, task.run)
  {
    RunKept(db, task, w, k - 1);
    NextScores(Checkpoint(db, task, w, k - 1), task, w, db.runs[task.run], task.traceIds[k - 1], t, m);
  }

  lemma {:induction false} CheckpointScores(db: Db, task: Task, w: World, k: nat, t: TraceId, m: Metric)
    requires task.run in db.runs && k <= |task.traceIds|
    ensures Count(Checkpoint(db, task, w, k).scores, task.run, t, m) == AskedFor(task, w, db.runs[task.run], k, t, m)
    ensures SameOthers(Checkpoint(db, task, w, k).scores, db.scores, task.run)
  {
    if k == 0 {
      SetupClears(db.scores, task.run, t, m);
      AskedForNone(task, w, db.runs[task.run], t, m);
    } else {
      CheckpointScores(db, task, w, k - 1, t, m);
      CheckpointScoresNext(db, task, w, k, t, m);
      AskedForNext(task, w, db.runs[task.run], k, t, m);
    }
    OthersSame(Checkpoint(db, task, w, k).scores, db.scores, task.run);
  }

  /** What a score of the run says: its pair was asked for, and it holds what the metric made of it. */
  ghost predicate Tells(s: Score, task: Task, w: World, row: RunRow, k: nat)
    requires k <= |task.traceIds|
  {
    && s.run == task.run && s.trace in task.traceIds[..k] && s.trace in w.found && s.metric in MetricsFor(task, row, s.trace)
    && (w.evaluate(s.trace, s.metric).Some? && w.scorable(s.trace, s.metric) ==>
          s.status == Success && s.value == w.evaluate(s.trace, s.metric))
    && (w.evaluate(s.trace, s.metric) == None || !w.scorable(s.trace, s.metric) ==>
          s.status == ScoreStatus.Failed && s.value == None)
  }

  lemma {:induction false} ScoreAllTells(task: Task, w: World, t: TraceId, metrics: seq<Metric>)
    ensures forall s :: s in ScoreAll(task, w, t, metrics) ==>
              && s.run == task.run && s.trace == t && s.metric in metrics
              && (w.evaluate(t, s.metric).Some? && w.scorable(t, s.metric) ==> s.status == Success && s.value == w.evaluate(t, s.metric))
              && (w.evaluate(t, s.metric) == None || !w.scorable(t, s.metric) ==> s.status == ScoreStatus.Failed && s.value == None)
  {
    if metrics != [] {
      ScoreAllTells(task, w, t, metrics[..|metrics| - 1]);
      assert metrics == metrics[..|metrics| - 1] + [metrics[|metrics| - 1]];
    }
  }

  lemma TellsOnward(s: Score, task: Task, w: World, row: RunRow, k: nat)
    requires 0 < k <= |task.traceIds| && Tells(s, task, w, row, k - 1)
    ensures Tells(s, task, w, row, k)
  {
    assert task.traceIds[..k] == task.traceIds[..k - 1] + [task.traceIds[k - 1]];
  }

  lemma NewScoreTells(s: Score, task: Task, w: World, row: RunRow, k: nat)
    requires 0 < k <= |task.traceIds| && s in NewScores(task, w, row, task.traceIds[k - 1])
    ensures Tells(s, task, w, row, k)
  {
    ScoreAllTells(task, w, task.traceIds[k - 1], MetricsFor(task, row, task.traceIds[k - 1]));
    assert task.traceIds[..k][k - 1] == task.traceIds[k - 1];
  }

  lemma NextOfRun(db: Db, task: Task, w: World, k: nat)
    requires task.run in db.runs && 0 < k <= |task.traceIds|
    ensures OfRun(Checkpoint(db, task, w, k).scores, task.run)
            == OfRun(Checkpoint(db, task, w, k - 1).scores, task.run)
               + NewScores(task, w, db.runs[task.run], task.traceIds[k - 1])
  {
    var before, u, row := Checkpoint(db, task, w, k - 1), task.traceIds[k - 1], db.runs[task.run];
    RunKept(db, task, w, k - 1);
    TraceRows(before, task, w, row, u);
    OfRunAppend(before.scores, NewScores(task, w, row, u), task.run);
    TraceCounts(task, w, u, MetricsFor(task, row, u), "", "");
  }

  lemma NoneAtFirst(db: Db, task: Task, w: World)
    requires task.run in db.runs
    ensures OfRun(Checkpoint(db, task, w, 0).scores, task.run) == []
  {
    WithoutRunKeeps(db.scores, task.run, task.run);
  }

  lemma NextTells(before: seq<Score>, news: seq<Score>, task: Task, w: World, row: RunRow, k: nat, s: Score)
    requires 0 < k <= |task.traceIds| && news == NewScores(task, w, row, task.traceIds[k - 1])
    requires s in before + news && (s in before ==> Tells(s, task, w, row, k - 1))
    ensures Tells(s, task, w, row, k)
  {
    if s in news {
      NewScoreTells(s, task, w, row, k);
    } else {
      TellsOnward(s, task, w, row, k);
    }
  }

  /** At every commit each score of the run tells what its metric made of its trace. */
  lemma {:induction false} CheckpointTells(db: Db, task: Task, w: World, k: nat, s: Score)
    requires task.run in db.runs && k <= |task.traceIds|
    requires s in OfRun(Checkpoint(db, task, w, k).scores, task.run)
    ensures Tells(s, task, w, db.runs[task.run], k)
  {
    if k == 0 {
      NoneAtFirst(db, task, w);
    } else {
      var before := OfRun(Checkpoint(db, task, w, k - 1).scores, task.run);
      NextOfRun(db, task, w, k);
      if s in before { CheckpointTells(db, task, w, k - 1, s); }
      NextTells(before, NewScores(task, w, db.runs[task.run], task.traceIds[k - 1]), task, w, db.runs[task.run], k, s);
    }
  }

  /** A trace that the override lists runs the listed metrics, any other the run's own; an empty override lists none. */
  lemma MetricsAsListed(task: Task, row: RunRow, t: TraceId)
    ensures t in task.metricMap ==> MetricsFor(task, row, t) == task.metricMap[t]
    ensures t !in task.metricMap ==> MetricsFor(task, row, t) == row.metricNames
  {
  }

  lemma ProductStep(found: bool, again: bool, n: nat, wanted: nat)
    ensures (if found then n + (if again then 1 else 0) else 0) * wanted
            == (if found then n else 0) * wanted + (if again && found then wanted else 0)
  {
    MulStep(n, wanted);
    MulZero(wanted);
  }

  /**
   At every commit after setup: the progress counter is the number of traces done, the failure
   counter is the number of FAILED scores of the run, a pair (trace, metric) has one score for each
   time it was asked for, and the scores and rows of all other runs are as they were.
   */
  lemma CheckpointShows(db: Db, task: Task, w: World, k: nat, t: TraceId, m: Metric)
    requires task.run in db.runs && k <= |task.traceIds|
    ensures
      var c, wanted := Checkpoint(db, task, w, k), Occurrences(m, MetricsFor(task, db.runs[task.run], t));
      && RowsShow(c, db, task.run, k)
      && Count(c.scores, task.run, t, m) == (if t in w.found then Occurrences(t, task.traceIds[..k]) else 0) * wanted
      && SameOthers(c.scores, db.scores, task.run)
  {
    CheckpointRows(db, task, w, k);
    CheckpointScores(db, task, w, k, t, m);
  }

  lemma MulStep(n: nat, m: nat)
    ensures (n + 1) * m == n * m + m
  {
  }

  lemma MulZero(m: nat)
    ensures 0 * m == 0
  {
  }

  /** For distinct trace ids and metrics, a finished run holds exactly one score for each pair it was asked for. */
  lemma FinishedExactly(db: Db, task: Task, w: World, t: TraceId, m: Metric)
    requires task.run in db.runs && Distinct(task.traceIds)
    requires Distinct(MetricsFor(task, db.runs[task.run], t))
    ensures
      var f, row := Finished(db, task, w), db.runs[task.run];
      && task.run in f.runs
      && f.runs[task.run].status == Completed && f.runs[task.run].error == None
      && f.runs[task.run].evaluated == |task.traceIds|
      && f.runs[task.run].failed == CountFailed(OfRun(f.scores, task.run))
      && Count(f.scores, task.run, t, m)
         == (if t in task.traceIds && t in w.found && m in MetricsFor(task, row, t) then 1 else 0)
      && SameOthers(f.scores, db.scores, task.run)
  {
    CheckpointShows(db, task, w, |task.traceIds|, t, m);
    assert task.traceIds[..|task.traceIds|] == task.traceIds;
    DistinctOccurrences(t, task.traceIds);
    DistinctOccurrences(m, MetricsFor(task, db.runs[task.run], t));
  }

  /** A failure mark sets the run's status and error, and nothing else. */
  lemma FailureMark(db: Db, run: RunId, message: string)
    requires run in db.runs
    ensures FailEvalRun(db, run, message).scores == db.scores
    ensures FailEvalRun(db, run, message).runs.Keys == db.runs.Keys
    ensures forall r :: r in db.runs && r != run ==> FailEvalRun(db, run, message).runs[r] == db.runs[r]
    ensures
      var before, after := db.runs[run], FailEvalRun(db, run, message).runs[run];
      after == RunRow(RunStatus.Failed, before.evaluated, before.failed, Some(message), before.metricNames)
  {
  }

  // -- Crash recovery ----------------------------------------------------------

  /** What may happen to a run before the attempt that completes it. */
  datatype Disturbance = Attempt(w: World, commits: nat) | MarkedFailed(message: string)

  function Disturb(db: Db, task: Task, d: Disturbance): Db
    requires task.run in db.runs
  {
    match d
    case Attempt(w, commits) => Committed(db, task, w, commits)
    case MarkedFailed(message) => FailEvalRun(db, task.run, message)
  }

  /** Equal but for this run's scores, counters, status and error. */
  ghost predicate SameOutside(a: Db, b: Db, run: RunId) {
    && run in a.runs && run in b.runs && a.runs[run].metricNames == b.runs[run].metricNames
    && a.runs.Keys == b.runs.Keys
    && (forall r :: r in a.runs && r != run ==> a.runs[r] == b.runs[r])
    && SameOthers(a.scores, b.scores, run)
  }

  lemma DisturbStaysOutside(db: Db, task: Task, d: Disturbance)
    requires task.run in db.runs
    ensures SameOutside(Disturb(db, task, d), db, task.run)
  {
    if d.Attempt? && d.commits > 0 {
      var k := if d.commits <= |task.traceIds| + 1 then d.commits - 1 else |task.traceIds|;
      CheckpointShows(db, task, d.w, k, "", "");
    }
  }

  /** Setup forgets everything an earlier attempt may have left. */
  lemma SetupForgets(a: Db, b: Db, run: RunId)
    requires SameOutside(a, b, run)
    ensures Setup(a, run) == Setup(b, run)
  {
    assert Setup(a, run).runs.Keys == Setup(b, run).runs.Keys;
    assert forall r :: r in Setup(a, run).runs ==> Setup(a, run).runs[r] == Setup(b, run).runs[r];
  }

  lemma {:induction false} SameCheckpoints(a: Db, b: Db, task: Task, w: World, k: nat)
    requires SameOutside(a, b, task.run) && k <= |task.traceIds|
    ensures Checkpoint(a, task, w, k) == Checkpoint(b, task, w, k)
  {
    if k == 0 { SetupForgets(a, b, task.run); } else { SameCheckpoints(a, b, task, w, k - 1); }
  }

  ghost function DisturbAll(db: Db, task: Task, ds: seq<Disturbance>): (r: Db)
    requires task.run in db.runs
    ensures SameOutside(r, db, task.run)
  {
    if ds == [] then db
    else
      var before := DisturbAll(db, task, ds[..|ds| - 1]);
      DisturbStaysOutside(before, task, ds[|ds| - 1]);
      Disturb(before, task, ds[|ds| - 1])
  }

  /**
   Any number of interrupted attempts and failure marks, with whatever traces and metric results
   they met, then one complete attempt: the whole database is as after that one clean attempt.
   */
  lemma CrashRecovery(db: Db, task: Task, ds: seq<Disturbance>, w: World)
    requires task.run in db.runs
    ensures Finished(DisturbAll(db, task, ds), task, w) == Finished(db, task, w)
  {
    SameCheckpoints(DisturbAll(db, task, ds), db, task, w, |task.traceIds|);
  }
}
