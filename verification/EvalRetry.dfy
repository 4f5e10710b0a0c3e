/**
 Preparing batch runs and retries of failed scores (prepare_batch_eval_run and
 prepare_retry_failed_run in backend/app/services/eval_service.py), and what the prepared run
 does when it executes.
 */
module EvalRetry {
  import opened Wrappers
  import opened Collections
  import opened EvalRun

  /** The trace ids without repetitions, in the order of their first places. */
  function Unique(ids: seq<TraceId>): (r: seq<TraceId>)
    ensures Distinct(r)
    ensures forall t :: t in r <==> t in ids
    ensures FirstPlaces(ids, r)
  {
    if ids == [] then []
    else
      var init, t := ids[..|ids| - 1], ids[|ids| - 1];
      var before := Unique(init);
      assert ids == init + [t];
      UniqueStep(ids, init, t, before);
      if t in before then before else before + [t]
  }

  lemma UniqueStep(ids: seq<TraceId>, init: seq<TraceId>, t: TraceId, before: seq<TraceId>)
    requires ids == init + [t] && Distinct(before) && forall x :: x in before <==> x in init
    requires FirstPlaces(init, before)
    ensures FirstPlaces(ids, if t in before then before else before + [t])
  {
    var r := if t in before then before else before + [t];
    forall i, j | 0 <= i < j < |r| ensures Earlier(ids, r[i], r[j]) {
      EarlierAppend(init, t, r[i], r[j]);
      assert r[i] in before;
    }
  }

  /** A batch run visits each requested trace once and its progress ends at the announced total. */
  lemma BatchRunExact(db: Db, run: RunId, requested: seq<TraceId>, w: World, t: TraceId, m: Metric)
    requires run in db.runs
    ensures
      var task := Task(run, Unique(requested), map[]);
      var f := Finished(db, task, w);
      && run in f.runs && f.runs[run].status == Completed && f.runs[run].evaluated == |Unique(requested)|
      && Count(f.scores, run, t, m)
         == (if t in requested && t in w.found then Occurrences(m, db.runs[run].metricNames) else 0)
  {
    var task, wanted := Task(run, Unique(requested), map[]), Occurrences(m, db.runs[run].metricNames);
    assert MetricsFor(task, db.runs[run], t) == db.runs[run].metricNames;
    CheckpointShows(db, task, w, |task.traceIds|, t, m);
    assert task.traceIds[..|task.traceIds|] == task.traceIds;
    DistinctOccurrences(t, task.traceIds);
    OnceOrNever(t in requested && t in w.found, wanted);
  }

  lemma OnceOrNever(once: bool, wanted: nat)
    ensures (if once then 1 else 0) * wanted == if once then wanted else 0
  {
  }

  // -- Retry of failed scores --------------------------------------------------

  datatype Prepared = Prepared(totalTargets: nat, traceIds: seq<TraceId>, metricMap: map<TraceId, seq<Metric>>)

  datatype PrepareError = RunNotFound | NothingToRetry

  /** FAILED scores that belong to the run. */
  function FailedScores(scores: seq<Score>, run: RunId): seq<Score> {
    if scores == [] then []
    else
      var s := scores[|scores| - 1];
      FailedScores(scores[..|scores| - 1], run)
      + if s.run == run && s.status == ScoreStatus.Failed then [s] else []
  }

  /** Exactly the FAILED scores of that run. */
  lemma {:induction false} FailedScoresAre(scores: seq<Score>, run: RunId)
    ensures forall s :: s in FailedScores(scores, run) <==> s in scores && s.run == run && s.status == ScoreStatus.Failed
  {
    if scores != [] {
      FailedScoresAre(scores[..|scores| - 1], run);
      assert scores == scores[..|scores| - 1] + [scores[|scores| - 1]];
    }
  }

  /** The run holds a FAILED score for that trace and metric. */
  ghost predicate FailedPair(db: Db, run: RunId, t: TraceId, m: Metric) {
    exists s :: s in db.scores && s.run == run && s.status == ScoreStatus.Failed && s.trace == t && s.metric == m
  }

  lemma FailedPairs(db: Db, run: RunId)
    ensures forall t, m :: HasPair(FailedScores(db.scores, run), t, m) <==> FailedPair(db, run, t, m)
    ensures forall m :: HasMetric(FailedScores(db.scores, run), m) <==> exists t :: FailedPair(db, run, t, m)
  {
    FailedScoresAre(db.scores, run);
    var failed := FailedScores(db.scores, run);
    forall t, m ensures HasPair(failed, t, m) <==> FailedPair(db, run, t, m) {
      if HasPair(failed, t, m) {
        var i :| 0 <= i < |failed| && failed[i].trace == t && failed[i].metric == m;
        assert failed[i] in failed;
      }
      if FailedPair(db, run, t, m) {
        var s :| s in db.scores && s.run == run && s.status == ScoreStatus.Failed && s.trace == t && s.metric == m;
        assert s in failed;
      }
    }
    forall m ensures HasMetric(failed, m) <==> exists t :: FailedPair(db, run, t, m) {
      if HasMetric(failed, m) {
        var i :| 0 <= i < |failed| && failed[i].metric == m;
        assert HasPair(failed, failed[i].trace, m);
      }
      if t :| FailedPair(db, run, t, m) { assert HasPair(failed, t, m); }
    }
  }

  ghost predicate HasPair(scores: seq<Score>, t: TraceId, m: Metric) {
    exists i :: 0 <= i < |scores| && scores[i].trace == t && scores[i].metric == m
  }

  /** The map lists, once each, exactly the failed metrics of exactly the failed traces. */
  ghost predicate ListsPairs(ids: seq<TraceId>, metricMap: map<TraceId, seq<Metric>>, failed: seq<Score>) {
    && Distinct(ids)
    && (forall t :: t in ids <==> t in metricMap)
    && (forall t :: t in metricMap ==> Distinct(metricMap[t]) && metricMap[t] != [])
    && (forall t, m :: HasPair(failed, t, m) <==> t in metricMap && m in metricMap[t])
  }

  lemma HasPairAppend(scores: seq<Score>, s: Score)
    ensures forall t, m :: HasPair(scores + [s], t, m) <==> HasPair(scores, t, m) || (s.trace == t && s.metric == m)
  {
    var all := scores + [s];
    forall t, m
      ensures HasPair(all, t, m) <==> HasPair(scores, t, m) || (s.trace == t && s.metric == m)
    {
      if i :| 0 <= i < |scores| && scores[i].trace == t && scores[i].metric == m {
        assert all[i].trace == t && all[i].metric == m;
      }
      if s.trace == t && s.metric == m { assert all[|scores|] == s; }
    }
  }

  /** Groups the failed metrics by trace, in the order in which traces first appear. */
  method GroupFailed(failed: seq<Score>) returns (ids: seq<TraceId>, metricMap: map<TraceId, seq<Metric>>)
    ensures ListsPairs(ids, metricMap, failed)
  {
    ids, metricMap := [], map[];
    for i := 0 to |failed|
      invariant ListsPairs(ids, metricMap, failed[..i])
    {
      var s := failed[i];
      ghost var ids0, map0 := ids, metricMap;
      var names: seq<Metric> := [];
      if s.trace in metricMap {
        names := metricMap[s.trace];
      } else {
        ids := ids + [s.trace];
      }
      if s.metric !in names {
        names := names + [s.metric];
      }
      metricMap := metricMap[s.trace := names];
      assert failed[..i + 1] == failed[..i] + [s];
      HasPairAppend(failed[..i], s);
      GroupStep(ids0, map0, failed[..i], s, ids, names);
    }
    assert failed[..|failed|] == failed;
  }

  lemma GroupStep(ids: seq<TraceId>, metricMap: map<TraceId, seq<Metric>>, failed: seq<Score>, s: Score,
                  ids': seq<TraceId>, names: seq<Metric>)
    requires ListsPairs(ids, metricMap, failed)
    requires ids' == if s.trace in metricMap then ids else ids + [s.trace]
    requires var before := if s.trace in metricMap then metricMap[s.trace] else [];
             names == if s.metric in before then before else before + [s.metric]
    ensures ListsPairs(ids', metricMap[s.trace := names], failed + [s])
  {
    HasPairAppend(failed, s);
    assert forall t :: t in ids' <==> t in ids || t == s.trace;
    assert forall m :: m in names <==> m == s.metric || (s.trace in metricMap && m in metricMap[s.trace]);
  }

  // -- The retry's run row -----------------------------------------------------

  /** Python's order of strings, by the first character that differs. */
  predicate Precedes(x: string, y: string) {
    if y == [] then false
    else x == [] || x[0] < y[0] || (x[0] == y[0] && Precedes(x[1..], y[1..]))
  }

  /** `x` is a proper beginning of `y`, or smaller at the first place where they differ. */
  lemma {:induction false} PrecedesIs(x: string, y: string)
    ensures Precedes(x, y) <==>
              exists k :: 0 <= k <= |x| && k < |y| && x[..k] == y[..k] && (k == |x| || x[k] < y[k])
  {
    if x != [] && y != [] {
      PrecedesIs(x[1..], y[1..]);
      if x[0] == y[0] {
        if k :| 0 <= k <= |x[1..]| && k < |y[1..]| && x[1..][..k] == y[1..][..k] && (k == |x[1..]| || x[1..][k] < y[1..][k]) {
          assert x[..k + 1] == [x[0]] + x[1..][..k] && y[..k + 1] == [y[0]] + y[1..][..k];
        }
        if k :| 0 <= k <= |x| && k < |y| && x[..k] == y[..k] && (k == |x| || x[k] < y[k]) {
          assert k > 0 && x[1..][..k - 1] == x[..k][1..] && y[1..][..k - 1] == y[..k][1..];
        }
      } else if x[0] < y[0] {
        assert x[..0] == y[..0];
      } else if k :| 0 <= k <= |x| && k < |y| && x[..k] == y[..k] && (k == |x| || x[k] < y[k]) {
        assert k > 0 ==> x[..k][0] == y[..k][0];
      }
    } else if y != [] {
      assert x[..0] == y[..0];
    }
  }

  lemma {:induction false} PrecedesTotal(x: string, y: string)
    ensures x == y || Precedes(x, y) || Precedes(y, x)
  {
    if x != [] && y != [] && x[0] == y[0] {
      PrecedesTotal(x[1..], y[1..]);
      assert x == [x[0]] + x[1..] && y == [y[0]] + y[1..];
    }
  }

  lemma {:induction false} PrecedesTransitive(x: string, y: string, z: string)
    requires Precedes(x, y) && Precedes(y, z)
    ensures Precedes(x, z)
  {
    if x != [] && y[0] == x[0] && z[0] == y[0] { PrecedesTransitive(x[1..], y[1..], z[1..]); }
  }

  ghost predicate Ascending(names: seq<Metric>) {
    forall i, j :: 0 <= i < j < |names| ==> Precedes(names[i], names[j])
  }

  /** Puts a name in its place, once. */
  function Insert(names: seq<Metric>, m: Metric): (r: seq<Metric>)
    requires Ascending(names)
    ensures Ascending(r)
    ensures forall x :: x in r <==> x in names || x == m
  {
    if names == [] || Precedes(names[|names| - 1], m) then
      AscendingAppend(names, m);
      names + [m]
    else
      var init, last := names[..|names| - 1], names[|names| - 1];
      assert names == init + [last];
      if last == m then names
      else
        PrecedesTotal(last, m);
        var r := Insert(init, m);
        AscendingAppend(r, last);
        r + [last]
  }

  lemma AscendingAppend(names: seq<Metric>, m: Metric)
    requires Ascending(names)
    requires names == [] || Precedes(names[|names| - 1], m) || forall x :: x in names ==> Precedes(x, m)
    ensures Ascending(names + [m])
  {
    forall i | 0 <= i < |names| ensures Precedes(names[i], m) {
      assert names[i] in names;
      if i < |names| - 1 && !Precedes(names[i], m) { PrecedesTransitive(names[i], names[|names| - 1], m); }
    }
  }

  /** All failed metric names, sorted, each once. */
  method MetricNames(failed: seq<Score>) returns (names: seq<Metric>)
    ensures Ascending(names)
    ensures forall m :: m in names <==> HasMetric(failed, m)
  {
    names := [];
    for i := 0 to |failed|
      invariant Ascending(names)
      invariant forall m :: m in names <==> HasMetric(failed[..i], m)
    {
      assert failed[..i + 1] == failed[..i] + [failed[i]];
      HasMetricAppend(failed[..i], failed[i]);
      names := Insert(names, failed[i].metric);
    }
    assert failed[..|failed|] == failed;
  }

  ghost predicate HasMetric(failed: seq<Score>, m: Metric) {
    exists i :: 0 <= i < |failed| && failed[i].metric == m
  }

  lemma HasMetricAppend(failed: seq<Score>, s: Score)
    ensures forall m :: HasMetric(failed + [s], m) <==> HasMetric(failed, m) || s.metric == m
  {
    var all := failed + [s];
    forall m ensures HasMetric(all, m) <==> HasMetric(failed, m) || s.metric == m {
      if i :| 0 <= i < |failed| && failed[i].metric == m { assert all[i].metric == m; }
      if s.metric == m { assert all[|failed|] == s; }
    }
  }

  /** What the retry of `run` must list: exactly its failed pairs, each once. */
  ghost predicate RetriesFailed(db: Db, run: RunId, prepared: Prepared) {
    && Distinct(prepared.traceIds) && prepared.totalTargets == |prepared.traceIds| > 0
    && (forall t :: t in prepared.traceIds <==> t in prepared.metricMap)
    && (forall t :: t in prepared.metricMap ==> Distinct(prepared.metricMap[t]))
    && (forall t, m :: t in prepared.metricMap && m in prepared.metricMap[t] <==> FailedPair(db, run, t, m))
    && (forall t :: t in prepared.metricMap ==> exists m :: FailedPair(db, run, t, m))
  }

  lemma ListedAreFailed(db: Db, run: RunId, ids: seq<TraceId>, metricMap: map<TraceId, seq<Metric>>)
    requires ListsPairs(ids, metricMap, FailedScores(db.scores, run)) && FailedScores(db.scores, run) != []
    ensures RetriesFailed(db, run, Prepared(|ids|, ids, metricMap))
  {
    var failed := FailedScores(db.scores, run);
    FailedPairs(db, run);
    assert HasPair(failed, failed[0].trace, failed[0].metric);
    assert failed[0].trace in ids;
    forall t | t in metricMap ensures exists m :: FailedPair(db, run, t, m) {
      assert metricMap[t][0] in metricMap[t] && HasPair(failed, t, metricMap[t][0]);
    }
  }

  /** Adds the retry's run row, uncommitted, and describes its job; the original run is only read. */
  method PrepareRetryFailedRun(db: Db, run: RunId, retry: RunId) returns (r: Result<Prepared, PrepareError>, after: Db)
    requires retry !in db.runs
    ensures r == Err(PrepareError.RunNotFound) <==> run !in db.runs
    ensures r == Err(NothingToRetry) <==> run in db.runs && forall t, m :: !FailedPair(db, run, t, m)
    ensures r.Err? ==> after == db
    ensures r.Ok? ==> RetriesFailed(db, run, r.value)
    ensures r.Ok? ==>
              && retry in after.runs
              && after == db.(runs := db.runs[retry := RunRow(Pending, 0, 0, None, after.runs[retry].metricNames)])
              && Ascending(after.runs[retry].metricNames)
              && forall m :: m in after.runs[retry].metricNames <==> exists t :: FailedPair(db, run, t, m)
  {
    after := db;
    if run !in db.runs { return Err(PrepareError.RunNotFound), db; }
    var failed := FailedScores(db.scores, run);
    FailedPairs(db, run);
    if failed == [] { return Err(NothingToRetry), db; }
    assert HasPair(failed, failed[0].trace, failed[0].metric);
    var ids, metricMap := GroupFailed(failed);
    ListedAreFailed(db, run, ids, metricMap);
    var names := MetricNames(failed);
    after := db.(runs := db.runs[retry := RunRow(Pending, 0, 0, None, names)]);
    r := Ok(Prepared(|ids|, ids, metricMap));
  }

  /** The traces of `run` with a failed score. */
  function FailedTraces(db: Db, run: RunId): set<TraceId> {
    set s | s in db.scores && s.run == run && s.status == ScoreStatus.Failed :: s.trace
  }

  lemma RetryTotal(db: Db, run: RunId, prepared: Prepared)
    requires RetriesFailed(db, run, prepared)
    ensures prepared.totalTargets == |FailedTraces(db, run)|
  {
    var ids := prepared.traceIds;
    forall u ensures u in ids <==> u in FailedTraces(db, run) {
      if u in ids { var n :| FailedPair(db, run, u, n); }
      if s :| s in db.scores && s.run == run && s.status == ScoreStatus.Failed && s.trace == u {
        assert FailedPair(db, run, u, s.metric);
      }
    }
    DistinctSize(ids, FailedTraces(db, run));
  }

  lemma RetryAsks(db: Db, run: RunId, prepared: Prepared, row: RunRow, retry: RunId, t: TraceId, m: Metric)
    requires RetriesFailed(db, run, prepared)
    ensures
      var task := Task(retry, prepared.traceIds, prepared.metricMap);
      && (t in prepared.traceIds ==> MetricsFor(task, row, t) == prepared.metricMap[t])
      && Occurrences(t, prepared.traceIds) * Occurrences(m, MetricsFor(task, row, t)) == if FailedPair(db, run, t, m) then 1 else 0
  {
    DistinctOccurrences(t, prepared.traceIds);
    if t in prepared.traceIds {
      DistinctOccurrences(m, prepared.metricMap[t]);
    } else {
      MulZero(Occurrences(m, row.metricNames));
    }
  }

  /**
   The prepared retry, executed on any later database that holds its run: it attempts exactly the
   failed pairs of the original whose traces still exist, once each; its announced total is the number
   of distinct failed traces, and where its progress ends; the fallback to the run's own metric names
   is never taken, so any names may stand there.
   */
  lemma RetryExact(db: Db, run: RunId, prepared: Prepared, later: Db, retry: RunId, w: World, t: TraceId, m: Metric)
    requires RetriesFailed(db, run, prepared) && retry in later.runs
    ensures
      var task := Task(retry, prepared.traceIds, prepared.metricMap);
      var f := Finished(later, task, w);
      && retry in f.runs && f.runs[retry].status == Completed
      && f.runs[retry].evaluated == prepared.totalTargets == |FailedTraces(db, run)|
      && Count(f.scores, retry, t, m) == (if FailedPair(db, run, t, m) && t in w.found then 1 else 0)
      && (t in prepared.traceIds ==> MetricsFor(task, later.runs[retry], t) == prepared.metricMap[t])
      && (forall r: RunId :: r != retry ==> OfRun(f.scores, r) == OfRun(later.scores, r))
  {
    var ids := prepared.traceIds;
    var task := Task(retry, ids, prepared.metricMap);
    RetryTotal(db, run, prepared);
    RetryAsks(db, run, prepared, later.runs[retry], retry, t, m);
    CheckpointShows(later, task, w, |ids|, t, m);
    assert ids[..|ids|] == ids;
    MulZero(Occurrences(m, MetricsFor(task, later.runs[retry], t)));
  }
}
