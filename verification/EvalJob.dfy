/**
 The job runner and the database together: what a job's status says about the scores its run holds
 (backend/app/infrastructure/local_tasks/runner.py and run_eval_run in handlers.py).
 */
module EvalJob {
  import opened Wrappers
  import opened Collections
  import opened EvalRun
  import opened JobRunner

  /**
   The job/run system, the database, and the attempt in hand: the database as that attempt found it,
   the traces and metric results it meets, and how often it has committed.
   */
  datatype Machine = Machine(sys: System, db: Db, found: Db, world: World, commits: nat)

  datatype Act =
    | Take(world: World)                       // a claim, and the world its attempt meets
    | Commit                                   // the handler's next commit
    | Leave                                    // the handler returns
    | Break(outcome: Outcome)                  // it raises or times out
    | Mark(written: bool, message: string)     // fail_eval_run
    | Conclude                                 // the job update
    | Lose                                     // the job update raises
    | Die                                      // the process restarts
    | Wait(later: Time)

  /** The setup commit, one for each trace, and the final one. */
  function AllCommits(task: Task): nat {
    |task.traceIds| + 2
  }

  /** The move of the job/run system that the handler's `n`-th commit makes, if it makes one. */
  function AfterCommit(s: System, task: Task, n: nat): System {
    if n == 1 then Next(s, SetupCommit) else if n == AllCommits(task) then Next(s, FinalCommit) else s
  }

  function Do(m: Machine, task: Task, act: Act): Machine {
    match act
    case Take(world) =>
      var s := Next(m.sys, Claim);
      if s == m.sys then m else Machine(s, m.db, m.db, world, 0)
    case Commit =>
      if m.sys.phase == Handling && m.commits < AllCommits(task) && task.run in m.found.runs then
        var n := m.commits + 1;
        m.(commits := n, db := Committed(m.found, task, m.world, n), sys := AfterCommit(m.sys, task, n))
      else m
    case Leave => if m.commits == AllCommits(task) then m.(sys := Next(m.sys, Return)) else m
    case Break(outcome) => m.(sys := Next(m.sys, Stop(outcome)))
    case Mark(written, message) =>
      if m.sys.phase.Failing?
      then m.(sys := Next(m.sys, MarkRun(written)), db := if written then FailEvalRun(m.db, task.run, message) else m.db)
      else m
    case Conclude => m.(sys := Next(m.sys, Settle))
    case Lose => m.(sys := Next(m.sys, WriteLost))
    case Die => m.(sys := Next(m.sys, Restart))
    case Wait(later) => m.(sys := Next(m.sys, Tick(later)))
  }

  function DoAll(m: Machine, task: Task, acts: seq<Act>): Machine {
    if acts == [] then m else Do(DoAll(m, task, acts[..|acts| - 1]), task, acts[|acts| - 1])
  }

  /** The run exists, PENDING, and its job has just been queued. */
  ghost predicate JustDispatched(m: Machine, task: Task) {
    Dispatched(m.sys) && task.run in m.db.runs && m.db.runs[task.run].status == Pending
  }

  /** How job, worker and database hang together at every step. */
  ghost predicate Tied(m: Machine, task: Task, first: Db) {
    && IsEval(m.sys.job)
    && SameOutside(m.db, first, task.run) && m.db.runs[task.run].status == m.sys.run
    && (m.sys.phase != Idle ==> m.sys.job.status == InProgress)
    && (m.sys.phase.Failing? || m.sys.phase.Settling? ==> m.sys.phase.outcome != Finishes)
    && (m.sys.phase == Handling ==>
          && SameOutside(m.found, first, task.run) && m.commits <= AllCommits(task)
          && m.db == Committed(m.found, task, m.world, m.commits))
    && (m.sys.phase == Succeeded || m.sys.job.status == Done ==> m.db == Finished(first, task, m.world))
  }

  lemma CommittedOutside(found: Db, first: Db, task: Task, w: World, n: nat)
    requires SameOutside(found, first, task.run)
    ensures SameOutside(Committed(found, task, w, n), first, task.run)
  {
    DisturbStaysOutside(found, task, Attempt(w, n));
    var c := Committed(found, task, w, n);
    forall r | r in c.runs && r != task.run ensures c.runs[r] == first.runs[r] {
      assert r in found.runs;
    }
  }

  /** The status that a commit leaves in the row. */
  lemma CommittedStatus(found: Db, task: Task, w: World, n: nat)
    requires task.run in found.runs && 0 < n <= AllCommits(task)
    ensures task.run in Committed(found, task, w, n).runs
    ensures Committed(found, task, w, n).runs[task.run].status == if n == AllCommits(task) then Completed else Running
  {
    CheckpointRows(found, task, w, if n == AllCommits(task) then |task.traceIds| else n - 1);
  }

  lemma CommitTied(m: Machine, task: Task, first: Db)
    requires Tied(m, task, first)
    ensures Tied(Do(m, task, Commit), task, first)
  {
    if m.sys.phase == Handling && m.commits < AllCommits(task) {
      var n := m.commits + 1;
      CommittedOutside(m.found, first, task, m.world, n);
      CommittedStatus(m.found, task, m.world, n);
      if m.commits > 0 { CommittedStatus(m.found, task, m.world, m.commits); }
    }
  }

  lemma LeaveTied(m: Machine, task: Task, first: Db)
    requires Tied(m, task, first)
    ensures Tied(Do(m, task, Leave), task, first)
  {
    if m.sys.phase == Handling && m.commits == AllCommits(task) {
      SameCheckpoints(m.found, first, task, m.world, |task.traceIds|);
    }
  }

  lemma MarkTied(m: Machine, task: Task, first: Db, written: bool, message: string)
    requires Tied(m, task, first)
    ensures Tied(Do(m, task, Mark(written, message)), task, first)
  {
    if m.sys.phase.Failing? && written {
      DisturbStaysOutside(m.db, task, MarkedFailed(message));
      var d := FailEvalRun(m.db, task.run, message);
      forall r | r in d.runs && r != task.run ensures d.runs[r] == first.runs[r] {
        assert r in m.db.runs;
      }
    }
  }

  lemma ConcludeTied(m: Machine, task: Task, first: Db)
    requires Tied(m, task, first)
    ensures Tied(Do(m, task, Conclude), task, first)
  {
  }

  lemma TakeTied(m: Machine, task: Task, first: Db, world: World)
    requires Tied(m, task, first)
    ensures Tied(Do(m, task, Take(world)), task, first)
  {
  }

  lemma DoTied(m: Machine, task: Task, first: Db, act: Act)
    requires Tied(m, task, first)
    ensures Tied(Do(m, task, act), task, first)
  {
    match act
    case Commit => CommitTied(m, task, first);
    case Leave => LeaveTied(m, task, first);
    case Mark(written, message) => MarkTied(m, task, first, written, message);
    case Conclude => ConcludeTied(m, task, first);
    case Take(world) => TakeTied(m, task, first, world);
    case _ =>
  }

  lemma {:induction false} AlwaysTied(m: Machine, task: Task, acts: seq<Act>)
    requires JustDispatched(m, task)
    ensures Tied(DoAll(m, task, acts), task, m.db)
  {
    if acts != [] {
      AlwaysTied(m, task, acts[..|acts| - 1]);
      DoTied(DoAll(m, task, acts[..|acts| - 1]), task, m.db, acts[|acts| - 1]);
    }
  }

  /**
   Over every sequence of claims, commits, errors, timeouts, lost writes, retries and restarts: once
   the job is COMPLETED, the database is as after one clean attempt that met the last attempt's world,
   and at every moment everything outside the run is as it was.
   */
  lemma DoneMeansFinished(m: Machine, task: Task, acts: seq<Act>)
    requires JustDispatched(m, task)
    ensures
      var n := DoAll(m, task, acts);
      && SameOutside(n.db, m.db, task.run) && n.db.runs[task.run].status == n.sys.run
      && (n.sys.job.status == Done ==> n.db == Finished(m.db, task, n.world))
  {
    AlwaysTied(m, task, acts);
  }

  /** For distinct ids and metrics a COMPLETED job has left exactly one score for each pair it found. */
  lemma DoneScores(m: Machine, task: Task, acts: seq<Act>, t: TraceId, metric: Metric)
    requires JustDispatched(m, task) && Distinct(task.traceIds)
    requires Distinct(MetricsFor(task, m.db.runs[task.run], t))
    ensures
      var n, row := DoAll(m, task, acts), m.db.runs[task.run];
      n.sys.job.status == Done ==>
        && task.run in n.db.runs && n.db.runs[task.run].evaluated == |task.traceIds|
        && Count(n.db.scores, task.run, t, metric)
           == (if t in task.traceIds && t in n.world.found && metric in MetricsFor(task, row, t) then 1 else 0)
  {
    DoneMeansFinished(m, task, acts);
    FinishedExactly(m.db, task, DoAll(m, task, acts).world, t, metric);
  }

  lemma DoConsistent(m: Machine, task: Task, act: Act)
    requires Consistent(m.sys) && (act.Mark? ==> act.written)
    ensures Consistent(Do(m, task, act).sys)
  {
    match act
    case Take(_) => StepConsistent(m.sys, Claim);
    case Commit =>
      StepConsistent(m.sys, SetupCommit);
      StepConsistent(m.sys, FinalCommit);
    case Leave => StepConsistent(m.sys, Return);
    case Break(outcome) => StepConsistent(m.sys, Stop(outcome));
    case Mark(_, _) => StepConsistent(m.sys, MarkRun(true));
    case Conclude => StepConsistent(m.sys, Settle);
    case Lose => StepConsistent(m.sys, WriteLost);
    case Die => StepConsistent(m.sys, Restart);
    case Wait(later) => StepConsistent(m.sys, Tick(later));
  }

  lemma {:induction false} AlwaysConsistent(m: Machine, task: Task, acts: seq<Act>)
    requires Dispatched(m.sys)
    requires forall i :: 0 <= i < |acts| && acts[i].Mark? ==> acts[i].written
    ensures Consistent(DoAll(m, task, acts).sys)
  {
    if acts != [] {
      var init := acts[..|acts| - 1];
      assert forall i :: 0 <= i < |init| ==> init[i] == acts[i];
      AlwaysConsistent(m, task, init);
      DoConsistent(DoAll(m, task, init), task, acts[|acts| - 1]);
    }
  }

  /** While failure marks are written, the row of a FAILED or waiting job's run reads FAILED. */
  lemma FailedMeansFailed(m: Machine, task: Task, acts: seq<Act>)
    requires JustDispatched(m, task)
    requires forall i :: 0 <= i < |acts| && acts[i].Mark? ==> acts[i].written
    ensures
      var n := DoAll(m, task, acts);
      && task.run in n.db.runs
      && (n.sys.job.status == Dead || n.sys.job.status == Retrying ==> n.db.runs[task.run].status == RunStatus.Failed)
      && (n.sys.job.status == Done ==> n.db.runs[task.run].status == Completed)
  {
    AlwaysTied(m, task, acts);
    AlwaysConsistent(m, task, acts);
  }
}
