/**
 The durable job runner: claiming, executing, retrying and recovering jobs, the rate limit and the
 retry delays (backend/app/infrastructure/local_tasks/runner.py and definitions.py, with the row
 updates of backend/app/infrastructure/db/repositories/local_job_repo.py).
 */
module JobRunner {
  import opened Wrappers
  import opened EvalRun

  type Time = real

  /** PENDING, RUNNING, RETRY, COMPLETED and FAILED; renamed because eval runs use the same words. */
  datatype JobStatus = Queued | InProgress | Retrying | Done | Dead

  datatype Job = Job(
    task: string, status: JobStatus, attempts: nat, maxRetries: nat, retryDelay: nat,
    availableAt: Time, error: Option<string>, runId: Option<RunId>)

  datatype Definition = Definition(
    maxRetries: nat, retryDelay: nat, retryOnTimeout: bool := false, backoff: bool := false,
    backoffMax: Option<nat> := None, minInterval: Option<real> := None)

  const EVAL := Definition(2, 10)
  const DISPATCHER := Definition(0, 0)
  const OUTBOUND := Definition(3, 1, retryOnTimeout := true, backoff := true, backoffMax := Some(600), minInterval := Some(0.5))

  const TASK_DEFINITIONS: map<string, Definition> := map[
    "process_trace" := Definition(3, 5),
    "execute_eval_run" := EVAL,
    "execute_session_eval_run" := EVAL,
    "check_eval_monitors" := DISPATCHER,
    "process_single_monitor" := Definition(2, 30),
    "dispatch_overage_billing" := DISPATCHER,
    "bill_single_org" := Definition(2, 15, retryOnTimeout := true),
    "dispatch_hobby_reset" := DISPATCHER,
    "reset_single_hobby_org" := Definition(2, 10, retryOnTimeout := true),
    "expire_stale_invitations" := DISPATCHER,
    "send_welcome_email" := OUTBOUND,
    "send_followup_email" := OUTBOUND,
    "send_invitation_email" := OUTBOUND,
    "sync_new_user_to_crm" := OUTBOUND]

  predicate IsEval(job: Job) {
    job.task == "execute_eval_run" || job.task == "execute_session_eval_run"
  }

  predicate Terminal(job: Job) {
    job.status == Done || job.status == Dead
  }

  // -- Retry delays ------------------------------------------------------------

  function Pow2(n: nat): nat {
    if n == 0 then 1 else 2 * Pow2(n - 1)
  }

  function Delay(base: nat, d: Option<Definition>, attempts: nat): nat {
    if d.None? || !d.value.backoff then base
    else
      var delay := base * Pow2(if attempts > 0 then attempts - 1 else 0);
      if d.value.backoffMax.Some? && d.value.backoffMax.value < delay then d.value.backoffMax.value else delay
  }

  function DefinitionOf(task: string): Option<Definition> {
    if task in TASK_DEFINITIONS then Some(TASK_DEFINITIONS[task]) else None
  }

  function RetryDelaySeconds(job: Job): nat {
    Delay(job.retryDelay, DefinitionOf(job.task), job.attempts)
  }

  lemma {:induction false} Pow2Grows(m: nat, n: nat)
    requires m <= n
    ensures 1 <= Pow2(m) <= Pow2(n)
    decreases n
  {
    if m < n { Pow2Grows(m, n - 1); } else if m > 0 { Pow2Grows(m - 1, n - 1); }
  }

  /** Delays never decrease with attempts and stay within the cap. */
  lemma DelaysGrow(base: nat, d: Definition, m: nat, n: nat)
    requires m <= n
    ensures Delay(base, Some(d), m) <= Delay(base, Some(d), n)
    ensures d.backoff && d.backoffMax.Some? ==> Delay(base, Some(d), n) <= d.backoffMax.value
  {
    var i, j: nat := if m > 0 then m - 1 else 0, if n > 0 then n - 1 else 0;
    Pow2Grows(i, j);
    MulMonotone(base, Pow2(i), Pow2(j));
  }

  /** The first retry waits the base delay and each later one twice as long, up to the cap. */
  lemma DelayDoubles(base: nat, d: Definition, n: nat)
    requires d.backoff && n > 0
    ensures
      var cap := d.backoffMax;
      && Delay(base, Some(d), 1) == (if cap.Some? && cap.value < base then cap.value else base)
      && Delay(base, Some(d), n + 1)
         == (if cap.Some? && cap.value < 2 * Delay(base, Some(d), n) then cap.value else 2 * Delay(base, Some(d), n))
  {
    assert Pow2(n) == 2 * Pow2(n - 1);
    Twice(base, Pow2(n - 1));
    assert Pow2(0) == 1 && base * 1 == base;
  }

  lemma Twice(base: nat, p: nat)
    ensures base * (2 * p) == 2 * (base * p)
  {
  }

  /** Tasks without backoff, and unknown ones, wait the job's own delay each time. */
  lemma ConstantDelay(base: nat, d: Option<Definition>, n: nat)
    requires d.Some? ==> !d.value.backoff
    ensures Delay(base, d, n) == base
  {
  }

  lemma MulMonotone(k: nat, x: nat, y: nat)
    requires x <= y
    ensures k * x <= k * y
  {
  }

  lemma Doubling(base: nat, p: nat)
    ensures base * (2 * p - 1) == base * (p - 1) + base * p
  {
  }

  lemma OneMore(n: nat, cap: nat)
    requires n > 0
    ensures n * cap == (n - 1) * cap + cap
  {
  }

  /** Total waiting before the first `n` retries, which follow attempts 1 to n. */
  function TotalDelay(base: nat, d: Definition, n: nat): nat {
    if n == 0 then 0 else TotalDelay(base, d, n - 1) + Delay(base, Some(d), n)
  }

  lemma {:induction false} TotalDelayBound(base: nat, d: Definition, n: nat)
    requires d.backoff
    ensures TotalDelay(base, d, n) <= base * (Pow2(n) - 1)
    ensures d.backoffMax.Some? ==> TotalDelay(base, d, n) <= n * d.backoffMax.value
    ensures d.backoffMax.None? ==> TotalDelay(base, d, n) == base * (Pow2(n) - 1)
  {
    if n > 0 {
      TotalDelayBound(base, d, n - 1);
      Doubling(base, Pow2(n - 1));
      DelaysGrow(base, d, n, n);
      if d.backoffMax.Some? { OneMore(n, d.backoffMax.value); }
    }
  }

  // -- One execution -----------------------------------------------------------

  datatype Outcome = Finishes | Raises(message: string) | TimesOut

  function Claimed(job: Job): Job {
    job.(status := InProgress, attempts := job.attempts + 1)
  }

  function Requeued(job: Job, now: Time, message: string): Job {
    job.(status := Retrying, availableAt := now + RetryDelaySeconds(job) as real, error := Some(message))
  }

  function AfterError(job: Job, now: Time, message: string): Job {
    if job.attempts <= job.maxRetries then Requeued(job, now, message)
    else job.(status := Dead, error := Some(message))
  }

  function AfterTimeout(job: Job, now: Time, message: string): Job {
    if job.attempts <= job.maxRetries && DefinitionOf(job.task).Some? && DefinitionOf(job.task).value.retryOnTimeout
    then Requeued(job, now, message)
    else job.(status := Dead, error := Some(message))
  }

  const TIMEOUT_MESSAGE := "Task exceeded its time limit."

  /** A claimed job after its handler came to an end. */
  function Settled(job: Job, outcome: Outcome, now: Time): Job {
    if DefinitionOf(job.task).None? then job.(status := Dead, error := Some("Unknown local task: " + job.task))
    else
      match outcome
      case Finishes => job.(status := Done, error := None)
      case Raises(message) => AfterError(job, now, message)
      case TimesOut => AfterTimeout(job, now, TIMEOUT_MESSAGE)
  }

  function Recovered(job: Job, now: Time): Job {
    if job.status == InProgress then job.(status := Queued, availableAt := now) else job
  }

  /** The tasks that run an evaluation are those registered with its retry settings. */
  lemma EvalTasks(job: Job)
    ensures IsEval(job) <==> job.task in TASK_DEFINITIONS && TASK_DEFINITIONS[job.task] == Definition(2, 10)
  {
  }

  /** The registered tasks whose time-outs are retried. */
  const RETRY_TIMEOUTS := {"bill_single_org", "reset_single_hobby_org", "send_welcome_email", "send_followup_email",
                           "send_invitation_email", "sync_new_user_to_crm"}

  /**
   How an execution ends a registered job: an error is retried while attempts allow, a time-out only for
   the tasks above; a retry waits its delay; the message is kept until the job completes.
   */
  lemma SettledExactly(job: Job, outcome: Outcome, now: Time)
    requires job.task in TASK_DEFINITIONS
    ensures
      var after := Settled(job, outcome, now);
      var retried := job.attempts <= job.maxRetries && (outcome.Raises? || (outcome.TimesOut? && job.task in RETRY_TIMEOUTS));
      && (after.status == Done <==> outcome == Finishes)
      && (after.status == Retrying <==> retried)
      && (after.status == Dead <==> outcome != Finishes && !retried)
      && (retried ==> after.availableAt == now + RetryDelaySeconds(job) as real)
      && (after.error == None <==> outcome == Finishes)
      && (outcome.Raises? ==> after.error == Some(outcome.message))
      && after.attempts == job.attempts && after.task == job.task && after.runId == job.runId
  {
    assert job.task in RETRY_TIMEOUTS <==> TASK_DEFINITIONS[job.task].retryOnTimeout;
  }

  /** Dispatchers are executed once; every other registered task may be retried two or three times. */
  lemma RegisteredRetryCounts(task: string)
    requires task in TASK_DEFINITIONS
    ensures TASK_DEFINITIONS[task].maxRetries == 0 <==>
              task in {"check_eval_monitors", "dispatch_overage_billing", "dispatch_hobby_reset", "expire_stale_invitations"}
    ensures TASK_DEFINITIONS[task].maxRetries == 3 <==>
              task in {"process_trace", "send_welcome_email", "send_followup_email", "send_invitation_email", "sync_new_user_to_crm"}
    ensures TASK_DEFINITIONS[task].maxRetries in {0, 2, 3}
    ensures IntervalOf(task).Some? <==> TASK_DEFINITIONS[task].backoff
    ensures IntervalOf(task).Some? ==> IntervalOf(task).value == 0.5
  {
  }

  /** The seconds before a first retry, and which tasks wait longer each time, at most ten minutes. */
  lemma RegisteredDelays(task: string)
    requires task in TASK_DEFINITIONS && TASK_DEFINITIONS[task].maxRetries > 0
    ensures
      var d := TASK_DEFINITIONS[task];
      && (d.retryDelay == 1 <==> d.backoff) && (d.backoff <==> d.backoffMax == Some(600))
      && (d.retryDelay == 5 <==> task == "process_trace")
      && (d.retryDelay == 10 <==> task in {"execute_eval_run", "execute_session_eval_run", "reset_single_hobby_org"})
      && (d.retryDelay == 15 <==> task == "bill_single_org")
      && (d.retryDelay == 30 <==> task == "process_single_monitor")
      && d.retryDelay in {1, 5, 10, 15, 30}
  {
  }

  function InterruptedJobs(jobs: seq<Job>): nat {
    if jobs == [] then 0
    else InterruptedJobs(jobs[..|jobs| - 1]) + if jobs[|jobs| - 1].status == InProgress then 1 else 0
  }

  // -- Every job ends ----------------------------------------------------------

  /** Executions that a job still has in it when nothing interrupts it. */
  function Remaining(job: Job): nat {
    if Terminal(job) then 0
    else if job.attempts <= job.maxRetries then job.maxRetries + 1 - job.attempts
    else 1
  }

  /** Claims and executes a waiting job once for each outcome; a terminal job is never claimed. */
  function Executed(job: Job, outcomes: seq<Outcome>, now: Time): Job {
    if outcomes == [] then job
    else
      var before := Executed(job, outcomes[..|outcomes| - 1], now);
      if Terminal(before) then before else Settled(Claimed(before), outcomes[|outcomes| - 1], now)
  }

  lemma {:induction false} RemainingDecreases(job: Job, outcomes: seq<Outcome>, now: Time)
    requires job.status == Queued || job.status == Retrying
    ensures
      var after := Executed(job, outcomes, now);
      && after.status != InProgress
      && (Terminal(after) || Remaining(after) + |outcomes| == Remaining(job))
      && after.attempts <= job.attempts + Remaining(job)
      && after.attempts <= job.attempts + |outcomes|
      && after.maxRetries == job.maxRetries
      && (!Terminal(after) && outcomes != [] ==> after.attempts <= after.maxRetries)
  {
    if outcomes != [] {
      RemainingDecreases(job, outcomes[..|outcomes| - 1], now);
    }
  }

  /** Whatever its handler does, an uninterrupted job is terminal after at most max_retries + 1 executions. */
  lemma EveryJobEnds(job: Job, outcomes: seq<Outcome>, now: Time)
    requires job.status == Queued && job.attempts == 0 && |outcomes| == job.maxRetries + 1
    ensures Terminal(Executed(job, outcomes, now))
    ensures Executed(job, outcomes, now).attempts <= job.maxRetries + 1
  {
    RemainingDecreases(job, outcomes, now);
  }

  /** A job interrupted after its last allowed attempt gets exactly one more execution. */
  lemma InterruptedJobEnds(job: Job, outcomes: seq<Outcome>, now: Time)
    requires job.status == InProgress && |outcomes| == Remaining(Recovered(job, now))
    ensures Terminal(Executed(Recovered(job, now), outcomes, now))
    ensures job.attempts > job.maxRetries ==> |outcomes| == 1
  {
    RemainingDecreases(Recovered(job, now), outcomes, now);
  }

  /** A job as enqueue_registered_job stores it. */
  function NewJob(task: string, now: Time, runId: Option<RunId>): Job
    requires task in TASK_DEFINITIONS
  {
    var d := TASK_DEFINITIONS[task];
    Job(task, Queued, 0, d.maxRetries, d.retryDelay, now, None, runId)
  }

  lemma RegisteredRetries(task: string)
    requires task in TASK_DEFINITIONS
    ensures TASK_DEFINITIONS[task].maxRetries <= 3
    ensures TASK_DEFINITIONS[task].backoff ==> TASK_DEFINITIONS[task] == OUTBOUND
  {
  }

  /** Any registered job is done or dead after at most four executions; the backed-off ones wait seven seconds in all. */
  lemma RegisteredJobEnds(task: string, now: Time, runId: Option<RunId>, outcomes: seq<Outcome>)
    requires task in TASK_DEFINITIONS && |outcomes| == TASK_DEFINITIONS[task].maxRetries + 1
    ensures Terminal(Executed(NewJob(task, now, runId), outcomes, now))
    ensures Executed(NewJob(task, now, runId), outcomes, now).attempts <= 4
    ensures TASK_DEFINITIONS[task].backoff ==>
              TotalDelay(TASK_DEFINITIONS[task].retryDelay, TASK_DEFINITIONS[task], TASK_DEFINITIONS[task].maxRetries) <= 7
  {
    EveryJobEnds(NewJob(task, now, runId), outcomes, now);
    RegisteredRetries(task);
    if TASK_DEFINITIONS[task].backoff {
      TotalDelayBound(1, OUTBOUND, 3);
      assert Pow2(3) == 2 * Pow2(2) && Pow2(2) == 2 * Pow2(1) && Pow2(1) == 2 * Pow2(0);
    }
  }

  // -- The runner and an eval run, step by step ---------------------------------

  /** Where the single worker stands. */
  datatype Phase = Idle | Handling | Succeeded | Failing(outcome: Outcome) | Settling(outcome: Outcome)

  /**
   One eval job, the run it executes and the worker. `interrupts` counts the restarts that found
   the job IN PROGRESS.
   */
  datatype System = System(job: Job, run: RunStatus, phase: Phase, interrupts: nat, now: Time)

  datatype Move =
    | Claim
    | SetupCommit                  // the handler's first commit: run RUNNING
    | FinalCommit                  // its last: run COMPLETED
    | Return                       // the handler returns
    | Stop(outcome: Outcome)       // it raises or times out, before or after any commit
    | MarkRun(written: bool)       // fail_eval_run, whose own failure is swallowed
    | Settle                       // retry scheduled, or job marked failed or completed
    | WriteLost                    // that job update raises and the worker goes on
    | Restart                      // the process dies; start() recovers
    | Tick(later: Time)

  function Next(s: System, m: Move): System {
    match m
    case Claim =>
      if s.phase == Idle && (s.job.status == Queued || s.job.status == Retrying) && s.job.availableAt <= s.now
      then s.(job := Claimed(s.job), phase := Handling) else s
    case SetupCommit => if s.phase == Handling then s.(run := Running) else s
    case FinalCommit => if s.phase == Handling && s.run == Running then s.(run := Completed) else s
    case Return => if s.phase == Handling && (IsEval(s.job) ==> s.run == Completed) then s.(phase := Succeeded) else s
    case Stop(outcome) => if s.phase == Handling && outcome != Finishes then s.(phase := Failing(outcome)) else s
    case MarkRun(written) =>
      if s.phase.Failing?
      then s.(phase := Settling(s.phase.outcome), run := if written && IsEval(s.job) then RunStatus.Failed else s.run)
      else s
    case Settle =>
      if s.phase == Succeeded then s.(job := Settled(s.job, Finishes, s.now), phase := Idle)
      else if s.phase.Settling? then s.(job := Settled(s.job, s.phase.outcome, s.now), phase := Idle)
      else s
    case WriteLost => if s.phase == Succeeded || s.phase.Settling? then s.(phase := Idle) else s
    case Restart =>
      s.(job := Recovered(s.job, s.now), phase := Idle,
         interrupts := s.interrupts + if s.job.status == InProgress then 1 else 0)
    case Tick(later) => if later > s.now then s.(now := later) else s
  }

  function Play(s: System, moves: seq<Move>): System {
    if moves == [] then s else Next(Play(s, moves[..|moves| - 1]), moves[|moves| - 1])
  }

  /** A job of any task as it is enqueued. */
  predicate Enqueued(s: System) {
    s.job.status == Queued && s.job.attempts == 0 && s.phase == Idle && s.interrupts == 0
  }

  /** An eval run as dispatch_run leaves it: committed PENDING, its job queued. */
  predicate Dispatched(s: System) {
    Enqueued(s) && IsEval(s.job) && s.run == Pending
  }

  /** How far job, run and worker agree at every step. */
  ghost predicate Consistent(s: System) {
    && IsEval(s.job)
    && (s.phase != Idle ==> s.job.status == InProgress)
    && (s.phase == Succeeded ==> s.run == Completed)
    && (s.phase.Failing? ==> s.phase.outcome != Finishes)
    && (s.phase.Settling? ==> s.run == RunStatus.Failed && s.phase.outcome != Finishes)
    && (s.job.status == Done ==> s.run == Completed)
    && (s.job.status == Dead || s.job.status == Retrying ==> s.run == RunStatus.Failed)
  }

  ghost predicate WithinAttempts(s: System) {
    if s.job.status == Queued || s.job.status == Retrying
    then s.job.attempts <= s.job.maxRetries + s.interrupts
    else s.job.attempts <= s.job.maxRetries + 1 + s.interrupts
  }

  lemma StepConsistent(s: System, m: Move)
    requires Consistent(s) && (m.MarkRun? ==> m.written)
    ensures Consistent(Next(s, m))
  {
    assert IsEval(s.job) ==> DefinitionOf(s.job.task).Some?;
  }

  /**
   While run-status writes succeed, over every sequence of errors, timeouts, lost job updates,
   retries and restarts: a COMPLETED job has a COMPLETED run, a FAILED or RETRY job a FAILED run,
   and no run is left RUNNING by a terminal job.
   */
  lemma {:induction false} JobAndRunAgree(s: System, moves: seq<Move>)
    requires Dispatched(s)
    requires forall i :: 0 <= i < |moves| && moves[i].MarkRun? ==> moves[i].written
    ensures Consistent(Play(s, moves))
    ensures Terminal(Play(s, moves).job) ==> Play(s, moves).run != Running && Play(s, moves).run != Pending
  {
    if moves != [] {
      var init := moves[..|moves| - 1];
      assert forall i :: 0 <= i < |init| ==> init[i] == moves[i];
      JobAndRunAgree(s, init);
      StepConsistent(Play(s, init), moves[|moves| - 1]);
    }
  }

  /**
   A lost failure mark breaks the agreement exactly when the run was not FAILED before: the job
   then retries or dies beside whatever status the handler had committed.
   */
  lemma LostMark(s: System)
    requires Consistent(s) && s.phase.Failing?
    ensures
      var after := Next(Next(s, MarkRun(false)), Settle);
      && after.run == s.run
      && (after.job.status == Dead || after.job.status == Retrying)
      && (Consistent(after) <==> s.run == RunStatus.Failed)
  {
    assert IsEval(s.job) ==> DefinitionOf(s.job.task).Some?;
  }

  /** A job is executed at most max_retries + 1 times, plus once for each restart that interrupted it. */
  lemma {:induction false} ExecutionBound(s: System, moves: seq<Move>)
    requires Enqueued(s)
    ensures WithinAttempts(Play(s, moves))
    ensures Play(s, moves).job.attempts <= s.job.maxRetries + 1 + Play(s, moves).interrupts
    ensures Play(s, moves).job.maxRetries == s.job.maxRetries
  {
    if moves != [] { ExecutionBound(s, moves[..|moves| - 1]); }
  }

  lemma {:induction false} PlayAppend(s: System, first: seq<Move>, later: seq<Move>)
    ensures Play(s, first + later) == Play(Play(s, first), later)
  {
    if later == [] {
      assert first + later == first;
    } else {
      assert (first + later)[..|first + later| - 1] == first + later[..|later| - 1];
      PlayAppend(s, first, later[..|later| - 1]);
    }
  }

  lemma PlayThree(s: System, x: Move, y: Move, z: Move)
    ensures Play(s, [x, y, z]) == Next(Next(Next(s, x), y), z)
  {
    assert [x, y, z][..2] == [x, y] && [x, y][..1] == [x] && [x][..0] == [];
    assert Play(s, [x, y]) == Next(Play(s, [x]), y);
    assert Play(s, [x]) == Next(Play(s, []), x);
  }

  /** A job of the same task and limit, waiting to be claimed. */
  ghost predicate Waits(s: System, job: Job, attempts: nat, interrupts: nat) {
    && s.phase == Idle && (s.job.status == Queued || s.job.status == Retrying)
    && s.job.attempts == attempts && s.interrupts == interrupts
    && s.job.maxRetries == job.maxRetries && s.job.task == job.task
  }

  /** `s` can come to wait with that many attempts and interrupts behind it. */
  ghost predicate Reaches(s: System, attempts: nat, interrupts: nat) {
    exists moves :: Waits(Play(s, moves), s.job, attempts, interrupts)
  }

  /** Waits until the job is ready and claims it. */
  lemma Claims(s: System, job: Job, attempts: nat, interrupts: nat)
    requires Waits(s, job, attempts, interrupts)
    ensures
      var c := Next(Next(s, Tick(s.job.availableAt)), Claim);
      && c.phase == Handling && c.job.status == InProgress && c.job.attempts == attempts + 1
      && c.interrupts == interrupts && c.job.maxRetries == job.maxRetries && c.job.task == job.task
  {
  }

  /** The handler raises with an attempt to spare: the job waits again. */
  lemma FailedRound(s: System, job: Job, attempts: nat, interrupts: nat)
    requires Waits(s, job, attempts, interrupts) && attempts < job.maxRetries && DefinitionOf(job.task).Some?
    ensures
      Waits(Play(Play(s, [Tick(s.job.availableAt), Claim, Stop(Raises("error"))]), [MarkRun(true), Settle]),
            job, attempts + 1, interrupts)
  {
    Claims(s, job, attempts, interrupts);
    PlayThree(s, Tick(s.job.availableAt), Claim, Stop(Raises("error")));
    var t := Play(s, [Tick(s.job.availableAt), Claim, Stop(Raises("error"))]);
    assert [MarkRun(true), Settle][..1] == [MarkRun(true)] && [MarkRun(true)][..0] == [];
    assert Play(t, [MarkRun(true)]) == Next(Play(t, []), MarkRun(true));
    assert Play(t, [MarkRun(true), Settle]) == Next(Play(t, [MarkRun(true)]), Settle);
  }

  lemma {:induction false} ReachesRetries(s: System, k: nat)
    requires Enqueued(s) && DefinitionOf(s.job.task).Some? && k <= s.job.maxRetries
    ensures Reaches(s, k, 0)
  {
    if k == 0 {
      assert Waits(Play(s, []), s.job, 0, 0);
    } else {
      ReachesRetries(s, k - 1);
      var moves :| Waits(Play(s, moves), s.job, k - 1, 0);
      var t := Play(s, moves);
      FailedRound(t, s.job, k - 1, 0);
      var round := [Tick(t.job.availableAt), Claim, Stop(Raises("error"))];
      PlayAppend(s, moves, round);
      PlayAppend(s, moves + round, [MarkRun(true), Settle]);
      assert Waits(Play(s, moves + round + [MarkRun(true), Settle]), s.job, k, 0);
    }
  }

  lemma {:induction false} ReachesInterrupts(s: System, n: nat)
    requires Enqueued(s) && DefinitionOf(s.job.task).Some?
    ensures Reaches(s, s.job.maxRetries + n, n)
  {
    if n == 0 {
      ReachesRetries(s, s.job.maxRetries);
    } else {
      ReachesInterrupts(s, n - 1);
      var moves :| Waits(Play(s, moves), s.job, s.job.maxRetries + n - 1, n - 1);
      var t := Play(s, moves);
      Claims(t, s.job, s.job.maxRetries + n - 1, n - 1);
      PlayThree(t, Tick(t.job.availableAt), Claim, Restart);
      PlayAppend(s, moves, [Tick(t.job.availableAt), Claim, Restart]);
      assert Waits(Play(s, moves + [Tick(t.job.availableAt), Claim, Restart]), s.job, s.job.maxRetries + n, n);
    }
  }

  /**
   The bound is met for every registered job and every number of interrupting restarts: the retries
   fail first, and each restart then interrupts an execution that no attempt was left for.
   */
  lemma ExecutionBoundIsTight(s: System, n: nat)
    requires Enqueued(s) && DefinitionOf(s.job.task).Some?
    ensures exists moves :: Play(s, moves).interrupts == n && Play(s, moves).job.attempts == s.job.maxRetries + 1 + n
  {
    ReachesInterrupts(s, n);
    var moves :| Waits(Play(s, moves), s.job, s.job.maxRetries + n, n);
    var t := Play(s, moves);
    Claims(t, s.job, s.job.maxRetries + n, n);
    PlayThree(t, Tick(t.job.availableAt), Claim, Claim);
    PlayAppend(s, moves, [Tick(t.job.availableAt), Claim, Claim]);
    assert Play(s, moves + [Tick(t.job.availableAt), Claim, Claim]).interrupts == n;
  }

  /** A waiting job is not executed before its time, whatever happens. */
  lemma {:induction false} NeverEarly(s: System, moves: seq<Move>)
    requires s.phase == Idle && (s.job.status == Queued || s.job.status == Retrying)
    ensures
      var t := Play(s, moves);
      t.now < s.job.availableAt ==> t.job == s.job && t.phase == Idle
  {
    if moves != [] { NeverEarly(s, moves[..|moves| - 1]); }
  }

  /** An interrupted job can be claimed again at once, as a new one can; its attempts are kept. */
  lemma ReadyAtOnce(s: System)
    requires s.job.status == InProgress
    ensures
      var t := Next(Next(s, Restart), Claim);
      t.job.status == InProgress && t.phase == Handling && t.job.attempts == s.job.attempts + 1
  {
  }

  lemma NewJobReady(task: string, now: Time, runId: Option<RunId>)
    requires task in TASK_DEFINITIONS
    ensures
      var s := System(NewJob(task, now, runId), Pending, Idle, 0, now);
      Enqueued(s) && Next(s, Claim).phase == Handling && s.job.runId == runId && s.job.task == task
      && s.job.maxRetries == TASK_DEFINITIONS[task].maxRetries
  {
  }

  /** Nothing changes a job once it is terminal. */
  lemma {:induction false} TerminalForever(s: System, moves: seq<Move>)
    requires Terminal(s.job) && s.phase == Idle
    ensures Play(s, moves).job == s.job && Play(s, moves).run == s.run && Play(s, moves).phase == Idle
  {
    if moves != [] { TerminalForever(s, moves[..|moves| - 1]); }
  }

  /** The run-status moves made by an attempt that commits `n` times. */
  function CommitMoves(task: Task, n: nat): seq<Move> {
    if n == 0 then []
    else if n <= |task.traceIds| + 1 then [SetupCommit]
    else [SetupCommit, FinalCommit]
  }

  /** The handler's commits take the run row through exactly the steps of the system. */
  lemma CommitsAreMoves(s: System, db: Db, task: Task, w: World, n: nat)
    requires s.phase == Handling && task.run in db.runs && db.runs[task.run].status == s.run
    ensures task.run in Committed(db, task, w, n).runs
    ensures Play(s, CommitMoves(task, n)) == s.(run := Committed(db, task, w, n).runs[task.run].status)
  {
    assert Play(s, []) == s;
    if n > 0 {
      CheckpointRows(db, task, w, if n <= |task.traceIds| + 1 then n - 1 else |task.traceIds|);
      assert [SetupCommit][..0] == [] && [SetupCommit, FinalCommit][..1] == [SetupCommit];
      assert Play(s, [SetupCommit]) == s.(run := Running);
    }
  }

  // -- The runner ----------------------------------------------------------------

  /** Start times of one task within one process life, oldest first: the minimum interval apart. */
  ghost predicate Spaced(starts: seq<Time>, interval: real) {
    forall i :: 0 < i < |starts| ==> starts[i] - starts[i - 1] >= interval
  }

  lemma {:induction false} SpacedSpan(starts: seq<Time>, interval: real)
    requires starts != [] && Spaced(starts, interval)
    ensures starts[|starts| - 1] - starts[0] >= (|starts| - 1) as real * interval
  {
    if |starts| > 1 {
      var init := starts[..|starts| - 1];
      SpacedSpan(init, interval);
      var n := |starts| - 1;
      assert starts[n] - starts[n - 1] >= interval;
      assert n as real * interval == (n - 1) as real * interval + interval;
    }
  }

  /** The log of starts agrees with the last start times and keeps every task's interval. */
  ghost predicate Logged(starts: map<string, seq<Time>>, lastStarted: map<string, Time>, now: Time) {
    && starts.Keys == lastStarted.Keys
    && forall t :: t in starts ==> LoggedTask(t, starts[t], lastStarted[t], now)
  }

  ghost predicate LoggedTask(task: string, starts: seq<Time>, last: Time, now: Time) {
    && starts != [] && starts[|starts| - 1] == last <= now
    && (IntervalOf(task).Some? ==> Spaced(starts, IntervalOf(task).value))
  }

  function IntervalOf(task: string): Option<real> {
    if task in TASK_DEFINITIONS then TASK_DEFINITIONS[task].minInterval else None
  }

  /** Enough time has passed since the last start. */
  predicate MayStart(task: string, lastStarted: map<string, Time>, now: Time) {
    IntervalOf(task).Some? && task in lastStarted ==> now - lastStarted[task] >= IntervalOf(task).value
  }

  lemma LogStart(starts: map<string, seq<Time>>, lastStarted: map<string, Time>, now: Time, task: string)
    requires Logged(starts, lastStarted, now) && MayStart(task, lastStarted, now)
    ensures Logged(starts[task := (if task in starts then starts[task] else []) + [now]], lastStarted[task := now], now)
  {
    var before := if task in starts then starts[task] else [];
    if task in starts && IntervalOf(task).Some? {
      SpacedAppend(before, IntervalOf(task).value, now);
    }
    assert LoggedTask(task, before + [now], now, now);
  }

  lemma SpacedAppend(starts: seq<Time>, interval: real, t: Time)
    requires starts != [] && Spaced(starts, interval) && t - starts[|starts| - 1] >= interval
    ensures Spaced(starts + [t], interval)
  {
  }

  /** In one process, n starts of a rate-limited task span at least n - 1 of its intervals. */
  lemma StartsSpan(runner: LocalTaskRunner, task: string)
    requires runner.Valid() && task in runner.starts && IntervalOf(task).Some?
    ensures
      var starts, interval := runner.starts[task], IntervalOf(task).value;
      starts != [] && starts[|starts| - 1] - starts[0] >= (|starts| - 1) as real * interval
  {
    SpacedSpan(runner.starts[task], IntervalOf(task).value);
  }

  class LocalTaskRunner {
    var jobs: seq<Job>                      // oldest first
    var runs: map<RunId, RunStatus>
    var lastStarted: map<string, Time>
    var now: Time
    var polling: bool
    ghost var starts: map<string, seq<Time>>  // every start since the process began

    ghost predicate Valid()
      reads this
    {
      Logged(starts, lastStarted, now)
    }

    /** A new process: nothing started yet. */
    constructor (jobs: seq<Job>, runs: map<RunId, RunStatus>, now: Time)
      ensures Valid() && !polling && starts == map[]
      ensures this.jobs == jobs && this.runs == runs && this.now == now
    {
      this.jobs, this.runs, this.now := jobs, runs, now;
      lastStarted, starts, polling := map[], map[], false;
    }

    /** Queues the jobs found in progress again, with their attempts kept, and counts them. */
    method RecoverRunning() returns (recovered: nat)
      modifies this`jobs
      ensures |jobs| == |old(jobs)| && recovered == InterruptedJobs(old(jobs))
      ensures forall i :: 0 <= i < |jobs| ==> jobs[i] == Recovered(old(jobs)[i], now)
    {
      recovered := 0;
      for i := 0 to |jobs|
        invariant |jobs| == |old(jobs)| && recovered == InterruptedJobs(old(jobs)[..i])
        invariant forall k :: 0 <= k < i ==> jobs[k] == Recovered(old(jobs)[k], now)
        invariant forall k :: i <= k < |jobs| ==> jobs[k] == old(jobs)[k]
      {
        if jobs[i].status == InProgress { recovered := recovered + 1; }
        jobs := jobs[i := Recovered(jobs[i], now)];
        assert old(jobs)[..i + 1][..i] == old(jobs)[..i];
      }
      assert old(jobs)[..|jobs|] == old(jobs);
    }

    /**
     Recovers interrupted jobs and polls; a runner that is polling already does nothing. Start times
     outlive a stop, so the intervals hold across it.
     */
    method Start() returns (recovered: nat)
      requires Valid()
      modifies this`jobs, this`polling
      ensures Valid() && polling
      ensures old(polling) ==> recovered == 0 && jobs == old(jobs)
      ensures !old(polling) ==>
                && recovered == InterruptedJobs(old(jobs)) && |jobs| == |old(jobs)|
                && forall i :: 0 <= i < |jobs| ==> jobs[i] == Recovered(old(jobs)[i], now) && jobs[i].status != InProgress
    {
      if polling { return 0; }
      recovered := RecoverRunning();
      polling := true;
    }

    /** Stops polling; a job that was being executed stays in progress for the next start. */
    method Stop()
      requires Valid()
      modifies this`polling
      ensures Valid() && !polling
    {
      polling := false;
    }

    predicate Ready(job: Job)
      reads this`now
    {
      (job.status == Queued || job.status == Retrying) && job.availableAt <= now
    }

    /** Claims the oldest ready job, if there is one. */
    method ClaimNext() returns (claimed: Option<nat>)
      modifies this`jobs
      ensures claimed.None? ==>
                && jobs == old(jobs)
                && forall i :: 0 <= i < |jobs| ==>
                     jobs[i].status == InProgress || jobs[i].status == Done || jobs[i].status == Dead || jobs[i].availableAt > now
      ensures claimed.Some? ==>
                && claimed.value < |old(jobs)|
                && (old(jobs)[claimed.value].status == Queued || old(jobs)[claimed.value].status == Retrying)
                && old(jobs)[claimed.value].availableAt <= now
                && (forall i :: 0 <= i < claimed.value ==>
                      var j := old(jobs)[i]; j.status == InProgress || j.status == Done || j.status == Dead || j.availableAt > now)
                && jobs == old(jobs)[claimed.value :=
                     old(jobs)[claimed.value].(status := InProgress, attempts := old(jobs)[claimed.value].attempts + 1)]
    {
      for i := 0 to |jobs|
        invariant jobs == old(jobs)
        invariant forall j :: 0 <= j < i ==> !Ready(jobs[j])
      {
        if Ready(jobs[i]) {
          jobs := jobs[i := Claimed(jobs[i])];
          return Some(i);
        }
      }
      claimed := None;
    }

    /** Sleeps out the rest of the interval; `oversleep` is how late the loop wakes. */
    method WaitForTaskRateLimit(task: string, oversleep: Time)
      requires Valid() && oversleep >= 0.0
      modifies this`now
      ensures Valid() && now >= old(now)
      ensures MayStart(task, lastStarted, now)
    {
      if IntervalOf(task).None? { return; }
      if task !in lastStarted { return; }
      var remaining := IntervalOf(task).value - (now - lastStarted[task]);
      if remaining > 0.0 {
        now := now + remaining + oversleep;
      }
    }

    method RecordStart(task: string)
      requires Valid() && MayStart(task, lastStarted, now)
      modifies this`lastStarted, this`starts
      ensures Valid()
      ensures lastStarted == old(lastStarted)[task := now]
      ensures starts == old(starts)[task := (if task in old(starts) then old(starts)[task] else []) + [now]]
    {
      LogStart(starts, lastStarted, now, task);
      lastStarted := lastStarted[task := now];
      starts := starts[task := (if task in starts then starts[task] else []) + [now]];
    }

    /** Marks the run FAILED when the payload names one and the write succeeds. */
    method FailEvalRun(i: nat, written: bool)
      requires i < |jobs|
      modifies this`runs
      ensures runs == if IsEval(jobs[i]) && jobs[i].runId.Some? && jobs[i].runId.value in old(runs) && written
                      then old(runs)[jobs[i].runId.value := RunStatus.Failed] else old(runs)
    {
      if !IsEval(jobs[i]) || jobs[i].runId.None? { return; }
      if written && jobs[i].runId.value in runs {
        runs := runs[jobs[i].runId.value := RunStatus.Failed];
      }
    }

    method HandleError(i: nat, message: string, written: bool)
      requires i < |jobs|
      modifies this`jobs, this`runs
      ensures jobs == old(jobs)[i := AfterError(old(jobs)[i], now, message)]
      ensures runs == if IsEval(old(jobs)[i]) && old(jobs)[i].runId.Some? && old(jobs)[i].runId.value in old(runs) && written
                      then old(runs)[old(jobs)[i].runId.value := RunStatus.Failed] else old(runs)
    {
      FailEvalRun(i, written);
      var job := jobs[i];
      if job.attempts <= job.maxRetries {
        var availableAt := now + RetryDelaySeconds(job) as real;
        jobs := jobs[i := job.(status := Retrying, availableAt := availableAt, error := Some(message))];
      } else {
        jobs := jobs[i := job.(status := Dead, error := Some(message))];
      }
    }

    method HandleTimeout(i: nat, message: string, written: bool)
      requires i < |jobs| && jobs[i].task in TASK_DEFINITIONS
      modifies this`jobs, this`runs
      ensures jobs == old(jobs)[i := AfterTimeout(old(jobs)[i], now, message)]
      ensures runs == if IsEval(old(jobs)[i]) && old(jobs)[i].runId.Some? && old(jobs)[i].runId.value in old(runs) && written
                      then old(runs)[old(jobs)[i].runId.value := RunStatus.Failed] else old(runs)
    {
      FailEvalRun(i, written);
      var job := jobs[i];
      if TASK_DEFINITIONS[job.task].retryOnTimeout && job.attempts <= job.maxRetries {
        var availableAt := now + RetryDelaySeconds(job) as real;
        jobs := jobs[i := job.(status := Retrying, availableAt := availableAt, error := Some(message))];
        return;
      }
      jobs := jobs[i := job.(status := Dead, error := Some(message))];
    }

    /**
     Executes a claimed job whose handler takes `duration`, leaves the runs as `left` and ends with
     `outcome`.
     */
    method ExecuteJob(i: nat, outcome: Outcome, left: map<RunId, RunStatus>, duration: Time, oversleep: Time, written: bool)
      requires Valid() && i < |jobs| && jobs[i].status == InProgress && duration >= 0.0 && oversleep >= 0.0
      modifies this
      ensures Valid() && now >= old(now)
      ensures jobs == old(jobs)[i := Settled(old(jobs)[i], outcome, now)]
      ensures old(jobs)[i].task !in TASK_DEFINITIONS ==> runs == old(runs) && starts == old(starts)
      ensures old(jobs)[i].task in TASK_DEFINITIONS ==>
                && runs == (if outcome != Finishes && IsEval(old(jobs)[i]) && old(jobs)[i].runId.Some?
                              && old(jobs)[i].runId.value in left && written
                            then left[old(jobs)[i].runId.value := RunStatus.Failed] else left)
                && old(jobs)[i].task in starts
                && starts == old(starts)[old(jobs)[i].task := starts[old(jobs)[i].task]]
                && |starts[old(jobs)[i].task]| == 1 + if old(jobs)[i].task in old(starts) then |old(starts)[old(jobs)[i].task]| else 0
    {
      var job := jobs[i];
      if job.task !in TASK_DEFINITIONS {
        jobs := jobs[i := job.(status := Dead, error := Some("Unknown local task: " + job.task))];
        return;
      }
      WaitForTaskRateLimit(job.task, oversleep);
      RecordStart(job.task);
      runs := left;
      now := now + duration;
      match outcome
      case Finishes => jobs := jobs[i := job.(status := Done, error := None)];
      case Raises(message) => HandleError(i, message, written);
      case TimesOut => HandleTimeout(i, TIMEOUT_MESSAGE, written);
    }
  }
}
