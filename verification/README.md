# Billing, evaluation runs, jobs, traces and membership: a Dafny model

This project models the five stateful parts of the tracing, evaluation and billing backend and proves
what they keep over whole runs. Each part is written in the source's own form: a service or worker that
updates rows is a class whose methods are proved to leave exactly what a specification function says,
and the laws are lemmas about those functions over every event sequence.

`dafny verify dfyconfig.toml` checks everything (Dafny 4.11).

| files | models |
|---|---|
| `Wrappers`, `Collections` | option and result types, facts about sequences and sets |
| `Plans`, `Ledger`, `Billing`, `BillingLaws`, `SubscriptionLaws` | plan table, Stripe invoice items with idempotency keys, subscription and usage rows, billing jobs and webhooks |
| `EvalRun`, `EvalRetry`, `JobRunner`, `EvalJob` | evaluation runs that commit after each trace, retry of failed scores, the durable job runner around them, and both together |
| `EmbeddingCache` | the bounded LRU cache in front of the embedding model |
| `Spans`, `EventCollector`, `SpanForest` | the capped event collector, parent resolution, re-parenting, and the forest behind the waterfall view |
| `Identity`, `IdentityLaws`, `IdentityRights` | organizations, roles, invitations and seats |

## How to read it

An operation is tied to a specification function, and what that function does is pinned again by laws that
do not name it: on the rows before and after, on the events of a run, or on the input read from outside.

*Billing.* Stripe is the list of invoice items created so far; creating an item whose idempotency key is
known changes nothing. Costs are in tenths of a cent. `OrgBilling` performs each operation and keeps
quotas; jobs and webhooks take a `Fate`: how many items Stripe takes before a call raises, and whether all
that follows goes through. A failed one rolls its rows back and leaves Stripe a prefix of the items, which
is what the event `Crash` stands for in runs. `Step` and `Run` say what events leave behind, and
`BillingLaws` proves things of every `Run`.

The laws come in three strengths. Over any run at all, crashes anywhere: marks and counters never fall,
completed reports never bill a unit twice and never share a key (`MarksNeverFall`, `NoUnitBilledTwice`,
`KeysNeverSwallowCharges`). Over any run with one included amount: the total is the overage up to the mark
and the stray items of interrupted attempts (`ExactTotal`). Over runs in which every event commits (`CleanRun`): the totals are exact
(`Accounted`, `Conservation`); `CrashesLeaveNoTrace` extends this to crashed attempts whose retry follows
before anything else happens. `OwnSecond` says that no other period starts in the same second, which is all
that an idempotency key holds of a period.

*Evaluation.* `EvalSession` has a committed database and a session; any awaited call may be the one that
raises, times out or dies, which drops the session's uncommitted work. `Committed(db, task, w, n)` is the
database after the first `n` commits of an attempt, and `JobRunner.CommitsAreMoves` ties these commits to
the moves of the job/run system. `EvalJob` runs that system and the database together. Job statuses are called Queued, InProgress, Retrying, Done and Dead for
PENDING, RUNNING, RETRY, COMPLETED and FAILED, because runs use the same words.

What a run's commits leave of other runs is said score by score (`SameOthers`, through `OfRun`), and what
they hold is read off the metric results (`Tells`).

*Cache.* Entries are a sequence, oldest first. `FilledShape` is the order argument: before eviction the
cache is the old entries that were not requested, then one entry for each distinct requested text.

*Spans.* `BuildTree` fills heap nodes exactly as `ShownUnder` lists them; the walk that renders the tree
is then reasoned about on values. The proof that each span shows once goes through `Met`: a walk from `y`
shows `x` once for every place at which `y` stands on the parent chain of `x`.

What a span says is read off the stream (`RecordTells`, through `LastAfter`), and where it hangs off the
list of spans (`HangsUnder`, `IsRoot`).

*Identity.* Each request is one transaction; a raised error leaves the rows as they were. Every request of
`IdentityService` keeps `Valid`: rows refer to existing organizations, and no address has two outstanding
invitations to one of them.

## Findings

Where the code does less than its documentation or its evident purpose, the code is kept and the exact
condition is proved.

- A retry in the same period is exact for a category whose item the interrupted attempts created exactly when
  neither its counter nor the point from which it bills, max(mark, included units), has changed since
  (`ReplayExactIff`; `ReplayAfterChange` gives the difference). More usage is billed on top of the old item
  (`CrashThenGrowthDoubleBills`); after a plan change with no new usage the key is known, so the item of
  the old plan stays: too much after an upgrade (`CrashThenUpgradeOverbills`), too little after a downgrade
  (`CrashThenDowngradeUnderbills`). The docstring promises a no-op only for "the same watermark state";
  the key holds the count but neither the mark nor the plan. Over whole runs with one included amount the
  surplus is exactly the stray items, those for counts at which no report completed (`ExactTotal`).
- A request that fails after counting compensates and raises again, and the raised error rolls the
  compensation back with the session. This restores the rows exactly when the counted units were not
  committed; after `dispatch_run` has committed them, a failure to enqueue leaves them counted
  (`FailedRequestRestores`). `DecrementUndoesIncrement` shows what the compensation would have done. For the same
  reason no counter ever falls below its mark.
- A renewal whose overage lock is refused closes the period with exactly the skipped delta unbilled
  (`RenewalClosesPeriod`).
- A cancellation at an instant that already has a usage record rolls its rows back, while the Stripe items
  it created stay.
- Accepting or declining an expired invitation writes EXPIRED and then raises, so the write is rolled back.
- Pending invitations are counted with `expires_at > now` but accepted unless `expires_at < now`. At the very
  instant of expiry an acceptance adds a seat that was not counted (`AcceptSeats`, `FullOrganization`,
  `SeatsOverflowAtExpiry`), and the "already a member" refusal of an acceptance is reached only there
  (`AlreadyMemberUnreachable`, `AlreadyMemberAtExpiry`).
- `embed_texts`, answered in full, ends in a missing key exactly when it had to ask and the distinct texts of
  the call exceed the cache size. An answer of the wrong length raises before eviction, so the cache can
  exceed its bound until the next call that evicts (`CutOffAttempt`, `LongAnswerOverflows`).
- The capped collector keeps the parents of the uncapped one exactly when each of the first 450 runs to
  start finds the last run it lists as an ancestor, among those that start at all, within the first 450
  (`TruncationExact`; without a cap, `First` is all starters). Streams that start ancestors first have that
  property; `ParentLost` is a stream that does not, for every cap.
- A failure mark on an eval run that is itself lost leaves job and run in disagreement exactly when the run
  was not FAILED before (`LostMark`).
- Every interrupt after the last allowed attempt of a job buys one execution more, so the bound of
  `max_retries + 1` plus one for each interrupting restart is met, for any number of them
  (`ExecutionBoundIsTight`).

## Model

| member | source | states |
|---|---|---|
| Billing.OrgBilling.ReportOveragesToStripe | backend/app/services/billing_service.py:254-330 | If Stripe takes every item, the items and then all three marks are as in a completed report; if a call raises, the rows are untouched and Stripe keeps the prefix it took |
| Billing.OrgBilling.LockedReport | backend/app/services/billing_service.py:411-412 | The report under the lock with all that follows it: it goes through exactly when no call of Stripe raises and the rest commits; otherwise the rows are as before and Stripe keeps what it took |
| Billing.OrgBilling.OverageItems | backend/app/services/billing_service.py:275-302 | The items listed are those of the specification, category by category in the fixed order |
| Billing.OrgBilling.SendItems | backend/app/services/billing_service.py:304-312 | Stripe holds what idempotent creation of the accepted prefix gives, and the loop completes exactly when no call raises |
| Billing.OrgBilling.BillSingleOrg | backend/app/infrastructure/local_tasks/handlers.py:645-668 | Skipped without the lock; otherwise it succeeds exactly when Stripe takes every item and the commit goes through, says whether anything was due, and on failure leaves the rows as they were and Stripe its prefix |
| Billing.OrgBilling.IncrementUsage | backend/app/services/usage_service.py:30-69 | The increment succeeds exactly when the subscription is live and the hard limit is not passed, returns the new count, and otherwise leaves no trace, not even the record it opened |
| Billing.OrgBilling.DecrementUsage | backend/app/services/usage_service.py:71-97 | The compensating decrement stops at zero, does nothing without a subscription or record, and nothing when the database raises |
| Billing.OrgBilling.FailRequest | backend/app/api/v1/routes/evaluations.py:494-501 | A request that counts, fails, compensates and raises again ends at its last commit: the counted units stay exactly if they were committed before the failure |
| Billing.OrgBilling.HandleCheckoutCompleted | backend/app/services/billing_service.py:334-369 | A paid subscription is active on Stripe's period, whose record exists; an existing record is kept |
| Billing.OrgBilling.HandleInvoiceCreated | backend/app/services/billing_service.py:371-397 | A last report for a known pay-as-you-go subscription under the lock; when Stripe or the commit raises, the rows are as before and Stripe keeps its prefix |
| Billing.OrgBilling.HandleInvoicePaid | backend/app/services/billing_service.py:399-434 | Report on the ending period, close its record if and only if the invoice is a renewal, keep every other record open or closed as it was, then move to the new period and activate; when anything raises, all of that is undone but for the items Stripe took |
| Billing.OrgBilling.CloseSubscription | backend/app/services/billing_service.py:519-526 | A paying subscription is reported under the lock and its record closed; any other is left; an interruption undoes the rows |
| Billing.OrgBilling.Downgrade | backend/app/services/billing_service.py:528-540 | The HOBBY plan, active, without a Stripe subscription, and a fresh record for thirty days, unless one for that instant exists |
| Billing.OrgBilling.Cancel | backend/app/services/billing_service.py:511-541 | The final report, the close and the downgrade go through together, or the rows roll back and Stripe keeps what it took |
| Billing.OrgBilling.HandleInvoicePaymentFailed | backend/app/services/billing_service.py:436-449 | A known subscription becomes past due and nothing else changes |
| Billing.OrgBilling.HandleSubscriptionUpdated | backend/app/services/billing_service.py:451-509 | Status and cancellation always follow the event; plan and period only where the event names them |
| Billing.OrgBilling.HandleSubscriptionDeleted | backend/app/services/billing_service.py:511-541 | Final report and closing of the paid period, downgrade to HOBBY with a fresh record; a record for that instant or any error undoes the rows, and then only Stripe has changed |
| Billing.OrgBilling.ResetSingleHobbyOrg | backend/app/infrastructure/local_tasks/handlers.py:695-717 | The next thirty-day period with an empty record; fails exactly when that period has a record already |
| Billing.BrokenExactly | backend/app/infrastructure/local_tasks/handlers.py:661-666 | An interruption touches no row, and Stripe only by a prefix of the items that were due |
| Ledger.CreateAllAfterPrefix | backend/app/services/billing_service.py:304-312 | Creating all items after any prefix of them was created gives the same as creating them once |
| Ledger.CreatePrefixTwice | backend/app/services/billing_service.py:304-312 | Two interrupted passes leave what the longer one leaves |
| Ledger.ItemRounding | backend/app/services/billing_service.py:304-305 | The half-up tie never occurs at 0.4 cents a unit, and one item is off by at most 2/5 of a cent |
| Ledger.TotalRounding | backend/app/services/billing_service.py:304-305 | The total of n items is off by at most 2n/5 cents |
| BillingLaws.ReportItemsShape | backend/app/services/billing_service.py:269-302 | A report sends one item for exactly the categories with unreported overage, each with its own key, delta and rounded price |
| BillingLaws.CrashesCollapse | backend/app/services/billing_service.py:254-320 | Any number of crashed reports amounts to the one that got furthest and touches no row |
| BillingLaws.ReplaySafety | backend/app/services/billing_service.py:254-320 | After any crashes, a report run to completion leaves items and rows equal to those of one uninterrupted report |
| BillingLaws.RetriedEvent | backend/app/infrastructure/local_tasks/handlers.py:661-666 | The same holds whichever job or webhook carries the retry |
| BillingLaws.CrashesLeaveNoTrace | backend/app/infrastructure/local_tasks/handlers.py:661-666 | A block of crashed attempts with its completed retry can be struck out of any run without changing where it ends |
| BillingLaws.ReplayAfterChange | backend/app/services/billing_service.py:207-320 | A retry that finds any other counters and plan, whatever Stripe held before: exactly what it is asked for beyond, or short of, the uninterrupted report, category by category |
| BillingLaws.ReplayExactIff | backend/app/services/billing_service.py:225-264 | The retry is exact for a category if and only if the crashes did not create its item, or neither the counter nor max(mark, included) has changed since |
| BillingLaws.CrashThenGrowthDoubleBills | backend/app/services/billing_service.py:304-320 | A concrete run, for every count above the PRO allowance, in which the old overage is billed twice |
| BillingLaws.CrashThenUpgradeOverbills | backend/app/services/billing_service.py:283-311 | A run, for every count above the STARTUP allowance: crash, upgrade, retry; 45,000 included units stay billed |
| BillingLaws.CrashThenDowngradeUnderbills | backend/app/services/billing_service.py:283-311 | A run, for every such count: crash, downgrade, retry; 45,000 units above the allowance are never billed |
| BillingLaws.MarksNeverFall | backend/app/services/billing_service.py:314-320 | Over any run, crashes included, no counter and no high-water mark of a period ever falls |
| BillingLaws.EveryRunAccounted | backend/app/services/billing_service.py:207-320 | Through any upgrades, downgrades, jobs and webhooks, billed units equal the number of distinct unit indices billed, all at or below the mark |
| BillingLaws.NoUnitBilledTwice | backend/app/services/billing_service.py:225-239 | Two different completed reports of any run, interrupted anywhere, never bill the same unit index, whatever plans were in force |
| BillingLaws.KeysNeverSwallowCharges | backend/app/services/billing_service.py:275-312 | Two completed reports of any run, interrupted anywhere, charge a category under different keys |
| BillingLaws.KeysAreNew | backend/app/services/billing_service.py:275-312 | While nothing was interrupted, the key of every due charge is unknown to Stripe |
| BillingLaws.PlanChangesNeverOverbill | backend/app/services/billing_service.py:225-239 | Under changing plans the total billed is at most final count minus the smallest base in force |
| BillingLaws.FixedPlanBillsToMark | backend/app/services/billing_service.py:207-252 | With one base, however the reports split the period, the overage up to the mark is billed, each unit once |
| BillingLaws.Conservation | backend/app/services/billing_service.py:207-252 | After every locked report on an open period, billed units are max(0, count - included) |
| BillingLaws.RenewalClosesPeriod | backend/app/services/billing_service.py:411-431 | The renewal closes the old period, opens the next, and leaves unbilled exactly the delta that a refused lock skipped |
| BillingLaws.ExactTotal | backend/app/services/billing_service.py:207-320 | With one base, over any run with crashes and failed webhooks anywhere, Stripe holds exactly the overage up to the mark and the stray items, those for counts at which no report completed; the total is exact if and only if there is none |
| BillingLaws.NeverUndercharged | backend/app/services/billing_service.py:207-320 | So over any such run Stripe is asked for no less than the overage up to the mark |
| BillingLaws.ReportedInFull | backend/app/services/billing_service.py:207-320 | After a report on the open period that commits, it has been asked for exactly the whole overage and the stray items |
| BillingLaws.ClosedStep | backend/app/services/billing_service.py:221-223 | No event, crashed or not, creates items for a closed period or reopens it |
| BillingLaws.ClosedForever | backend/app/services/billing_service.py:221-223 | Over every run a closed period keeps its items, and its record while it is not current again |
| BillingLaws.EveryRunRounded | backend/app/services/billing_service.py:304-305 | Every item in Stripe carries the half-up rounding of its own units |
| BillingLaws.ChargesNearExactPrice | backend/app/services/billing_service.py:304-305 | After any run the cents charged are within 2/5 of a cent per item of the exact price |
| BillingLaws.QuotaCap | backend/app/services/usage_service.py:41-69 | In every reachable state a plan with hard limits has current counters at or below them, through checkout, updates, resets, crashes and cancellation |
| SubscriptionLaws.ClosedByExactly | backend/app/services/billing_service.py:413-424 | A record becomes billed by a renewal on its period or the end of a paying subscription in it, always then and never otherwise, with the invoice of the renewal |
| SubscriptionLaws.BilledExactly | backend/app/services/billing_service.py:413-424 | Over any run a record is billed exactly if it was, or some event on the way closed it |
| SubscriptionLaws.AddedRecord | backend/app/infrastructure/db/repositories/billing_repo.py:163-195 | A record that an event adds is that of the current period: open, unreported, ending with the subscription's period |
| SubscriptionLaws.FirstMonthIsBilled | backend/app/services/billing_service.py:415-424 | A signup invoice leaves the period it opens open: through any usage, reports and invoices that are no renewal, the next locked report brings what is billed to max(0, count - included) |
| SubscriptionLaws.HobbyGrants | backend/app/services/usage_service.py:41-69 | On HOBBY exactly 100 traces, 100 trace evaluations and 10 session evaluations a month: the last one is granted, the next refused |
| SubscriptionLaws.OthersGrantAll | backend/app/services/usage_service.py:41-69 | A live subscription to any other plan is granted any number |
| SubscriptionLaws.BilledPlans | backend/app/services/billing_service.py:215-217 | No event creates an item for an organization on HOBBY or DEVELOPMENT |
| SubscriptionLaws.StandingStep | backend/app/services/billing_service.py:334-541 | Status, plan, customer and Stripe subscription change only by events about that subscription, and to what each of them says |
| SubscriptionLaws.PastDueExactly | backend/app/services/billing_service.py:436-449 | Over any run a subscription is past due exactly if the last event about it was a failed payment or an update that says so |
| SubscriptionLaws.PeriodStep | backend/app/infrastructure/local_tasks/handlers.py:695-717 | Where the current period lies after each event: as Stripe says, from now for thirty days, or right after the last one |
| BillingLaws.DecrementUndoesIncrement | backend/app/services/usage_service.py:71-97 | By itself the decrement undoes the increment, but for a record opened on the way |
| BillingLaws.FailedRequestRestores | backend/app/services/eval_service.py:169-205 | Count, compensate and raise again, with or without a commit between: the rows end as they began if and only if nothing counted was committed |
| BillingLaws.CounterIsSum | backend/app/services/usage_service.py:41-69 | Over any run a counter has grown by exactly the increments committed to its period, those of requests that failed after their dispatch included |
| EvalRun.EvalSession.RunEvalRun | backend/app/infrastructure/local_tasks/handlers.py:43-175 | An attempt that ends normally leaves the finished database; wherever it stops otherwise, what is committed is one of its checkpoints |
| EvalRun.EvalSession.SetUp | backend/app/infrastructure/local_tasks/handlers.py:87-90 | Old scores, counters and status are cleared in one commit or not at all |
| EvalRun.EvalSession.RunTrace | backend/app/infrastructure/local_tasks/handlers.py:96-169 | One trace's scores and progress are committed together or not at all |
| EvalRun.EvalSession.ScoreTrace | backend/app/infrastructure/local_tasks/handlers.py:108-166 | Every requested metric leaves one score, and the failure counter moves with the failed ones |
| EvalRun.EvalSession.ScoreMetric | backend/app/infrastructure/local_tasks/handlers.py:113-166 | One metric leaves its value as a score, or, when it raises or no score can be built from the value, a FAILED score and one more on the failure counter; an interruption, an error of the database among them, leaves what was committed |
| EvalRun.SetupExactly | backend/app/infrastructure/local_tasks/handlers.py:87-90 | Setup clears the run's own scores and counters and leaves the scores of every other run, in order, and their rows |
| EvalRun.CheckpointRows | backend/app/infrastructure/local_tasks/handlers.py:87-169 | At commit k the run is RUNNING, progress is k, failed_count is the number of FAILED scores of the run, other runs untouched |
| EvalRun.CheckpointScores | backend/app/infrastructure/local_tasks/handlers.py:96-169 | At commit k a pair has one score for each time it was asked for among the first k traces; other runs' scores are kept |
| EvalRun.CheckpointShows | backend/app/infrastructure/local_tasks/handlers.py:87-169 | Both together, at every commit after the setup commit |
| EvalRun.CheckpointTells | backend/app/infrastructure/local_tasks/handlers.py:108-166 | At every commit each score of the run is for a pair that was asked for, and holds the metric's value as SUCCESS, or nothing as FAILED |
| EvalRun.MetricsAsListed | backend/app/infrastructure/local_tasks/handlers.py:105-107 | A trace that the override lists runs the listed metrics, any other the run's own |
| EvalRun.FailureMark | backend/app/infrastructure/local_tasks/handlers.py:178-191 | A failure mark sets the run's status and error and nothing else |
| EvalRun.FinishedExactly | backend/app/infrastructure/local_tasks/handlers.py:96-172 | For distinct ids and metrics a finished run has exactly one score for each found pair, is COMPLETED, and evaluated_count is the number of trace ids |
| EvalRun.DisturbStaysOutside | backend/app/infrastructure/local_tasks/handlers.py:87-191 | An interrupted attempt or a failure mark changes nothing but the run's own scores and row |
| EvalRun.SetupForgets | backend/app/infrastructure/local_tasks/handlers.py:87-90 | Setup leaves nothing of what an earlier attempt did |
| EvalRun.CrashRecovery | backend/app/infrastructure/local_tasks/handlers.py:87-191 | Any number of interrupted attempts and failure marks, with any results, then one complete attempt: the database equals that of the one clean attempt |
| EvalRetry.Unique | backend/app/services/eval_service.py:141 | The ids without repetition, in the order of their first places |
| EvalRetry.BatchRunExact | backend/app/services/eval_service.py:122-167 | A batch run scores each requested, existing trace once for each time a metric is named, and its progress ends at the announced total |
| EvalRetry.GroupFailed | backend/app/services/eval_service.py:244-249 | The map lists, once each, exactly the failed metrics of exactly the failed traces |
| EvalRetry.FailedScoresAre | backend/app/infrastructure/db/repositories/eval_repo.py:318-326 | Exactly the FAILED scores of that run |
| EvalRetry.MetricNames | backend/app/services/eval_service.py:250 | The failed metric names, ascending, each once |
| EvalRetry.PrecedesIs | backend/app/services/eval_service.py:250 | The order of the sorted names: a proper beginning comes first, otherwise the smaller character at the first difference |
| EvalRetry.PrepareRetryFailedRun | backend/app/services/eval_service.py:232-277 | Refused exactly when the run is missing or holds no FAILED score, and then nothing changes; otherwise the job lists exactly the pairs for which the run holds a FAILED score, each once, the total is its number of traces, and one PENDING run with the sorted failed names is added |
| EvalRetry.RetryExact | backend/app/services/eval_service.py:240-277 | The prepared retry scores exactly the original's failed pairs of traces that still exist, once each; the total is the number of distinct failed traces; the fallback to all metrics is never used; every other run keeps its scores |
| JobRunner.LocalTaskRunner.Start | backend/app/infrastructure/local_tasks/runner.py:22-35 | A polling runner does nothing; otherwise exactly the interrupted jobs are queued again, with attempts and start times kept |
| JobRunner.LocalTaskRunner.RecoverRunning | backend/app/infrastructure/db/repositories/local_job_repo.py:139-152 | Jobs in progress are queued again and counted, all others kept |
| JobRunner.LocalTaskRunner.ClaimNext | backend/app/infrastructure/db/repositories/local_job_repo.py:63-85 | The oldest ready job is claimed with one more attempt, or none is ready |
| JobRunner.LocalTaskRunner.WaitForTaskRateLimit | backend/app/infrastructure/local_tasks/runner.py:163-175 | Afterwards the task's minimum interval has passed |
| JobRunner.LocalTaskRunner.RecordStart | backend/app/infrastructure/local_tasks/runner.py:94-95 | Recording a start keeps every task's logged starts an interval apart |
| JobRunner.LocalTaskRunner.ExecuteJob | backend/app/infrastructure/local_tasks/runner.py:83-107 | The job settles as its outcome demands, a failed eval job's run is marked FAILED, one start is logged and the intervals hold; an unknown task only fails |
| JobRunner.LocalTaskRunner.HandleError | backend/app/infrastructure/local_tasks/runner.py:109-133 | Retry while attempts allow, otherwise FAILED; the run is marked first |
| JobRunner.LocalTaskRunner.HandleTimeout | backend/app/infrastructure/local_tasks/runner.py:135-153 | Retry only for tasks that retry timeouts and have attempts left, otherwise FAILED; the run is marked first |
| JobRunner.LocalTaskRunner.FailEvalRun | backend/app/infrastructure/local_tasks/runner.py:155-161 | Only an existing run named by an eval job is marked, and only if the write succeeds |
| JobRunner.DelaysGrow | backend/app/infrastructure/local_tasks/runner.py:177-186 | Delays never decrease with attempts and stay within the cap |
| JobRunner.DelayDoubles | backend/app/infrastructure/local_tasks/runner.py:177-186 | The first retry waits the base delay and each later one twice as long, up to the cap |
| JobRunner.TotalDelayBound | backend/app/infrastructure/local_tasks/runner.py:177-186 | n backed-off retries wait at most min(base * (2^n - 1), n * cap), and exactly the first without a cap |
| JobRunner.SettledExactly | backend/app/infrastructure/local_tasks/runner.py:101-153 | An error is retried while attempts allow, a time-out only for six named tasks; a retry waits its delay; otherwise the job is FAILED; the error stays until completion |
| JobRunner.EvalTasks | backend/app/infrastructure/local_tasks/runner.py:111-112 | The jobs whose runs are marked are those registered with the evaluation settings |
| JobRunner.RegisteredRetryCounts | backend/app/infrastructure/local_tasks/definitions.py:172-303 | Which tasks are never retried, which three times, and which are half a second apart |
| JobRunner.RegisteredDelays | backend/app/infrastructure/local_tasks/definitions.py:172-303 | The first delay of every task, and which of them double it, up to ten minutes |
| JobRunner.NeverEarly | backend/app/infrastructure/db/repositories/local_job_repo.py:63-85 | Until its time has come a waiting job stays as it is, whatever happens |
| JobRunner.ReadyAtOnce | backend/app/infrastructure/db/repositories/local_job_repo.py:139-152 | An interrupted job can be claimed again at once after the restart, its attempts kept |
| JobRunner.RemainingDecreases | backend/app/infrastructure/local_tasks/runner.py:83-153 | Each execution that does not end the job uses up one remaining attempt |
| JobRunner.EveryJobEnds | backend/app/infrastructure/local_tasks/runner.py:83-153 | Whatever the handler does, an uninterrupted job is terminal after at most max_retries + 1 executions |
| JobRunner.InterruptedJobEnds | backend/app/infrastructure/local_tasks/runner.py:22-35 | A recovered job ends within its remaining attempts, or after exactly one more when none remained |
| JobRunner.RegisteredJobEnds | backend/app/infrastructure/local_tasks/definitions.py:172-303 | Every registered job ends within four executions, and backed-off ones wait at most seven seconds in all |
| JobRunner.JobAndRunAgree | backend/app/infrastructure/local_tasks/runner.py:101-161 | While run-status writes succeed, over every sequence of errors, timeouts, lost updates, retries and restarts: COMPLETED with COMPLETED, FAILED or RETRY with FAILED, and no run RUNNING or PENDING beside a terminal job |
| JobRunner.LostMark | backend/app/infrastructure/local_tasks/handlers.py:178-191 | A lost failure mark breaks the agreement exactly when the run was not FAILED before |
| JobRunner.CommitsAreMoves | backend/app/infrastructure/local_tasks/handlers.py:87-172 | The handler's commits take the run row through exactly the moves of the job and run system |
| EvalJob.DoneMeansFinished | backend/app/infrastructure/local_tasks/runner.py:83-153 | Over every sequence of claims, commits, errors, timeouts, lost writes, retries and restarts: once the job is COMPLETED the database is as after one clean attempt that met the last attempt's world; everything outside the run is always as it was |
| EvalJob.DoneScores | backend/app/infrastructure/local_tasks/handlers.py:87-172 | So a COMPLETED job with distinct ids and metrics has left exactly one score for each pair it found |
| EvalJob.FailedMeansFailed | backend/app/infrastructure/local_tasks/runner.py:101-161 | While failure marks are written, the row of a FAILED or waiting job's run reads FAILED, and of a COMPLETED one COMPLETED |
| JobRunner.ExecutionBound | backend/app/infrastructure/local_tasks/runner.py:22-35 | A job is executed at most max_retries + 1 times plus once for each restart that interrupted it |
| JobRunner.ExecutionBoundIsTight | backend/app/infrastructure/local_tasks/runner.py:22-35 | For every registered job and every number n of interrupting restarts some run executes it max_retries + 1 + n times |
| JobRunner.TerminalForever | backend/app/infrastructure/db/repositories/local_job_repo.py:63-152 | Nothing changes a terminal job or its run again |
| JobRunner.StartsSpan | backend/app/infrastructure/local_tasks/runner.py:163-175 | In every state of a runner, the n starts of a rate-limited task span at least n - 1 of its intervals |
| EmbeddingCache.LLMEngine.EmbedTexts | backend/app/infrastructure/llm/engine.py:186-225 | The answer is the plain embedding at every index exactly when nothing is missing, or the API answers one vector for each missing text and the distinct texts fit; each other outcome has its error, and the cache is the specified one in all of them |
| EmbeddingCache.LLMEngine.TouchHits | backend/app/infrastructure/llm/engine.py:207-213 | Hits move to the end in call order, and the misses are those of the cache as it was found |
| EmbeddingCache.LLMEngine.AskApi | backend/app/infrastructure/llm/engine.py:215-223 | A failed request stores nothing; an answer of the wrong length stores what was paired and evicts nothing; a good one stores all and evicts |
| EmbeddingCache.LLMEngine.EvictOldest | backend/app/infrastructure/llm/engine.py:221-223 | The oldest entries beyond the bound go, the others keep their order |
| EmbeddingCache.LLMEngine.ReadAll | backend/app/infrastructure/llm/engine.py:225 | The final read succeeds exactly when every text has an entry, and then gives the true embeddings |
| EmbeddingCache.TouchShape | backend/app/infrastructure/llm/engine.py:209-213 | After the hits moved, the untouched entries come first in their old order, then the hits |
| EmbeddingCache.AssignAllShape | backend/app/infrastructure/llm/engine.py:217-219 | Filling appends each missing text once, repetitions notwithstanding, and moves nothing |
| EmbeddingCache.FilledShape | backend/app/infrastructure/llm/engine.py:207-219 | Before eviction: the entries not requested in old order, then one entry per distinct requested text, all true |
| EmbeddingCache.ReadableIffFits | backend/app/infrastructure/llm/engine.py:207-225 | However large the cache was found, every requested text is readable after an answered call if and only if none was missing or the distinct ones fit |
| EmbeddingCache.RequestedAreMostRecent | backend/app/infrastructure/llm/engine.py:207-223 | When they fit, the requested texts are the most recent entries and eviction dropped only the oldest of the rest |
| EmbeddingCache.AnsweredAttempt | backend/app/infrastructure/llm/engine.py:215-223 | A well-answered call with misses brings the cache within its bound, whatever it was |
| EmbeddingCache.CutOffAttempt | backend/app/infrastructure/llm/engine.py:217-219 | An answer of the wrong length adds exactly one entry for each distinct text it covered |
| EmbeddingCache.EverySequenceSound | backend/app/infrastructure/llm/engine.py:207-225 | Over every sequence of calls from a new engine, failed requests and answers of the wrong length among them, the cache stays unambiguous and true |
| EmbeddingCache.SettledWithinBound | backend/app/infrastructure/llm/engine.py:215-223 | It keeps its bound unless an answer had the wrong length since the last call that evicted |
| EmbeddingCache.LongAnswerOverflows | backend/app/infrastructure/llm/engine.py:217-223 | One answer with a vector too many leaves as many entries as the call had distinct texts, whatever the bound |
| EventCollector.ParseEventNameExact | tools/local_agent_eval.py:312-321 | A name parses to a component and action exactly when it is put together from them |
| EventCollector.TrackedNames | tools/local_agent_eval.py:312-321 | Which event names are listened to, and the kind of span that each is about |
| EventCollector.Collector.HandleEvent | tools/local_agent_eval.py:456-496 | One event records, closes or is ignored as specified |
| EventCollector.Collector.CollectEvents | tools/local_agent_eval.py:452-513 | The loop and the parent resolution give the specified spans, in record order |
| EventCollector.Nearest | tools/local_agent_eval.py:501-508 | The parent found is the last listed ancestor with a record, and none is found only when there is none |
| EventCollector.Payload | tools/local_agent_eval.py:830-860 | The agent span first, every parentless span hung under it, the others as they were |
| EventCollector.CapKeepsPrefix | tools/local_agent_eval.py:463-485 | A smaller cap records a prefix of what a larger one does, with equal records |
| EventCollector.CollectsFirst | tools/local_agent_eval.py:452-485 | A collector records the first starters of the stream in order, each with the ancestors it lists when it first starts |
| EventCollector.CollectedTells | tools/local_agent_eval.py:456-496 | Whatever the cap, a record holds kind, input and ancestors of the event that first started its run; its status says how the run was closed last after that, its output is that of the last end, its error that of the last failure |
| EventCollector.LastAfterIs | tools/local_agent_eval.py:487-496 | There is such a last event exactly if one closes the run after its start, and none that does comes later |
| EventCollector.SpanTells | tools/local_agent_eval.py:498-513 | The same of the i-th span, which carries the i-th identifier |
| EventCollector.TruncationExact | tools/local_agent_eval.py:452-513 | Capped spans are the first of a higher cap in all but the parent, and in the parent too if and only if, on the stream, every kept starter finds its last listed starter among those kept |
| EventCollector.ParentLost | tools/local_agent_eval.py:463-508 | At every cap, 450 included, a stream on which the first span loses its parent |
| EventCollector.TruncationRefines | tools/local_agent_eval.py:452-513 | On streams that start ancestors first, the capped collector's spans are exactly the first 450 of the uncapped one |
| EventCollector.AgentIsOnlyRoot | tools/local_agent_eval.py:831-860 | Whatever the stream and the cap, the agent span is the one root of the forest |
| EventCollector.EverySpanRenderedOnce | tools/local_agent_eval.py:498-513 | On streams that start ancestors first, the waterfall shows the agent and every collected span exactly once |
| SpanForest.BuildTree | frontend/src/components/features/WaterfallTree.tsx:26-43 | One node for each distinct id; the roots and every children list hold exactly the specified nodes in order |
| SpanForest.MakeNodes | frontend/src/components/features/WaterfallTree.tsx:30-32 | The map keeps a repeated id at its first place with its last span |
| SpanForest.OrderIsFirst | frontend/src/components/features/WaterfallTree.tsx:30-32 | Nodes come in the order in which their ids first come |
| SpanForest.Attach | frontend/src/components/features/WaterfallTree.tsx:34-40 | One node is pushed under its known parent or handed back as a root, and no other list changes |
| SpanForest.HangsUnder | frontend/src/components/features/WaterfallTree.tsx:34-40 | A span hangs under the span it names as its parent, if that is among the spans and not the empty id, and under no other |
| SpanForest.IsRoot | frontend/src/components/features/WaterfallTree.tsx:34-40 | It is a root exactly if it names none, the empty id, or one that is not among the spans |
| SpanForest.ShownInOrder | frontend/src/components/features/WaterfallTree.tsx:34-40 | Roots and siblings stand in the order of the nodes |
| SpanForest.AttachAll | frontend/src/components/features/WaterfallTree.tsx:34-42 | From unlinked nodes, every node is attached in order and the roots collected |
| SpanForest.ShownExactlyOnce | frontend/src/components/features/WaterfallTree.tsx:34-40 | A node stands once in its own parent's list, or among the roots, and in no other list |
| SpanForest.ChainEndsInTime | frontend/src/components/features/WaterfallTree.tsx:34-40 | A parent chain that ends does so within as many steps as there are spans |
| SpanForest.WalkShows | frontend/src/components/features/WaterfallTree.tsx:262-273 | A walk from a node shows a span once for every place the node has on that span's parent chain |
| SpanForest.RootsMet | frontend/src/components/features/WaterfallTree.tsx:88-98 | A chain meets the roots once if it has ended and never before |
| SpanForest.RenderedExactlyOnce | frontend/src/components/features/WaterfallTree.tsx:26-43 | For any spans, cyclic or not, the rendered tree shows a span exactly once if its parent chain ends, and never otherwise |
| Identity.StripTrims | backend/app/services/identity_service.py:160 | Stripping removes the whitespace at the two ends, all of it and nothing else |
| Identity.IdentityService.NewOrganization | backend/app/services/identity_service.py:52-87 | The creator becomes owner of a new organization with its subscription, first usage record and onboarding project, or the first refusal that applies is raised and nothing changes |
| Identity.IdentityService.Found | backend/app/services/identity_service.py:69-85 | The rows of a new organization: itself, its owner, a subscription of thirty days with its first empty record, its first project |
| Identity.IdentityService.CheckInvitation | backend/app/services/identity_service.py:149-195 | Every refusal of an invitation, in the source's order, or none |
| Identity.IdentityService.Invite | backend/app/services/identity_service.py:141-211 | The refusal that applies and no change; otherwise one pending invitation to the normalized address for seven days |
| Identity.IdentityService.Accept | backend/app/services/identity_service.py:213-243 | Membership with the invited role and the invitation ACCEPTED, or the source's refusal and no change, the EXPIRED mark included |
| Identity.IdentityService.Decline | backend/app/services/identity_service.py:245-265 | The invitation DECLINED, or the source's refusal and no change |
| Identity.IdentityService.Revoke | backend/app/services/identity_service.py:267-280 | Only an owner or admin of the invitation's own organization revokes, and only a pending one |
| Identity.IdentityService.ChangeRole | backend/app/services/identity_service.py:292-318 | It succeeds exactly if the actor is an owner of the organization and the target another member who is no owner; then that role changes, otherwise nothing |
| Identity.IdentityService.Remove | backend/app/services/identity_service.py:320-341 | It succeeds exactly if an owner removes a member who is no owner, or an admin a mere member; then that membership goes, otherwise nothing |
| IdentityLaws.OwnersNeverShrink | backend/app/services/identity_service.py:292-341 | Over every run an organization's owners stay owners |
| IdentityLaws.CreatorStaysOwner | backend/app/services/identity_service.py:52-69 | The creator stays an owner through any later run |
| IdentityRights.MembershipExactly | backend/app/services/identity_service.py:52-341 | Every step: a member's role appears, changes or goes exactly by a creation or an acceptance in time, by an owner's change, or by a permitted removal |
| IdentityRights.OwnersComeFromOwners | backend/app/services/identity_service.py:292-318 | Over every run an owner is the creator or was made one by someone who was an owner then |
| IdentityRights.OwnedExactly | backend/app/infrastructure/db/repositories/identity_repo.py:116-123 | The organizations counted against a founder are those the user owns |
| IdentityRights.InvitationGranted | backend/app/services/identity_service.py:149-195 | An invitation is granted exactly if its actor may offer the role and the addressee is neither the actor, a member, nor invited already, and a seat is left |
| IdentityRights.InvitationAppears | backend/app/services/identity_service.py:149-205 | A new invitation comes from somebody who may offer its role, to a normalized address, PENDING for seven days |
| IdentityRights.StatusExactly | backend/app/services/identity_service.py:213-280 | An invitation's status changes exactly by its addressee's answer in time, an owner's or admin's revocation while pending, or the sweep after it expired |
| IdentityRights.SeatTable | backend/app/core/billing/plans.py:11-57 | The seats of each plan |
| IdentityLaws.NeverInvitedAsOwner | backend/app/services/identity_service.py:149-158 | No invitation ever carries the OWNER role |
| IdentityLaws.AnsweredForGood | backend/app/services/identity_service.py:225-280 | Addressee, role and expiry never change; an invitation that left PENDING never changes again |
| IdentityLaws.AtMostOneOutstanding | backend/app/infrastructure/db/repositories/invitation_repo.py:52-66 | At most one unexpired pending invitation for each organization and address, in every run |
| IdentityLaws.AcceptSeats | backend/app/services/identity_service.py:228-243 | Accepting conserves members plus counted invitations, but for the instant of expiry, when it adds one |
| IdentityLaws.SeatsConserved | backend/app/services/identity_service.py:176-195 | From the empty directory, members plus counted invitations never exceed the plan while plans are not lowered below use and acceptances are not at the instant of expiry |
| IdentityLaws.FullOrganization | backend/app/services/identity_service.py:228-243 | At a full organization an acceptance keeps the limit if and only if it is not at the instant of expiry |
| IdentityLaws.SeatsOverflowAtExpiry | backend/app/infrastructure/db/repositories/invitation_repo.py:111-124 | A concrete run in which a plan of two seats ends with three taken |
| IdentityLaws.AlreadyMemberAtExpiry | backend/app/services/identity_service.py:233-235 | A run on which the refusal is reached: two invitations of one person open at the instant the first expires |
| IdentityLaws.AlreadyMemberUnreachable | backend/app/services/identity_service.py:233-235 | With unique addresses and no acceptance at the instant of expiry, the "already a member" refusal is never reached |

## Left out

- Environment: the lock, the clock, Stripe's answers and the identifiers drawn are
  parameters of the events; requests of one organization are atomic steps, so races between open transactions are not modelled.
- Several organizations in billing: keys start with the organization's id, so one organization is modelled at a time.
- Stripe transport, object-shape extraction, checkout and portal URLs, the webhook event table, and the 24-hour
  lifetime of idempotency keys, which is assumed to outlast a retry. A repeated key is assumed to be ignored,
  the first write winning; Stripe itself answers an error when the repeated request has other parameters, and
  then a retry whose plan has changed would raise, and raise again until the counter moves, rather than keep
  the old item.
- A non-positive usage count is rejected; counts are natural numbers here, so only zero stands for that case.
- JobRunner.LocalTaskRunner.ExecuteJob: handlers are an outcome, a duration and the run statuses they leave; timeouts
  are an outcome, and the timeout message omits the number of seconds.
- EvalRun.EvalSession.RunEvalRun: metrics are an arbitrary function to a value or a failure; an unknown metric name is
  an interruption; score ids, timestamps, reasons, metadata, the run's model and project, and rounding to four decimals
  are not kept.
- EvalRetry.PrepareRetryFailedRun: the new run's name, filters, model and sampling rate are not kept. Validation of
  batch requests is not modelled.
- Session evaluations (`run_session_eval`), monitors, cron schedules, the in-process scheduler and its dispatchers.
- EmbeddingCache.LLMEngine.EmbedTexts: the credentials check and the hash are not modelled; a text stands for its hash,
  one engine uses one model, and the vectors of an answer are those of the texts asked for, in order. With several models the source's key, the text's hash alone, would mix their vectors.
- EventCollector.Collector.CollectEvents: payloads are uninterpreted text; timestamps, names, model names, metadata,
  the final answer and the plain-invoke fallback are not kept.
- SpanForest.BuildTree: expanding, selecting and drawing are not modelled; the walk takes a depth because cyclic parents
  would otherwise not be a tree, and the results hold for every depth from the number of spans on.
- Identity.IdentityService.NewOrganization: name validation is a flag. Deleting organizations and users is not modelled, and neither are emails, API keys and projects.
- Identity.IdentityService.Invite: lower-casing is that of ASCII letters.
- At most two owned organizations for each user is not claimed: promotion to owner does not check it.
