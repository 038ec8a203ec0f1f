# Fenceline, verified

Fenceline is a job scheduler whose protocol is a set of Postgres transactions issued concurrently
by workers, a reaper, a promoter, a cron sweep, an archiver and an API. This project models the
database as one state and every transaction as a step, and proves what holds in every state of
every interleaving.

`dafny verify dfyconfig.toml` checks everything.

## How it is laid out

- `Schema` holds the row types and the checks on single rows. `Graph` holds the recursive
  dependency queries. `Admission` is one queue row with its shards, token buckets and breaker.
- `Transactions` gives every transaction as a function from database to database. `Protocol` makes
  a state machine of them: a run is any sequence of transactions, by any client, with a clock that
  does not go back. Workers may crash between admission and claim, and may call with any fence.
- `Rows`, `Frames`, `Fencing`, `Ledger`, `Slots`, `Limits`, `Dependencies` and `Reaping` prove the
  invariants of runs. `Batch` proves batch completion equal to single completions. `TwoStep` takes
  submission apart into its two statements. `Findings`, `Scenarios`, `Replays` and `Forgetting` hold the
  cases in which the obvious stronger claim is false.
- `Effects` says of every transaction which rows it must change and what it writes there, in the
  columns' own words. `Selects` and `Breakers` do the same for the selects of the sweeps and the claim,
  and for the breaker sweep.
- `Store` is the same protocol as imperative code: tables updated statement by statement, loops for
  what the source does row by row. Each method is proved to end where its transaction in
  `Transactions` ends. A single-row update is written with the row function of `Transactions`.
  `Worker` is the completion buffer of a worker, `Query` the `order by … limit …` of the selects.
- `Outbox` and `Stream` follow an event from the transaction that writes it, through polling and
  the websocket pump, to the browser. `Cron`, `Idempotency`, `Archiver` and `LockOrder` are the
  tick materialiser, concurrent keyed submissions, the move to cold tables and the lock order.

## What a run may assume

The main results name their assumptions in their `requires`:

- Open executions and successes: a worker reports with an execution id that its own start returned,
  and a failure report does not carry the outcome success. `Ledger.CompletionNeedsItsExecution` shows
  the first is needed. Fences, attempts and start counts need neither.
- Slot counters: reconciliation runs only when no grant is in transit. `Slots.ReconcileExactIff` and
  `Scenarios.ReconcileOverbooks` show it is needed.
- The cap: in addition, a new cap on an unchanged number of shards is not below what they have out.
  `Scenarios.LoweredCapIsExceeded` is a run without it, `Admission.UnderCapIff` shows that the
  condition is exact, and `Slots.OverloadOnlyFalls` is what holds in every run.
- Dependency counts: the job's own submission waits on nothing, or names no dead-lettered parent and
  no live one of another project. `Scenarios.ForeignParentStartsEarly` and
  `Scenarios.DeadParentStartsEarly` are runs without it; `Dependencies.CountInEveryRun` and
  `Dependencies.CountExactIff` say what the count is in every run. The cascade assumes it of the
  submissions along the way from the dead letter; acyclicity assumes nothing.
- Submission is one step: the parents are counted in the state in which the job is inserted. The
  source counts them without a lock in an earlier statement. `TwoStep.TwoStepsStoreAlikeIff` says
  exactly when that is the same in every stored column, `TwoStep.TwoStepsAreOneIff` when it is the
  same down to which parents are counted, and the other results of `TwoStep` what happens otherwise.
- Admission is one step against changes of the queue's settings and switches of its breaker, both of
  which the source reads without a lock. For the breaker, `Admission.SeenBreakerIff` says exactly when
  that is the same; an admission that read `closed` just before a trip still grants.
- Token buckets: rate, burst and shard count stay fixed over the window.

## Where the code and its documentation differ

The model follows the code.

- ARCHITECTURE.md:59 says the fence increments on every retry; a failure leaves it alone
  (migrations/028_shard_release.sql:64-71). The fencing invariant is therefore: the fence has moved
  on, or it is equal and the job is neither claimed nor running.
- The cycle check of a submission cannot fire (internal/api/jobs.go:139-147); the graph is acyclic
  because the child is always new.
- Cancelling a job that still waits on parents aborts (migrations/020_dependencies.sql:10-11).
- The reaper does not look at the lease again when it reports (internal/scheduler/reaper.go:52-63).
  `Reaping` says exactly when the claim it ends is a fresh one, with two runs in which it is.
- A job that is dead-lettered again after a replay keeps its first dead-letter row, mark included,
  and is passed over by every later bulk replay (`Findings.BulkReplayableIff`).
- The bulk replay looks at direct children only, the replay by name at all descendants
  (`Replays.GuardsAgreeIff`).

## Model

| member | source | states |
|---|---|---|
| `Graph.DescendantsExact` | migrations/021_dependency_flow.sql:3-12 | the simple-path recursion visits exactly the nodes reachable from the root, minus the root, on every finite graph, cyclic ones included |
| `Graph.CutLoops` | migrations/021_dependency_flow.sql:3-9 | every walk between two nodes shrinks to one without repeats, which is why excluding path members loses no descendant |
| `Graph.CycleQueryNeverFires` | internal/api/jobs.go:139-147 | on a table without self edges the cycle query never answers true, whatever cycles there are |
| `Graph.CycleQueryRightIff` | internal/api/jobs.go:139-147 | its answer is right if and only if the child lies on no cycle |
| `Graph.CycleQueryMissesACycle` | internal/api/jobs.go:139-147 | a two-job cycle the query does not report |
| `Graph.ClimbingIsAcyclic` | internal/api/jobs.go:318-337 | edges that always enter a later-born node form no cycle |
| `Admission.SharesAddUp` | migrations/027_shards.sql:31-35 | the shards' shares add up to max_concurrency for every shard count |
| `Admission.SharesGrow` | migrations/027_shards.sql:31-35 | raising the cap never takes a slot from a shard |
| `Admission.AdmitAccounts` | migrations/027_shards.sql:76-163 | whatever shard the unlocked pick chose, the slots granted are exactly what the picked counter gains, no other shard moves, no shard is lifted above its share and one already above it gets nothing |
| `Admission.AdmitGrantsMost` | migrations/027_shards.sql:127-157 | with the breaker closed an admission grants the most slots that are asked for, fit the shard's share of the cap and, under a rate limit, its share of the burst and what has dripped into its bucket; the row is left short of exactly those slots and tokens, with the new refill mark |
| `Admission.ProbeGrantsOne` | migrations/027_shards.sql:95-112 | while the breaker is not closed one slot is granted if and only if the probe is let through and one fits, the budget pays for it, and passing the deadline makes the row half open |
| `Admission.AdmitRefuses` | migrations/027_shards.sql:91-93 | a paused queue and an admission that found no shard grant nothing and leave the shards alone |
| `Admission.AdmitKeepsTokens` | migrations/027_shards.sql:127-157 | tokens stay within zero and the shard's share of the burst although one admission reads the clock several times |
| `Admission.AdmitKeepsBreaker` | migrations/003_constraints.sql:39-41 | admission keeps the breaker columns' checks, with the probe budget 0 or 1 and 0 outside half_open |
| `Admission.ConfigureKeeps` | migrations/030_shard_resize.sql:4-20 | a permitted change of settings leaves exactly the new number of shards, keeps every counter that stays, the breaker columns and the token bounds |
| `Admission.CeilingIsCapIff` | migrations/027_shards.sql:31-35 | the larger of share and slots out, summed over the shards, is the cap itself if and only if no shard has more out than its share |
| `Admission.UnderCapIff` | migrations/027_shards.sql:114-157 | whatever admissions and releases follow, the slots out stay within the cap if and only if no shard has more out than its share now: an overfull shard does not stop the others from filling up |
| `Admission.SeenBreakerIff` | migrations/027_shards.sql:88-98 | the unlocked first read of the breaker makes no difference to any admission if and only if it agrees with the row on whether the breaker is closed |
| `Limits.BucketsAndBreakers` | migrations/003_constraints.sql:39-41 | in every state of every run tokens lie within zero and the shard's share of the burst, the probe budget is 0 or 1 and is 0 outside half_open |
| `Limits.WindowBound` | migrations/027_shards.sql:127-157 | in any window of length T of any run, with settings unchanged, a queue grants at most burst + rate * T slots over all shards and claimers, whatever else goes on |
| `Limits.RestedShardGrants` | migrations/027_shards.sql:135-142 | the dual: in every run a shard left alone for T seconds grants any number of slots up to its share of rate * T and of the burst that are asked for and have room |
| `Limits.RestedShardIsFull` | migrations/027_shards.sql:135-142 | in every run a shard left alone for burst / rate seconds grants exactly its whole share of the burst, room permitting |
| `Limits.BreakerMovesLegally` | internal/scheduler/breaker.go:31-66 | in every step of every run a breaker only follows closed to open, open to half_open after the deadline and by an admission, and half_open to closed or open |
| `Limits.OpenGrantsNothing` | migrations/027_shards.sql:96-105 | in every run an open breaker stays open, with its deadline, exactly until an admission to the unpaused queue reads a clock at or past the deadline; until then the queue grants no slot over all shards and claimers |
| `Limits.OneProbe` | migrations/027_shards.sql:96-112 | in every run, from entering half_open until leaving it at most one slot is granted over all shards and claimers |
| `Rows.RowStepKeeps` | migrations/016_fsm_inline.sql:1-16 | every kind of row change keeps the table's checks and the attempt budget, is a legal transition, never lowers the fence and never revives an ended claim |
| `Rows.ApplyMovesRows` | migrations/028_shard_release.sql:1-233 | every transaction moves every job row by one of the known kinds of step |
| `Rows.RepeatIs` | migrations/021_dependency_flow.sql:20-30 | k finished parents in closed form: the count falls by k and the job wakes exactly when it reaches zero and is due |
| `Frames.ApplyWrites` | migrations/028_shard_release.sql:1-233 | each transaction leaves every table outside its write set unchanged |
| `Fencing.RunKeepsRows` | migrations/003_constraints.sql:1-25 | in no run is a check on a jobs row ever violated |
| `Fencing.TriggerNeverFires` | migrations/016_fsm_inline.sql:36-49 | the status trigger never fires: every change in every run is legal and no fence goes back |
| `Fencing.AttemptBudget` | migrations/028_shard_release.sql:64-71 | attempt_count <= max_attempts + snooze_count <= 2 * max_attempts and fence >= attempt_count in every state of every run |
| `Fencing.EndedForever` | migrations/028_shard_release.sql:64-76 | once a claim has ended it stays ended through every later interleaving, retries and replays included |
| `Fencing.StaleCallsDoNothing` | internal/jobs/report.go:32-43 | after a claim has ended no Start, Complete, Fail, Snooze or ExtendLease carrying its fence has any effect |
| `Fencing.StaleEntryDrops` | migrations/028_shard_release.sql:186-191 | a stale entry drops out of a batch: the batch without it ends in the same state |
| `Fencing.ReportsEndTheClaim` | migrations/028_shard_release.sql:11-17 | completion, batch completion, failure, reaping, snoozing and cancelling end the claim they hit |
| `Fencing.OnlyReportsEndTheClaim` | internal/jobs/claim.go:25-36 | no other transaction ends a held claim |
| `Reaping.RunKeepsLeases` | internal/scheduler/reaper.go:12-20 | leases and claims agree in every run, whatever the reports carry: a lease exactly while claimed or running, under the job's fence |
| `Reaping.FreshAtReportIff` | internal/scheduler/reaper.go:12-20 | for a job the scan saw expired: at the report it is held under a lease that has not run out if and only if it was claimed or extended in between, to a time not yet past (an extension ends at the deadline), and nothing has ended that claim |
| `Reaping.ReportAfterScan` | internal/scheduler/reaper.go:52-63 | the report ends the claim the job is under by then or does nothing; that claim is an expired one unless such a renewal is in force, and with no renewal at all it is the claim and the lease the scan saw |
| `Reaping.ExtendedIsTakenBack` | internal/scheduler/reaper.go:52-63 | a run from an empty database in which the worker extends its expired lease between scan and report and the report ends the claim while the lease still runs |
| `Reaping.ReclaimedIsTakenBack` | internal/scheduler/reaper.go:52-63 | a run from an empty database in which the job is given up, claimed again between scan and report, and loses the new claim |
| `Reaping.HeldIff` | migrations/028_shard_release.sql:64-76 | over any stretch of a run a claim stays held if and only if no report, reaping or cancellation hits it |
| `Ledger.OutcomesWrittenOnce` | migrations/028_shard_release.sql:19-21 | an outcome once written is never rewritten and no execution disappears, in any transaction |
| `Ledger.RunKeepsLedger` | internal/jobs/report.go:32-48 | leases, open executions, fences, attempts and keys agree in every state of every run in which workers report their own executions |
| `Ledger.RunKeepsHistory` | internal/jobs/report.go:32-43 | fences, attempts, generations and queues recorded with the executions agree with the jobs in every run, whatever execution ids the reports carry |
| `Ledger.FencesDiffer` | internal/jobs/report.go:32-43 | executions of one job carry pairwise different fences, and pairwise different attempts within a generation, in every run |
| `Ledger.OneOpenExecution` | migrations/004_indexes.sql:29 | a job has an open execution exactly while running, only one, under its fence, and a lease exactly while claimed or running, under its fence |
| `Ledger.OneSuccess` | migrations/028_shard_release.sql:19-21 | at most one execution of a job is ever a success |
| `Ledger.NothingToSweep` | internal/scheduler/reaper.go:22-31 | the orphan sweep and a fenced worker's clean-up close nothing in any reachable state |
| `Ledger.StartKeepsKeys` | migrations/002_core.sql:165 | a start never trips the unique key on job, generation and attempt, and its fence is new |
| `Ledger.AttemptsAreExact` | internal/jobs/report.go:32-43 | in every run the attempts recorded for the current generation are exactly 1 to attempt_count |
| `Ledger.StartsAreCounted` | internal/jobs/report.go:32-43 | in every run attempt_count is the number of executions started in the current generation |
| `Ledger.StartsBounded` | internal/api/dlq.go:30-39 | in every run a handler starts at most 2 * max_attempts times per replay generation |
| `Ledger.CompletionNeedsItsExecution` | migrations/028_shard_release.sql:19-21 | report_success keeps the ledger if and only if the execution id it is given names the job's open execution |
| `Slots.RunKeepsSlots` | internal/jobs/claim.go:59-112 | in every state of every run each shard's counter equals its claimed and running jobs plus the slots granted and not yet used or returned, crashed grants included, whatever is done to the settings |
| `Slots.OverloadOnlyFalls` | internal/api/queues.go:65-76 | in every run, as long as a queue's settings stay, no shard comes to hold more than its share or what it had out before, and the queue's jobs stay within the sum of these; a cap lowered under load is covered |
| `Slots.CapHoldsWhile` | migrations/027_shards.sql:114-157 | while the settings stay, a queue none of whose shards had more out than its share keeps its claimed and running jobs within max_concurrency |
| `Slots.CapHolds` | migrations/027_shards.sql:114-157 | the claimed and running jobs of a queue never exceed max_concurrency, for any shard count, stale pick and crash, across resizes and across every change of the cap that is not below what the shards have out |
| `Slots.ClampNeverNeeded` | migrations/027_shards.sql:68-72 | no counter undercounts, and no release ever needs the clamp at zero |
| `Slots.ResizedWhenIdle` | migrations/030_shard_resize.sql:4-11 | a resize is let through only when no slot of the queue is out on any shard |
| `Slots.ReconcileExactIff` | migrations/027_shards.sql:165-187 | reconciliation restores the exact counts if and only if no grant is in transit |
| `Slots.GroupCounts` | migrations/028_shard_release.sql:216-219 | the grouped release takes off a shard exactly the number of its jobs the batch completed |
| `Dependencies.RunKeepsDeps` | internal/api/jobs.go:303-337 | the counts, the edges and the counted parents agree in every state of every run of sound submissions |
| `Dependencies.CountInEveryRun` | migrations/021_dependency_flow.sql:20-30 | in every run, whatever parents are named, pending_deps is the counted parents that have not completed, less one for each uncounted parent that has completed since, and not below zero |
| `Dependencies.CountExactIff` | internal/api/jobs.go:130-137 | the count is exact if and only if no uncounted parent has completed since the submission or no counted one is outstanding, and it lets the job go exactly when as many uncounted ones have completed as counted ones are outstanding |
| `Dependencies.PendingIsExact` | migrations/021_dependency_flow.sql:20-30 | for a job whose own submission waits on nothing or names no dead-lettered parent and no live one of another project, pending_deps is in every later state of every run the number of counted parents that have not completed |
| `Dependencies.NoEarlyStart` | internal/scheduler/promote.go:11-16 | such a job leaves the waiting state, is claimed and is started only after every parent that was live at its submission has completed |
| `Dependencies.RunKeepsEdges` | internal/api/jobs.go:357-376 | in every run every edge enters a job created after its source |
| `Dependencies.GraphStaysAcyclic` | internal/api/jobs.go:357-376 | the dependency graph holds no cycle in any state of any run |
| `Dependencies.CycleAnswerIsRight` | internal/api/jobs.go:139-147 | the cycle query answers false on every submission of every run, and rightly so |
| `Dependencies.CascadeIsExact` | migrations/021_dependency_flow.sql:13-17 | dead-lettering rewrites exactly the idle jobs reachable from the root |
| `Dependencies.DeadLetterCancelsDescendants` | migrations/028_shard_release.sql:82-84 | when a job is dead-lettered every job at the end of a walk through counted parents, each with a right count, is cancelled and was never claimed |
| `Dependencies.CancelledForever` | migrations/016_fsm_inline.sql:1-16 | a cancelled job is never touched again in any run |
| `Dependencies.CascadeOverRuns` | migrations/028_shard_release.sql:64-84 | in every run, from the moment a job is dead-lettered every descendant along a walk through counted parents stays cancelled and is never claimed, if the submissions on that walk were sound; others may be anything |
| `TwoStep.TwoStepsAreOneIff` | internal/api/jobs.go:303-312 | counting the parents at one state of a run and inserting at a later one equals submitting at the later one, down to which parents are counted, if and only if no counted parent has finished and none passed over has come to life in between |
| `TwoStep.TwoStepsStoreAlikeIff` | internal/api/jobs.go:303-312 | in every stored column the two equal each other if and only if the number of live parents is the same at both states: as many passed-over parents have come to life as counted ones have finished |
| `TwoStep.CountRightIff` | internal/api/jobs.go:303-312 | the count the insert writes is right if and only if no counted parent has completed in between |
| `TwoStep.StrandedForGood` | migrations/021_dependency_flow.sql:20-30 | a job that waits while all its parents are done is never queued, claimed or started in any continuation |
| `TwoStep.OvertakenChildIsStranded` | internal/api/jobs.go:130-137 | a run from an empty database in which the counted parent completes before the insert and the child waits for good |
| `TwoStep.OvertakenChildNeverRuns` | internal/api/jobs.go:130-137 | in every continuation of that run the child is never claimed |
| `TwoStep.OvertakenChildIsNotCancelled` | internal/api/jobs.go:130-137 | a run from an empty database in which the counted parent is dead-lettered before the insert and the child is not cancelled |
| `Scenarios.ForeignParentStartsEarly` | internal/api/jobs.go:130-137 | a run from an empty database in which a live parent of another project, linked but not counted, lets the job run before its counted parent has completed |
| `Scenarios.DeadParentStartsEarly` | internal/api/jobs.go:130-137 | the same with a dead-lettered parent that is replayed |
| `Scenarios.LoweredCapIsExceeded` | internal/api/queues.go:65-76 | a run from an empty database in which the cap is lowered under load and more jobs run than the new cap allows |
| `Batch.BatchIsOneByOne` | migrations/028_shard_release.sql:176-233 | a batch completion ends in exactly the database that single completions of its entries give, row for row and event for event, when each live entry names its job's open execution |
| `Batch.BatchOrderFree` | migrations/028_shard_release.sql:198-200 | with one entry per job the result does not depend on the order of the entries |
| `Batch.AnyOrder` | migrations/028_shard_release.sql:1-46 | single completions in any order end where the batch ends |
| `Batch.BatchOverRuns` | internal/jobs/report.go:111-133 | in every state of every run, for entries of workers that own their executions, batch and single completions agree without further assumption |
| `Batch.StatsGrow` | migrations/028_shard_release.sql:207-214 | the grouped statistics insert is one upsert per execution row |
| `Batch.WakesSplit` | migrations/021_dependency_flow.sql:20-30 | each dependent a batch wakes is woken by exactly one of the completions |
| `Findings.CancelAllowedIff` | migrations/020_dependencies.sql:10-11 | the cancel statement passes the table's checks if and only if the job waits on no parent |
| `Findings.SnoozeAllowedIff` | migrations/028_shard_release.sql:142-156 | a snooze passes the table's checks unless its delay comes out as zero in the instant the job was created |
| `Findings.BulkReplayableIff` | migrations/025_bulk_replay.sql:25-36 | in every run the bulk replay takes a dead-lettered job without a cancelled child if and only if its replay_generation is zero, because a second dead letter keeps the marked row of the first |
| `Findings.RunKeepsDead` | internal/api/dlq.go:30-39 | in every run a dead-lettered job has its dead-letter row, which is marked as replayed exactly when the job's replay_generation is not zero |
| `Findings.SecondDeathIsPassedOver` | migrations/025_bulk_replay.sql:25-36 | a run from an empty database in which a job dies, is replayed and dies again: the bulk replay passes it over, a replay by name would work |
| `Replays.GuardsAgreeIff` | internal/api/dlq.go:41-52 | for a dead letter that was never replayed, in every run, the guards of the bulk replay and of the replay by name agree if and only if a child is cancelled or no child would itself be refused |
| `Replays.GuardsDiffer` | migrations/025_bulk_replay.sql:29-33 | a run from an empty database after which a dead letter may be replayed in bulk but not by name, because only a grandchild is cancelled |
| `Scenarios.ReconcileOverbooks` | migrations/027_shards.sql:172-183 | a run from an empty database in which a reconciliation falls between an admission and its claim and two jobs run on a queue capped at one |
| `Effects.SubmissionIs` | internal/api/jobs.go:303-337 | a submission with a new id, a queue of its project, a policy that allows an attempt and existing parents named once adds its row, an edge for every parent and one event, and nothing else |
| `Effects.SubmissionRefused` | internal/api/jobs.go:303-337 | any other submission changes nothing |
| `Effects.SubmittedRow` | internal/api/jobs.go:303-322 | the new row, column by column: it counts the named parents of its project that are in no terminal status, and is scheduled while there is one or its time has not come |
| `Effects.FiringIs` | internal/scheduler/cron.go:29-33 | a cron job is queued at once, due at its tick, and waits on nobody |
| `Effects.ClaimIs` | internal/jobs/claim.go:25-36 | on a grant that is good, exactly the given queued and due jobs are claimed, under the next fence, on the grant's shard, for the whole timeout |
| `Effects.ClaimBooks` | internal/jobs/claim.go:37-45 | each claim gets a lease of its own under its fence, the other leases stay, and exactly the slots that found no job go back |
| `Effects.GiveBackIs` | internal/jobs/claim.go:66-73 | a claim that failed returns all its slots |
| `Effects.StartIs` | internal/jobs/report.go:32-43 | a claimed job under its fence starts its next attempt, with an execution row that says so; nothing happens under any other fence or status |
| `Effects.ExtensionIs` | internal/jobs/lease.go:14-20 | a running job's lease is renewed to the earlier of its full length and the deadline, under the job's own fence only |
| `Effects.CompletionRows` | migrations/028_shard_release.sql:11-17 | a running job under its fence is completed, every child counts one parent less and is queued when that was the last and it is due, and no other row changes |
| `Effects.CompletionBooks` | migrations/028_shard_release.sql:19-41 | the open execution is closed as a success, the lease goes, the minute counts one completion and its rounded milliseconds, one slot goes back |
| `Effects.CompletionEvents` | migrations/028_shard_release.sql:23-44 | announced are the completion and every job that went from scheduled to queued, no other |
| `Effects.BatchRows` | migrations/028_shard_release.sql:186-205 | a batch completes exactly the running jobs some entry names under their fence, and every other job counts down by the number of its parents among them |
| `Effects.FailureRows` | migrations/028_shard_release.sql:64-84 | a held job is dead-lettered if and only if the failure is permanent or attempt_count has reached max_attempts, and then exactly what waits below it is cancelled; otherwise it is in retry_wait until now plus the delay and no other row changes |
| `Effects.FailureBooks` | migrations/028_shard_release.sql:86-115 | open executions are closed with the reported outcome, the lease goes, one slot goes back, and the minute counts one failure or one dead letter |
| `Effects.FailureLetters` | migrations/028_shard_release.sql:101-113 | the first dead letter writes the row with its reason, a later one leaves it |
| `Effects.FailureEvents` | migrations/028_shard_release.sql:117-127 | announced are the failure, loss or dead letter and every job cancelled with it, no other |
| `Effects.RetriedWhileAttemptsLeft` | migrations/028_shard_release.sql:64-71 | in every run a failure or reap that hits its job dead-letters it if and only if it is permanent or the handler was started max_attempts times in the current generation; otherwise the job waits for its retry |
| `Effects.DeadOnlyWhenSpent` | migrations/028_shard_release.sql:64-71 | in every run a job becomes a dead letter only by a failure or reap of its own that is permanent or comes after max_attempts starts in the current generation |
| `Effects.ReapRecords` | internal/scheduler/reaper.go:20 | a job taken back by the reaper is recorded as lost: execution, event and the reason of its dead letter |
| `Effects.SnoozeIs` | migrations/028_shard_release.sql:134-174 | a running job with snoozes left waits for the delay, between zero and the policy's longest, under the next fence, with execution, lease and slot given up; any other call changes nothing |
| `Effects.CancelIs` | internal/api/jobs.go:652-687 | a live job that waits on no parent is cancelled and gives up what it held; any other call changes nothing |
| `Effects.RetryIs` | internal/api/jobs.go:204-207 | a job in scheduled or retry_wait that waits on no parent is queued for now |
| `Effects.ReplayIs` | internal/api/dlq.go:30-54 | a dead letter with no cancelled job reachable below it is queued with its attempts to come again, its fence kept and its dead-letter row marked (an edge from a job to itself is ruled out by the table) |
| `Effects.BulkReplayRefused` | migrations/025_bulk_replay.sql:25-36 | a bulk replay that names any other job changes nothing |
| `Effects.BulkReplayRows` | migrations/025_bulk_replay.sql:42-51 | the bulk replay queues exactly the given dead letters, each for its own time |
| `Effects.BulkReplayMarks` | migrations/025_bulk_replay.sql:53-58 | it marks exactly their dead-letter rows and announces each |
| `Effects.PromotionIs` | internal/scheduler/promote.go:18-25 | exactly the given due jobs are queued and announced |
| `Effects.OrphanSweepIs` | internal/scheduler/reaper.go:22-31 | the sweep closes as lost exactly the open executions of jobs that are not held |
| `Effects.ProbeIs` | internal/jobs/lease.go:43-67 | a worker learns that its claim is over if and only if the fence has moved on or the job is no longer held |
| `Effects.CleanUpIs` | internal/jobs/report.go:45-48 | a worker closes its own execution only after that, and only if it is open |
| `Effects.ConfigureIs` | migrations/030_shard_resize.sql:1-23 | settings are refused out of range and for another number of shards while work is out; otherwise the row takes them, kept shards keep counters and marks with at most the new share, new ones start full |
| `Effects.SwitchIs` | internal/scheduler/breaker.go:31-66 | each switch of the breaker happens from the state it expects only, and writes state, deadline and budget |
| `Effects.ReconcileIs` | migrations/027_shards.sql:165-187 | every counter becomes the number of claimed and running jobs on its shard |
| `Outbox.NothingAppearsBelow` | migrations/014_lock_order.sql:1-8 | when an event of a project is visible, every event of it with a smaller id that ever commits is visible already, under any interleaving and any lock hash |
| `Outbox.HistoryKeepsOutbox` | migrations/014_lock_order.sql:4-6 | pending ids lie above every visible id of their lock, in every state of every history |
| `Outbox.PageIsExact` | internal/api/events.go:35-39 | a page holds, in order, exactly the rows above the cursor up to its last one, and is short only when nothing is left |
| `Outbox.PollingMissesNothing` | internal/api/events.go:66-95 | repeated polling delivers each committed event once and in order, and a short page means all of them |
| `Outbox.ListingIsExact` | internal/api/events.go:35-39 | the listing a reader works through holds every committed event of the project once, in id order |
| `Outbox.EmitSucceeds` | migrations/014_lock_order.sql:1-8 | a transaction that finds the project's lock free emits its event, and its commit shows exactly that event under the id it drew |
| `Outbox.CommittedIsSeen` | migrations/014_lock_order.sql:1-8 | in every history an inserted event is visible from its transaction's commit on, for good |
| `Outbox.RolledBackIsNeverSeen` | migrations/014_lock_order.sql:1-8 | an event whose transaction rolls back is never visible, and its id is never used again |
| `Stream.ClientSeesAPrefix` | web/lib/stream.ts:28-97 | through any disconnects and reconnects the client holds a prefix of the committed events without gap or repeat, onGap is never called, and consecutive frames chain |
| `Stream.CaughtUp` | internal/api/stream.go:195-230 | a client whose wire is drained and whose server found nothing new has every committed event |
| `Stream.TurnAndDelivery` | internal/api/stream.go:195-230 | one turn of the server and one delivery bring a drained client exactly a thousand events further in the listing, or to its end |
| `Stream.AcceptIs` | internal/api/stream.go:188-193 | a cursor is refused if and only if the event after it may be gone |
| `Stream.OpenedAndUnmounted` | web/lib/stream.ts:44-97 | opening a socket clears the back-off, and an unmounted client never connects again |
| `Stream.EventStream.OnClose` | web/lib/stream.ts:80-85 | a client that has unmounted is left as it is; otherwise the back-off counter grows until it is five, and cursor, delivered events and gap count stay |
| `Stream.ReconnectResumes` | web/lib/stream.ts:35-43 | after a close the next connection starts at the first event not delivered, its first frame carries the events that directly follow, nothing delivered is lost or repeated, and the back-off counter grows up to five |
| `Stream.RefusedRestarts` | internal/api/stream.go:188-193 | a cursor below the retained rows is reported as one gap and the client restarts at the oldest row kept |
| `Stream.ReadPage` | internal/api/events.go:53-64 | the scanning loop returns the page the query defines |
| `Stream.ListEvents` | internal/api/events.go:66-95 | refuses exactly the cursors below the low-water mark, and otherwise returns exactly the rows between its two cursors |
| `Stream.Pump.Drain` | internal/api/stream.go:195-230 | between two waits, each turn reading the table as it is by then, the pump sends frames that chain and carry exactly the first rows above its cursor, and waits only when none is left |
| `Stream.Pump.TakeTurn` | internal/api/stream.go:195-222 | one turn of the loop is the model's turn, and says more exactly when the page was full |
| `Stream.EventStream.OnMessage` | web/lib/stream.ts:50-78 | the message handler is the model's step, and reports no gap exactly for a frame that continues at the cursor |
| `Cron.WalkIsExact` | internal/scheduler/cron.go:109-125 | the tick loop stops at the first tick after now, or one past the cut-off |
| `Cron.SweepOne` | internal/scheduler/cron.go:107-187 | the loop and the accounting that follows it, as executed, do what the model's sweep says |
| `Cron.NoConflict` | internal/scheduler/cron.go:158-176 | the unique index on schedule and tick never refuses the insert |
| `Cron.SweepAccounts` | internal/scheduler/cron.go:126-187 | a sweep consumes a contiguous stretch of the tick chain, at least one tick, and gives each tick one fate |
| `Cron.SweepReachesFuture` | internal/scheduler/cron.go:111-133 | next_run_at moves forward and ends after now unless the cut-off of 100000 was hit |
| `Cron.PolicyDecides` | internal/scheduler/cron.go:135-187 | a sweep that takes n ticks counts all but the last as skipped and fires a job for the last unless it would overlap, which is counted; with a backlog and a policy that skips it all n are skipped and none fires |
| `Cron.UnreadableIsDisabled` | internal/scheduler/cron.go:114-133 | a schedule the library cannot carry on is disabled and otherwise unchanged |
| `Cron.TakesOrBreaks` | internal/scheduler/cron.go:109-133 | every schedule falls under one of the two |
| `Cron.EveryTickAccounted` | internal/scheduler/cron.go:107-187 | over any run of sweeps every tick before next_run_at was fired, skipped for overlap or counted as skipped, once; fired jobs are exactly the fired ticks |
| `Cron.Materializer.Materialize` | internal/scheduler/cron.go:104-194 | the sweep over the selected schedules changes exactly those and returns the number of jobs it inserted |
| `Cron.Materializer.MaterializeSome` | internal/scheduler/cron.go:75-102 | takes exactly the enabled schedules whose next run has come and nobody else has locked, the longest due first, none left out below the limit, and sweeps exactly those |
| `Idempotency.OneJobPerKey` | internal/api/jobs.go:275-331 | for a key absent at the start, under any interleaving: one job if any submission succeeds, every success returns it under one fingerprint, one client created it, and all others created nothing |
| `Idempotency.KnownKeyCreatesNothing` | internal/api/jobs.go:286-295 | while an unexpired key is there nothing is created and every success returns its job |
| `Idempotency.UndisturbedIsAnswered` | internal/api/jobs.go:275-331 | a submission nobody disturbs gets a new job and key row where there was none or an expired one, the row's job where the fingerprints agree, and a mismatch where they do not |
| `Idempotency.CollisionRetries` | internal/api/respond.go:71-100 | a client whose insert meets a committed key rolls back and starts over, and gives up the fifth time |
| `Idempotency.OneJobIffNotExpired` | internal/api/jobs.go:153-155 | all runs commit at most one job if and only if they do not start from an expired row of the key |
| `Idempotency.ExpiredKeyMakesTwoJobs` | internal/api/jobs.go:154 | two clients that both found the key expired commit two jobs, because the delete has no expiry guard |
| `Idempotency.Transact` | internal/api/respond.go:71-100 | the retry loop returns the first attempt that is not retryable, or the last error after five |
| `Archiver.ArchiveConserves` | internal/archiver/archiver.go:39-84 | hot plus cold is unchanged for jobs, executions, logs and dead letters, no row is on both sides, and nothing is left without what it hangs on |
| `Archiver.RunKeepsTables` | internal/archiver/archiver.go:39-84 | through any interleaving of the protocol with the archiver no row is in both tables of a pair and every log, execution and dead letter is on the side of the row it hangs on |
| `Archiver.ArchiveTakesFinished` | internal/archiver/archiver.go:12-20 | an archived job was finished long enough and had no open execution |
| `Archiver.ApplyStamps` | migrations/028_shard_release.sql:11-12 | every transaction leaves a finishing time alone, clears it or sets it to its own time |
| `Archiver.LiveKeyPointsAtHotJob` | internal/archiver/archiver.go:96-104 | through any interleaving of the protocol with the archiver an unexpired idempotency key points at a job in the hot table |
| `Archiver.SafeWaitIff` | migrations/005_side_tables.sql:74 | the archiver's wait protects every live key if and only if it is at least the key's 24 hours |
| `Archiver.GuardAfterArchivingIff` | internal/api/dlq.go:41-52 | after jobs have been archived the replay guard still refuses if and only if a cancelled descendant is left that is reached past none of them |
| `Forgetting.GuardForgetsArchived` | internal/archiver/archiver.go:12-20 | a run from an empty database in which a cancelled child is archived before its dead-lettered parent and the replay refused for its sake goes through |
| `Archiver.Mover.Pick` | internal/archiver/archiver.go:12-20 | takes exactly the unlocked jobs that completed or were cancelled longer than the wait ago, or were dead-lettered longer than both waits ago, with no open execution, oldest first, none left out below the limit |
| `Archiver.KeysAre` | internal/archiver/archiver.go:86 | a keyed submission is taken exactly when no unexpired row has its key, its own row lives for 24 hours, and pruning drops exactly the rows that have run out |
| `Archiver.Mover.ArchiveSome` | internal/archiver/archiver.go:106-149 | the four moves in their order are the model's archive step on the rows picked |
| `Archiver.Mover.Drain` | internal/archiver/archiver.go:170-181 | the drain loop, with a new clock reading and other rows locked in every batch, conserves all rows and ends with no old job in the hot table that its last batch did not find locked |
| `LockOrder.ProgramsClimb` | ARCHITECTURE.md:157-168 | report, snooze, cancel and admission take their rows in one ascending order |
| `LockOrder.NoDeadlock` | ARCHITECTURE.md:157-177 | in no reachable state do these transactions wait in a circle |
| `LockOrder.SuccessChanges` | migrations/028_shard_release.sql:11-41 | completing a job without dependents changes no row outside its lock program |
| `LockOrder.FailureChanges` | migrations/028_shard_release.sql:64-127 | failing a job without dependents changes no row outside its lock program |
| `LockOrder.SnoozeChanges` | migrations/028_shard_release.sql:142-169 | snoozing a job changes no row outside its lock program |
| `LockOrder.CancelChanges` | internal/api/jobs.go:652-687 | cancelling a job changes no row outside its lock program |
| `LockOrder.AdmissionChanges` | migrations/027_shards.sql:96-161 | an admission changes one shard row, and its queue row only when the breaker is not closed |
| `Store.Database.ReportSuccess` | migrations/028_shard_release.sql:1-46 | statement by statement, takes the tables exactly where the completion transaction takes them, and answers with the job's queue exactly when it hit |
| `Store.Database.ReportFailure` | migrations/028_shard_release.sql:48-132 | the same for a failure, with cascade, statistics, dead letter, release and events, and the job's queue as the answer; the job is a dead letter exactly when the failure is permanent or its attempts are used up, and otherwise waits out the delay |
| `Store.Database.ReportSnooze` | migrations/028_shard_release.sql:134-174 | the same for a snooze, including the aborted update, with the job's queue as the answer |
| `Store.Database.ReportSuccessBatch` | migrations/028_shard_release.sql:176-233 | the loops over matched entries, dependents and shard groups end in the batch transaction's state |
| `Store.Database.FinishDependentsOf` | migrations/021_dependency_flow.sql:20-30 | visiting the children one by one counts each down once and returns exactly those put on the queue |
| `Store.Database.CancelDescendantsOf` | migrations/021_dependency_flow.sql:1-18 | cancels exactly the idle descendants and returns them |
| `Store.Database.QueueAdmit` | migrations/027_shards.sql:76-163 | the function body with its early returns; with the breaker closed it grants the most that fits the request, the shard's share of the cap and its bucket |
| `Store.Database.QueueRelease` | migrations/027_shards.sql:68-72 | lowers one counter, not below zero, and touches no other shard |
| `Store.Database.ReconcileInFlight` | migrations/027_shards.sql:165-187 | the loop over all shards sets each counter to its jobs and returns the number that were wrong |
| `Store.Database.Spread` | migrations/030_shard_resize.sql:1-23 | deleting, inserting and clamping shard rows gives the model's resize, refused when work is out |
| `Store.Database.TakeJobs` | internal/jobs/claim.go:77-112 | claims the rows, writes their leases, returns unused slots, and hands out each claimed job once with its new fence |
| `Store.Database.Claim` | internal/jobs/claim.go:59-75 | admission and claim as two transactions: no due job that stays unclaimed has a higher priority than a claimed one, nor an equal one and an earlier time, nor both equal and a smaller id, and none stays while slots are left; each is returned once under its new fence, or the slots are given back when the second fails |
| `Query.Select` | internal/jobs/claim.go:16-24 | order by and limit: distinct rows in rank order, up to the limit, none left out that ranks before one taken, and all rows when it stays below the limit |
| `Selects.ClaimIsDetermined` | internal/jobs/claim.go:19-23 | the order of the claim query leaves no choice: which jobs it takes is determined |
| `Store.Database.Start` | internal/jobs/report.go:32-64 | starts a claimed job under the caller's fence, opens its execution and returns its attempt number, or reports it fenced |
| `Store.Database.ExtendLease` | internal/jobs/lease.go:14-20 | extends the lease of a running job up to its deadline, only under the job's own fence |
| `Store.Database.SubmitJob` | internal/api/jobs.go:303-337 | counts live parents, inserts the job and its edges and announces it, as the submission transaction |
| `Store.Database.Link` | internal/api/jobs.go:357-376 | adds an edge for every named parent and never trips over the cycle query |
| `Store.Database.CancelJob` | internal/api/jobs.go:652-687 | cancels a live job and frees what it held, and does nothing when the check refuses |
| `Store.Database.Reap` | internal/scheduler/reaper.go:52-64 | reports every id it is given, which may be out of date by then, and counts those that were still held |
| `Store.Database.ScanExpired` | internal/scheduler/reaper.go:12-18 | takes exactly claimed and running jobs whose lease ended before now, the longest expired first, none left out below the limit |
| `Store.Database.ReapSweep` | internal/scheduler/reaper.go:33-65 | scan and reports with nothing in between: exactly the jobs of such a scan are reported and every report finds its job |
| `Store.ReapIsSteps` | internal/scheduler/reaper.go:52-63 | reporting ids one after the other is the same number of reaper steps of the protocol |
| `Store.Database.PromoteDue` | internal/scheduler/promote.go:18-25 | queues exactly the locked due rows and announces each |
| `Store.Database.PromoteSweep` | internal/scheduler/promote.go:11-74 | queues exactly unlocked jobs in scheduled or retry_wait that are due and wait on no parent, the longest due first, changes no other row, leaves none behind below the limit and returns their number |
| `Store.Database.RetryJob` | internal/api/jobs.go:204-207 | queues a waiting job at once, and says so, exactly when it waits on no parent |
| `Store.Database.ReplayJob` | internal/api/dlq.go:151-192 | revives a dead letter, and says so, exactly when it has no cancelled descendant |
| `Store.Database.ReplayQueue` | migrations/025_bulk_replay.sql:1-61 | replays exactly unmarked dead letters of the queue without a cancelled child, the longest dead first, as many as cap and depth limit leave room for, none left out below that, spaced by the pace |
| `Selects.ReplaysAreSpaced` | migrations/025_bulk_replay.sql:46-50 | no two jobs of a paced bulk replay start closer together than the pace allows, and the first starts at once |
| `Store.Database.BreakerSweep` | internal/scheduler/breaker.go:99-141 | switches breakers by what was read earlier, each under its own guard, and counts the switches made |
| `Store.Database.BreakerRound` | internal/scheduler/breaker.go:83-144 | with nothing in between: a closed breaker opens if and only if trip of the latest window executions failed, counted as a set; a half-open one closes when the latest execution since its deadline succeeded, opens again when it failed and stays otherwise; an open one stays; the number of changed rows is returned |
| `Breakers.SightingRight` | internal/scheduler/breaker.go:107-141 | what is made of a true reading of one queue, from the executions to the breaker columns |
| `Breakers.FailuresAreCounted` | internal/scheduler/breaker.go:146-164 | the failures counted in a window are the executions in it that ended in a retryable or permanent error, a timeout or a loss |
| `Worker.Completer.Flush` | internal/worker/complete.go:41-81 | sends the whole buffer as one batch, retries transient errors, and probes exactly the entries a successful batch did not complete |
| `Worker.UnansweredIs` | internal/worker/complete.go:66-81 | probed are exactly the entries of an answered batch whose job it did not complete |
| `Worker.Completer.Finish` | internal/worker/complete.go:19-39 | every finished job is in one batch or in the buffer, in order, and no batch exceeds the limit |

## Left out

- HTTP routing, JSON decoding, sessions, roles, audit rows and password hashing: plumbing.
- The dashboard, charts and formatting, the failure summaries and their external model call.
- Cron expression parsing, time zones and daylight saving: the library is an arbitrary next-tick function, strictly increasing where a result needs it.
- Partitions, rollups, metric views, query plans, timeouts, LISTEN/NOTIFY and backoff sleeps: they affect latency and storage, not safety.
- Commit errors that did commit, and clocks that go back.
- Job types are not modelled, and `max_depth` only as a parameter of the bulk replay; a priority is a parameter of the claim, and its ageing by the promoter is left out. In runs any choice among eligible rows is allowed.
- Event payloads, lease progress, error texts, log contents and fence-violation rows. In `Transactions` events are a multiset; their ids and order are the subject of `Outbox`. Breaker and schedule events are counted or left out.
- Retry policies are part of the job row and do not change; the backoff delay is a parameter of a failure.
- Each report is taken at one clock reading, while the source reads the clock anew in each statement; batch and single completions are compared at one common reading.
- Queue deletion and other cascades from above the jobs table.
- Breaker liveness: a half-open probe slot that is returned unused does not restore the budget.
- Deadlock freedom beyond single jobs without dependents: promotion and cron take several outbox locks, and dependency updates several job rows, in no fixed order.
- The archiver is a step of the runs in `Archiver` only: the invariants of `Ledger`, `Slots` and `Dependencies` are stated over runs without archiving, which deletes dependency edges with the jobs.
- Archiver.RunKeepsTables: assumes that ids are not reused and that an execution is logged to while it is hot; a log line written later than that is an orphan at once.
- The retry delay of the event stream and its jitter.
- Cron.Materializer.Materialize: the answer of the overlap query is given for each schedule, because the statuses of the jobs a schedule has fired are not part of that model.
- Store.Database.BreakerRound: the breaker events are not emitted.
