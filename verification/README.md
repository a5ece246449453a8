# Sluice, modelled and proved in Dafny

Sluice is a job scheduler: Postgres holds the jobs, Redis carries hints about what to run, any number of
workers claim jobs under a lease, and elected schedulers promote, retry and reap them. This project models
its claim / lease / retry protocol and the code around it, and proves what the design promises.
`dafny verify dfyconfig.toml` checks everything.

## How the model is built

* `Types`, `Storage` — the rows, and one `After...` function per SQL statement or transaction. A guard that
  matches no row changes nothing.
* `Ledger` — the protocol without Redis: any statement of any process, on any id, at any time, with history
  variables (every claim of every job with its token, run, lease and outcome). `LedgerInvariants` holds the
  inductive invariant, `LedgerRuns` and `Accounting` the theorems about whole runs.
* `Cluster` — the real system: workers as program counters over `process`, heartbeats in flight, scheduler
  passes working through lists they read earlier, operators, and Redis, whose whole contents may change
  arbitrarily at any moment. It has no history variables. `Refinement` proves that every run of it follows a
  run of `Ledger`, so the theorems carry over.
* `Timing`, `Overlap` — `run_at` and backoff. `Progress`, `Batches`, `NoStuckJob` — what a healthy scheduler
  and one healthy worker can always bring about; `Starvation` — exactly when they cannot.
* `Store.Postgres` — the database code as a class, statement by statement. The object records its own life, and
  its invariant says that this life is a run of the Ledger that began empty. Whatever sequence of calls it has
  seen, the theorems about runs hold of it (`StaleTokenHoldsNothing`, `OneWinner`).
* `Execution`, `Scheduler`, `Cron` — the worker's `process` and heartbeat, the scheduler's passes and the cron
  expander as sequential code on that database and on `Queue.Client`.
* `Queue`, `Shuffle` — the Redis lists, weighted fair dequeue. `Backoff`, `Submission`, `RateLimit` — the
  remaining machines.

Theorems about the Ledger are stated for runs from any state that satisfies the invariant; the empty database
does (`InitInv`). UUIDs are fresh natural numbers, times are milliseconds of one clock. A statement that
fails, a process that stops and a lost message are all covered by steps that do nothing or by `Crash`, `Skip`,
`LoseBeat` and `EndPass`. A worker's poll cycle is a program counter over the keys it has yet to visit. Random draws, clock readings and the result of executing a job are parameters.

Where code and documents differ the code is followed: architecture.md lets the reaper move a job to failed
and due-job polling lock rows, the code moves it to pending or dead and polls without locks; the limiter is a
fixed window, not a token bucket; tenants are taken in a weighted random order with all buckets of one tenant before
the next tenant, not round-robin within a priority.

Five findings shape the statements:

* With several schedulers on stale lists and any duplicates, a claim succeeds before the row's `run_at` exactly when
  that very job was force-failed while it waited for that `run_at` (`EarlyClaimIff`), and such claims happen
  (`EarlyClaimHappens`). Promotion cannot cause it, because it overwrites `run_at` with the current time.
* A job's retry time is respected unless, while the job waits for it, a retry pass promotes the job from a list
  read earlier or an operator force-fails it. Neither statement looks at `run_at`. These two events, and no
  others, disturb a waiting job, and after either the job can be claimed too early (`BackoffGap`, `CutIsExact`).
  A single retry loop that finishes each list never does this, overlapping ones can (`OneLoopNeverCuts`,
  `OverlapHappens`).
* Promotion and reaping push the job to Redis, so a scheduled, failed or abandoned job never depends on the
  reconciler. Only a pending job that Redis has lost does, and it can finish if and only if fewer than 500 pending
  jobs of tenants no worker serves stand strictly before it in the reconciler's order (`NoStuckJob`, `FinishedIff`).
  With 500 it starves for ever (`Starves`), and such states are reachable (`StarvationHappens`).
* A poll cycle takes one entry from each list it visits until one parses as a UUID. So n cycles find a job if and
  only if one of the n oldest entries of some list parses (`PollsFind`).
* A schedule can fire once more than a span has ticks, but only when a tick was overdue as the span began
  (`FiringsBounded`, `OverdueFiresOnce`).

## Model

| member | source | states |
|---|---|---|
| LedgerRuns.TokenMeansInFlight | internal/storage/storage.go:93-256 | in every state of every run the claim token and the deadline are set exactly while the job is claimed or running |
| LedgerRuns.Fencing | internal/storage/storage.go:144-256 | once a token's claim was completed, failed, reaped or force-failed, no row ever carries it again and every later MarkRunning, ExtendDeadline, CompleteJob or FailJob with it changes nothing |
| LedgerRuns.OneOutcome | internal/storage/storage.go:168-194 | each token has at most one outcome: what happened to it stays what happened to it |
| LedgerRuns.ClaimsDoNotOverlap | internal/storage/storage.go:90-140 | of two successful claims of one job, the first was lost or force-failed before the second, and they share neither token nor run |
| LedgerRuns.RunLater | internal/storage/storage.go:171-358 | over any stretch of any run histories only grow, succeeded rows and runs never change, runs are never renumbered, letters never rewritten |
| LedgerRuns.OneSuccess | internal/storage/storage.go:171-194 | success is absorbing and stamped with completed_at; at most one run per job is ever marked succeeded, it stays so and implies the job succeeded, with the reaper free to act between CompleteJob's two statements |
| LedgerRuns.LetterRecordsDeath | internal/storage/storage.go:361-379 | a dead letter shows the row as it was at a moment when the job was dead, and later replays and deaths do not alter it |
| LedgerInvariants.StepKeepsInv | internal/storage/storage.go:93-358 | every statement of every process preserves the invariant tying rows, claim histories and runs together |
| Accounting.AttemptAccounting | internal/storage/storage.go:221-241 | attempt equals the number of claims lost since the insert or last replay; the claims since then are attempt plus one if in flight, succeeded or force-failed in flight; never more than max(1, max_retries) |
| Accounting.RunsAreNumbered | internal/storage/storage.go:126-134 | since the insert or last replay the k-th claim, counting from 0, has its own run, filed under the job with attempt k |
| Accounting.OpenRunOwner | internal/storage/storage.go:323-331 | an open run belongs to the token holder, to the winner, or to a force-failed claim |
| Accounting.AtMostOneOpenRun | internal/storage/storage.go:323-343 | a job never force-failed in flight has at most one open run, the token holder's or the winner's, and none while pending, scheduled, failed, dead or deleted by a cancel |
| Accounting.ReapedLate | internal/worker/worker.go:152-155 | a reaped claim had outlived its lease: more than 60 s after the first deadline was computed, or more than 15 s after the last extension that landed was |
| Accounting.BeatingIsNeverReaped | internal/worker/worker.go:152-251 | a worker that claims a job is not reaped as long as its first extension lands, or it reports, within 60 s of computing the first deadline, and each extension that lands is followed by the next within 15 s of computing the one before; the hypothesis speaks only of when extensions land |
| Accounting.StepKeepsDeadline | internal/storage/storage.go:155-358 | before its deadline a live claim and that deadline are touched by nothing but a landing extension, the worker's own report or a force-fail |
| Accounting.StepLowersMeasure | internal/storage/storage.go:198-358 | apart from replay every state change of a job lowers (max(1, max_retries) - attempt, rank of the state) |
| Accounting.BoundedChanges | internal/storage/storage.go:198-358 | between replays the number of state changes of a job is bounded by its retry budget |
| Refinement.Simulates | internal/worker/worker.go:146-251 | every event of the cluster is one Ledger step on the representing state: fresh tokens, matching runs and outstanding second statements included |
| Refinement.RedisIsOnlyAHint | internal/worker/worker.go:146-165 | for arbitrary Redis contents, losses and duplicates every run of the cluster follows a run of the Redis-free system |
| Refinement.OneHolder | internal/storage/storage.go:90-107 | in every state at most one worker of the cluster holds a job |
| Refinement.SnapshotAgreement | internal/worker/worker.go:198-218 | if FailJob still finds the token, the snapshot read after TryClaim has the row's attempt and policy, so a job left retryable gets the retry time the worker computed |
| Timing.NoEarlyExecution | internal/scheduler/scheduler.go:97-129 | a claim happens at or after the row's run_at, with any number of schedulers on stale lists and any duplicates, unless that very job was force-failed during a wait that is not over yet |
| Timing.EarlyMeansCut | internal/scheduler/scheduler.go:97-129 | in every state of every run, a job that is neither scheduled nor failed and whose run_at lies ahead was force-failed earlier while it waited for exactly that run_at |
| Timing.EarlyClaimIff | cmd/sluice-cli/main.go:102-105 | a claim succeeds before run_at if and only if the job was force-failed while it waited for that run_at |
| Timing.CutBackoffRunsEarly | cmd/sluice-cli/main.go:102-105 | after any such force-fail a replay makes the job claimable before run_at |
| Timing.BackoffGap | internal/worker/worker.go:203-216 | after a recorded failure that leaves the job retryable, no claim of it succeeds before the retry time the failure set, hence none within d - d/5 seconds of the failure, d = min(backoff * 2^attempt, 3600), unless that very wait was cut short |
| Timing.CutIsExact | internal/storage/storage.go:494-503 | the condition is exact: the events that cut a wait short are precisely those that change the row of a waiting job, and after each the job can be claimed before its retry time |
| Timing.OneLoopNeverCuts | internal/scheduler/scheduler.go:114-129 | with retry lists read one at a time and no failed job force-failed, no wait is ever cut short |
| Overlap.OverlapCutsBackoff | internal/scheduler/scheduler.go:114-129 | whenever two retry passes are about to handle the same failed job, with a retry left and a positive backoff, a worker free to serve its tenant and its next execution failing, a run exists in which the second pass cuts the new wait short |
| Overlap.OverlapHappens | internal/scheduler/scheduler.go:114-129 | from every initial state a run leads to a retry pass that cuts a wait short and on to a claim of that job before its retry time |
| Overlap.EarlyClaimHappens | cmd/sluice-cli/main.go:62-113 | from every initial state a run leads through a force-fail and a replay to a claim before run_at |
| NoStuckJob.NoStuckJob | internal/scheduler/scheduler.go:97-219 | from any reachable state with the worker idle, whatever Redis holds, every job of an active tenant can reach succeeded or dead by scheduler passes and one healthy worker, whatever its executions return; a job that is pending now must be in one of its tenant's lists or have fewer than 500 pending jobs of inactive tenants strictly before it; it can reach succeeded if executions are good, unless it was dead or lost its worker on its last attempt |
| NoStuckJob.EveryJobCanFinish | internal/worker/worker.go:87-115 | the same for any state of any run of the cluster from the empty database |
| NoStuckJob.FromPending | internal/storage/storage.go:464-481 | a pending job is dequeued and executed however many are ahead of it: without delay if it is queued for its tenant, and otherwise, through the reconciler, 60 s after its run_at, or now if that is past, if fewer than 500 pending jobs of inactive tenants are strictly before it |
| NoStuckJob.FromWaiting | internal/scheduler/scheduler.go:97-129 | a scheduled or failed job becomes pending and is queued for its tenant at its run_at, or now if that is past, after however many full batches, whoever else is waiting |
| NoStuckJob.FromInFlight | internal/scheduler/scheduler.go:144-163 | a job in flight whose worker is gone is reaped the moment its deadline has passed, to pending and queued or, without attempts left, to dead |
| Starvation.Starves | internal/storage/storage.go:464-481 | a pending job of an active tenant that is not on its way to the worker, with 500 pending jobs of inactive tenants strictly before it, stays pending in every state of every healthy run |
| Starvation.ExecutedIff | internal/scheduler/scheduler.go:205-219 | for a pending job not on its way to the worker, a healthy run that executes it exists if and only if fewer than 500 pending jobs of inactive tenants stand strictly before it |
| Starvation.FrontRows | internal/storage/storage.go:466-481 | which jobs stand before another, in terms of the rows: pending, of tenants no worker serves, more urgent or equally urgent and earlier, and old enough for the reconciler when the other is |
| Starvation.FinishedIff | internal/scheduler/scheduler.go:97-219 | for a job in any state, one that is pending being not on its way already, a healthy run that finishes it exists if and only if it is not pending with 500 pending jobs of inactive tenants strictly before it |
| Starvation.StarvationHappens | internal/scheduler/scheduler.go:21-33 | from every initial state a run leads to a job that starves |
| Progress.Process | internal/worker/worker.go:146-230 | handed any id, an undisturbed worker executes it if pending, recording success, or one attempt more and a retry time ahead, and otherwise drops it without touching a row; the id leaves its processing list |
| Progress.Serve | internal/queue/queue.go:67-105 | a pending job in one of its tenant's lists is executed after whatever is ahead of it, entries that do not parse included |
| Progress.DoCycle | internal/queue/queue.go:78-95 | the events of one undisturbed poll cycle do exactly what the poll function of PollOnce says |
| Batches.SomeBatch | internal/storage/storage.go:258-308 | every scheduler query has a result |
| Batches.WantedIsListed | internal/storage/storage.go:258-308 | a scheduled or failed row whose run_at has come, or a pending one 60 s past it, is listed, or 500 rows are, none of them after it by priority and then run_at; every claim past its deadline is listed |
| Batches.ListedIsWanted | internal/storage/storage.go:258-308 | only such rows are listed, each once, with its own tenant, priority and run_at, by priority and then run_at |
| Batches.BatchFor | internal/storage/storage.go:466-481 | among rows that tie, a result may list any given due row that fewer than a batch of due rows strictly precede |
| Scheduler.PassesDrain | internal/scheduler/scheduler.go:97-129 | with k scheduled (or failed) jobs whose run_at has come and none coming due as time goes on, n passes leave exactly max(0, k - 500 n) |
| Scheduler.PassesInOrder | internal/storage/storage.go:259-292 | over all passes, as time goes on without rows falling due, jobs are promoted in (priority, run_at) order, each at most once |
| Scheduler.Leader.PollScheduledJobs | internal/scheduler/scheduler.go:97-112 | the loop promotes each listed row in turn and pushes its id to its tenant's bucket; the database goes on with its run |
| Scheduler.Leader.PollFailedJobs | internal/scheduler/scheduler.go:114-129 | the same for failed rows, whose run_at becomes the present |
| Scheduler.Leader.ReapStaleClaims | internal/scheduler/scheduler.go:144-163 | the loop requeues each listed row and pushes its id unless the job went to dead, also when no row matched |
| Scheduler.Leader.ReconcilePending | internal/scheduler/scheduler.go:205-219 | the loop pushes every listed id and changes no row |
| Scheduler.ItemsRows | internal/scheduler/scheduler.go:97-163 | a pass treats each listed row exactly once and no other row |
| Scheduler.ListsExact | internal/scheduler/scheduler.go:97-219 | after a pass every queue list is as before, with the listed ids that belong there in front, last first, except those reaped to dead |
| Store.Postgres.InsertJob | internal/storage/storage.go:32-56 | succeeds iff neither the id nor the (tenant, key) pair is taken; the database goes on with its run of the Ledger by this step |
| Store.Postgres.TryClaim | internal/storage/storage.go:90-140 | succeeds iff the job is pending; then the caller is the only holder and its run is open and numbered by attempt; the database goes on with its run of the Ledger by this step |
| Store.Postgres.MarkRunning | internal/storage/storage.go:142-153 | a holder's job is running, a stale token changes nothing, and nobody gains or loses a job; the database goes on with its run of the Ledger by this step |
| Store.Postgres.ExtendDeadline | internal/storage/storage.go:155-166 | a holder that extended is stale exactly after the new deadline, a stale token changes nothing, and nobody gains or loses a job; the database goes on with its run of the Ledger by this step |
| Store.Postgres.CompleteJob | internal/storage/storage.go:168-194 | a holder's job and run succeed at the given time and nobody holds the job; a stale token changes neither table; two Ledger steps, or one without effect |
| Store.Postgres.FailJob | internal/storage/storage.go:196-256 | a holder loses the job, which has one attempt more and is dead exactly when none is left, else failed with the given retry time, and its run is closed with that state; a stale token changes nothing; the database goes on with its run of the Ledger by this step |
| Store.Postgres.RequeueStaleJob | internal/storage/storage.go:310-358 | afterwards no run of the job is open; returns dead iff a stale row matched and died; a row that is not stale stays; the database goes on with its run of the Ledger by this step |
| Store.Postgres.MoveToDeadLetter | internal/storage/storage.go:360-379 | a dead job has a letter afterwards, and letters already written never change; the database goes on with its run of the Ledger by this step |
| Store.Postgres.CancelJob | internal/storage/storage.go:410-420 | succeeds iff the job is the tenant's and waiting; then it is gone, nobody had held it, and every other row stays; the database goes on with its run of the Ledger by this step |
| Store.Postgres.ReplayJob | internal/storage/storage.go:422-443 | succeeds iff the job is dead (and the tenant's, in the API); then it can be claimed again with its whole retry budget; the database goes on with its run of the Ledger by this step |
| Store.Postgres.ForceFail | cmd/sluice-cli/main.go:102-111 | succeeds unless the job is absent, scheduled or finished; then it is dead and nobody holds it, with runs and run_at untouched; the database goes on with its run of the Ledger by this step |
| Store.Postgres.PromoteScheduledToPending | internal/storage/storage.go:483-492 | a scheduled job can be claimed afterwards, whatever its run_at, and nobody gains or loses a job; the database goes on with its run of the Ledger by this step |
| Store.Postgres.PromoteFailedToPending | internal/storage/storage.go:494-503 | a failed job can be claimed afterwards, whatever its run_at, and is due now; nobody gains or loses a job; the database goes on with its run of the Ledger by this step |
| Store.StaleTokenHoldsNothing | internal/storage/storage.go:142-256 | in any database, after any sequence of calls, the token of a claim settled at any earlier moment holds no job |
| Store.OneWinner | internal/storage/storage.go:168-194 | in any database, after any sequence of calls, at most one run of a job is succeeded, and then the job is |
| Execution.Worker.Process | internal/worker/worker.go:146-230 | an undisturbed worker leaves a job it cannot claim alone; one it claims ends with nobody holding it and its run closed in the job's state, succeeded, or with one attempt more and dead or waiting for a retry time the backoff allows; the entry leaves the processing list |
| Execution.Worker.Heartbeat | internal/worker/worker.go:232-251 | after each beat, five seconds apart, the claim becomes stale only 15 s after that beat |
| Queue.CycleFinds | internal/queue/queue.go:78-95 | an uninterrupted poll cycle returns a job iff some listed tenant has a list whose oldest entry parses; if it returns none, every non-empty list visited has lost exactly its oldest entry |
| Queue.CycleServes | internal/queue/queue.go:79-93 | it returns the oldest entry of the first visited list whose oldest entry parses, tenants in the shuffled order, buckets from the most urgent down |
| Queue.PollExact | internal/queue/queue.go:79-93 | the lists after a cycle, key by key: the one served and those before it are one entry shorter, the others unchanged |
| Queue.PollHolds | internal/queue/queue.go:68-83 | what a cycle takes goes to the front of that worker's processing list, the job found first |
| Queue.PollSpares | internal/queue/queue.go:68-83 | a cycle changes no other worker's processing list |
| Queue.PollsFind | internal/queue/queue.go:63-105 | n undisturbed cycles find a job iff one of the n oldest entries of some active tenant's list parses; n cycles that find none have taken just those entries |
| Queue.Fifo | internal/queue/queue.go:54-61 | under any interleaving of clients each (tenant, bucket) list is first in, first out |
| Queue.Conservation | internal/queue/queue.go:80-93 | under any interleaving moves neither lose nor invent entries: what was pushed is queued, in processing, or was explicitly removed |
| Queue.Client.PollOnce | internal/queue/queue.go:80-94 | the nested loops are the poll of the visited keys up to the first LMOVE that fails, including entries that do not parse |
| Queue.Client.Dequeue | internal/queue/queue.go:67-105 | each cycle visits the tenants in the order its random draws determine; unless it is stopped it returns a job iff one of the oldest entries within reach of its cycles parses; it is stopped by the first context check that finds the context done or the first LMOVE of a cycle that fails, and what was moved is what the cycles and visits before that moved |
| Queue.Client.Enqueue | internal/queue/queue.go:54-61 | the id becomes the newest entry of its tenant's list for its priority and no other list changes |
| Queue.UrgentFirst | internal/queue/queue.go:21-33 | of two lists of a tenant, for priorities p and q with p <= 1 < q or p <= 5 < q, a cycle leaves q's alone while p's has a job to give, and finds the oldest of p's unless a more urgent list has one |
| Queue.BucketsSplit | internal/queue/queue.go:24-33 | priorities share a list exactly within the ranges up to 1, 2 to 5, and above 5 |
| Queue.Client.RemoveFromProcessing | internal/queue/queue.go:116-123 | no occurrence of the id is left, every other entry stays in order, and no other list changes |
| Queue.Client.Drain | cmd/sluice-cli/main.go:167-201 | empties every listed queue key once, leaves processing lists alone, and counts exactly the entries removed and the queues that had any |
| Shuffle.WeightedShuffle | internal/queue/queue.go:127-149 | in every round the draw is what rand.Intn answers for the total weight still waiting, and the tenant placed is the one whose stretch of the cumulative weights it hits; with positive weights every round picks somebody and the result is a permutation |
| Shuffle.DrawsPerTenant | internal/queue/queue.go:133-146 | in each round exactly weight of the total possible draws pick each remaining tenant |
| Shuffle.DrawsPermute | internal/queue/queue.go:125-149 | whatever the draws, ordered and remaining tenants together are the tenants given |
| Shuffle.TenantCache.Load | internal/worker/worker.go:126-144 | after a successful load all weights are positive, non-positive ones being 100; after a failed one nothing changed |
| Backoff.CappedDelay | internal/job/job.go:61-68 | the loop computes min(backoff * 2^attempt, 3600) with no value above max(backoff, 7198) on the way |
| Backoff.DelayDoubles | internal/job/job.go:61-68 | the delay is the backoff for attempt 0 and doubles with each attempt, up to 3600 |
| Backoff.NextRetryAt | internal/job/job.go:59-75 | the retry time is exactly now plus the capped delay d, shifted for d >= 5 by the draw from 2 * (d / 5) + 1 minus d / 5 |
| Backoff.PossibleBounds | internal/job/job.go:69-73 | every jittered delay is in [d - d/5, d + d/5] and at most 4320 s |
| Backoff.Separated | internal/job/job.go:61-75 | below the cap every possible delay of an attempt is shorter than every possible delay of the next |
| Submission.IdempotentSubmission | internal/api/handler.go:92-117 | without a cancel in between all successful submits of a (tenant, key) pair return the same job; exactly one creates it if there was none, none otherwise |
| Submission.AlwaysAtMostOne | migrations/000001_init.up.sql:31 | at most one live row per (tenant, key) pair in every interleaving of submits, cancels and protocol steps |
| Submission.BuildJob | internal/api/handler.go:56-90 | a submitted job starts scheduled iff its run_at lies in the future, otherwise pending and due now; priority, retries and backoff are the requested ones or 5, 3 and 30 |
| Cron.FiringsBounded | internal/scheduler/scheduler.go:276-336 | over any span a schedule creates and records at most as many jobs as the span has ticks, plus one only if a tick was overdue at its start |
| Cron.OverdueFiresOnce | internal/scheduler/scheduler.go:263-274 | the extra one is needed: whatever a schedule has fired before, a tick overdue at the start of a span without ticks can fire inside it |
| Cron.LogIncreases | internal/scheduler/scheduler.go:283-284 | next_run_at moves strictly past the firing time, and no firing precedes it |
| Cron.TickBetween | internal/scheduler/scheduler.go:276-332 | missed ticks coalesce: between two firings there is at least one tick and no further job |
| Cron.Expander.FireSchedule | internal/scheduler/scheduler.go:276-336 | unless the expression or the template does not parse or the insert fails, one claimable job with the template's policy or the defaults 5, 3 and 30 is inserted and, unless that fails, queued; if the update succeeds last_run_at is now and next_run_at the next tick after now, and if not the row stays and so does the schedule's being due; otherwise nothing changes |
| Cron.Expander.ExpandCron | internal/scheduler/scheduler.go:263-274 | a pass fires each listed schedule whose job can be created exactly once, at its turn, with last_run_at and next_run_at set from that turn, leaves the others alone, and leaves exactly the rows of those jobs, each from its template at its turn, and their queue entries in front, last first |
| RateLimit.Limiter.Allow | internal/ratelimit/ratelimit.go:24-36 | a call whose INCR lands before two seconds after the start of the second it read is allowed iff fewer than limit calls of its tenant and second landed before it |
| RateLimit.Limiter.Incr | internal/ratelimit/ratelimit.go:28-31 | the count is exact for such a call however reads, INCRs and EXPIREs of other calls interleave; on an expired key it starts again at one |
| RateLimit.Limiter.Expire | internal/ratelimit/ratelimit.go:32-34 | an EXPIRE sets the counter to expire 2 s later if it is still there; whenever it lands, that is not before two seconds after the start of its second |
| RateLimit.WindowExact | internal/ratelimit/ratelimit.go:12-36 | a window whose calls have one limit and INCRs that land in time allows exactly min(limit, calls) calls, whatever happens in other seconds |
| RateLimit.IntervalBound | internal/ratelimit/ratelimit.go:24-36 | if the calls of the k seconds it touches have one limit and land in time, an interval allows at most k * limit calls |
| RateLimit.OneSecondBound | internal/ratelimit/ratelimit.go:24-36 | under the same condition on the two seconds it touches, any one-second interval allows at most 2 * limit calls |

## Left out

- Waiting on row locks and deadlocks: each statement or transaction is atomic, and a locked row is one TryClaim may skip.
- The HTTP handlers as sequential methods: submission is a state machine of insert and lookup, cancel and replay are the database calls.
- Execution.Worker.Process: runs without interference; interleaved, it is the program counter of `Cluster`.
- The heartbeat key in Redis, metrics, traces and logs: nothing reads them back into the protocol.
- `duration_ms`, job type and payload, webhook execution, HTTP routing, authentication, WebSocket and statistics queries: no decision of the protocol depends on them.
- Leader election: schedulers are any number of interleaved processes instead.
- Partitions of `job_runs`: table definitions only.
- Which 200 dead jobs a dead-letter pass lists: MoveToDeadLetter is a step on any id.
- Cron parsing, time zones and expressions that never tick again: `Next` is abstract and always finds a tick.
- Two expanders at once: the cron theorems assume one.
- Cron.FiringsBounded: does not count jobs whose schedule update failed, of which each failure adds one, because the schedule stays due; the record keeps them apart.
- The 200-schedule limit of one expansion: any list of due schedules may be passed.
- Backoff.CappedDelay: for a negative backoff only the cap is stated; overflow of the duration in nanoseconds is not modelled.
- Backoff.NextRetryAt: `int(float64(d) * 0.2)` is d / 5 truncated toward zero, exact for the delays up to 3600 that reach it with a non-negative backoff.
- NoStuckJob.NoStuckJob: states that a run exists, not that every schedule of steps is fair.
- Scheduler.Leader.PollFailedJobs: the clock stands still during an uninterrupted pass.
- Queue.Client.Dequeue: an LMOVE that fails is taken to have moved nothing; other clients' commands between its own are covered by the interleaving theorems and by `Cluster`.
- RateLimit.Limiter.Allow: a call that lands later than that may find its counter expired and be allowed beyond the limit; nothing is promised for it.
