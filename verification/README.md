# Distributed job scheduler: a verified model

The scheduler is a set of independent processes that share one PostgreSQL database: API
clients that submit jobs and edit queues, workers that claim and run jobs, a reaper that
recovers the jobs of dead workers, and schedulers that promote delayed jobs and fire cron
templates. Nothing coordinates them except the rows they commit, the row locks of
`FOR UPDATE SKIP LOCKED`, one advisory lock, and timeouts. This project models those
processes and proves what they guarantee together.

## How the model is built

**Services.** `Model` holds the rows and a `Database` object whose fields are the tables. Each
service has a module of its own (`ClaimService`, `ExecutorService`, `RetryService`, ...). Its
code is a method that changes the database in place, loops included, and is proved against a
function or predicate on database values. What those functions and predicates mean is stated
column by column: which rows a query may return and in which order, what each column of a written
row holds, and how many seconds a stored policy waits. The processes around the services are objects too:
`WorkerProcess.Worker`, `SchedulerProcess.Scheduler`, `LockService.LockServer`,
`IdempotencyService.Cache`.

**The system.** `Protocol` is one state machine over the same functions. A step is one commit
of one process, one local action of a worker, a crash, or the passing of time; every choice of
the environment is a parameter of the step, so the theorems cover every interleaving. Each
worker has its own memory (futures with a program counter each, open row locks, the limit it
last read, its heartbeat clock). Counters that no process reads record each job's history.
`Ownership`, `History`, `Records`, `Lineage`, `Capacity`, `Heartbeats` are the parts of the
invariant, `Preservation` and `System` show that every step keeps it, and `Guarantees` says
what follows in every state of every run. `Recovery` shows that what a crashed worker leaves
behind survives every step of everybody else until the reaper's commit. `Transitions` says what
a step can do to a job's row, and `Deduplication` that no two jobs ever share a key. Three properties the system does not have are characterised
exactly, with the runs that break them in `Sharpness`: `RetryLimit` (counters within their
limits), `QueueLimit` (jobs in flight within their queue's limit) and `Dependencies` (jobs after
the jobs they depend on). `Refinement` and `WorkerProcess` show that an
uninterrupted method call is a run of the protocol, so the two levels are the same system.
`Sharpness` shows which assumptions the main guarantee cannot do without.

**Sub-protocols.** `Timing` is the clock side of one worker and the failure detector.
`Submission` is concurrent submission with a lossy cache. `Leadership` is leader election on the
lock table of `LockService` with ticks that read first and write later; `Environment` shows that the rest of the system behaves
towards the schedulers as assumed there, and that their delayed commits are steps of the system.
`PolicyIndependence` computes a job's view after a run from what happened to the job in it, and
so compares whole runs.

## Assumptions

- A worker that crashes stops: its threads stop, its open transaction rolls back.
- A start-up and a loop body take at most `body` ticks and do not raise, a sleep between two
  passes takes at least `nap` and at most `poll`, and a drain, which sends no heartbeats, at most
  `drain`. The detector's threshold covers the oldest heartbeat these bounds allow:
  min(heartbeat - 1, k * (poll + body)) + poll + 2 * body + max(body, drain) <= threshold, where k
  is the number of naps that fit into heartbeat - 1. `Sharpness.ExclusiveExactlyWhenTimely` shows
  that this inequality is exactly what single execution needs. `Timing.ShippedDrain` shows that
  the shipped threshold of 15 s does not cover the drain of a job that runs for its full 300 s.
- There is one reaper process, and recovering one worker's jobs is one step of it.
- All processes and the database read one monotone clock, counted in microseconds.
- The connection that holds the advisory lock lives as long as the leader.
  `Leadership.ElectionIsSafe` shows that this is needed, because the leader's flag is never
  rechecked.
- Identifiers are never reused.
- The replay of a dead letter, and the count and delete of a queue, are single steps.
- `get_next` of the cron library returns the least matching instant after its base
  (`SchedulerService.Iterates`).

## Where the documentation and the code differ

The model follows the code.

- `docs/DESIGN_DECISIONS.md` section 5 says that the whole retry policy is copied into the
  job's row. Only `max_retries` is. `PolicyIndependence.QueueEditsNeverChangeOutcomes` proves
  what that copy protects: two runs in which the same things happen to a job leave it alike,
  whatever edits, delays and other jobs set the runs apart.
  `PolicyIndependence.DelayFollowsTheQueue` proves that it does not protect the
  delays, and `PolicyIndependence.EditKeepsDelaysExactly` which edits leave a job's delays as
  they were.
- A heartbeat row is stamped with the start of its transaction, not with the instant of the
  check, and a drain counts like a last body. The sufficient bound is therefore one body or
  drain above heartbeat + poll + 2 * body (`Timing.SimpleBound`), and the exact one counts sleeps.
- An exponential policy without a `jitter` key is jittered by `calculate_retry_delay` and not
  by `calculate_next_retry_delay`. `RetryService.EngineMatchesHelper` says exactly when the two
  agree.
- A key header of blanks is stored as the empty string, so a second such submission is refused
  (`JobService.UnkeyedSubmissionRefused`).
- `retry_count` may exceed `max_retries`: a recovery increments it without looking
  (`Sharpness.RecoveryOverrunsLimit`), and so does a failed attempt when no retry is left, be it
  the only attempt of a job that allows none (`Sharpness.FailureOverrunsLimit`).
  `RetryLimit.StepOverrunsExactly` gives the exact condition.
- `depends_on_job_id` is checked when a job is submitted and gates nothing afterwards
  (`Sharpness.DependentRunsFirst`). `Dependencies.ReachableBreaksExactly` says which claims start
  a job too early, and `Dependencies.WaitingClientsAreInOrder` that none does if every client
  submits a job only after its dependency has completed.
- A `multiplier` below one makes some later retry wait less, unless no delay ever reaches two
  seconds (`RetryService.NeverShrinksExactly` has the exact condition). The schema of a queue
  (app/schemas/queue.py:14-22) has no `multiplier`, so only a policy written past the API, or a
  direct call of the function, has one; every other policy is steady
  (`RetryService.NoMultiplierIsSteady`).
- The schema describes `concurrency_limit` as a bound on the jobs executing from a queue
  (app/schemas/queue.py:45). The loop compares it with the futures of one worker, so two workers
  can overfill a queue (`Sharpness.TwoWorkersOverfill`). `QueueLimit.ReachableOverfillsExactly`
  says which steps do, and `QueueLimit.SoleWorkerFits` that a queue keeps its limit if one worker
  at a time serves it.

## Model

| member | source | states |
|---|---|---|
| `Guarantees.SingleExecutor` | app/services/executor_service.py:67-90 | In every state of every run at most one thread of one worker is busy with a job; that worker is alive and is the row's owner, and the row is claimed or running as the thread believes. |
| `Guarantees.UncheckedWritesAreSafe` | app/services/executor_service.py:106-139 | The writes that `run_job` makes without re-reading the row only ever hit a job that is claimed or running by this very worker. |
| `Guarantees.CompletedAtMostOnce` | app/services/executor_service.py:108-122 | No job ever has two completed executions, and one with a completed execution is completed. |
| `Guarantees.NoStrandedJob` | app/workers/main_worker.py:175-185 | A claimed or running job's worker row is active, and the worker either is alive with a busy thread for the job or has crashed: a clean exit leaves none behind. |
| `Guarantees.ExpiredOwnerIsRecovered` | app/services/reaper_service.py:93-111 | Once a job's owner has let its heartbeat expire, every reaper cycle that starts later and is not stopped returns the job to the queue with one more retry counted, whatever all other processes do before and during the cycle. |
| `Guarantees.RecoveryIsAtHand` | app/services/reaper_service.py:93-111 | From such a state with the reaper at rest a query and one commit are enough. |
| `Recovery.StepKeepsOrphan` | app/services/reaper_service.py:46-53 | A job in the hands of a crashed worker keeps status, owner and counter, and the worker its heartbeat, under every step but the commit that recovers that worker. |
| `Recovery.ListedPersists` | app/services/reaper_service.py:103-106 | A worker the cycle found stays on its list, through every interleaving, until its jobs are recovered. |
| `Guarantees.SweepRequeuesOrphans` | app/services/reaper_service.py:41-80 | In every reachable state a cycle re-queues exactly the jobs in flight of the stale workers, all of which have crashed, and leaves every other job as it was. |
| `Guarantees.DetectorIsAccurate` | app/services/reaper_service.py:25-38 | No worker that is starting, looping or draining is ever found dead, and none ever has its heartbeat refused, given the bounds on sleeps, bodies and drains. |
| `Guarantees.ConcurrentClaimsAreDisjoint` | app/services/claim_service.py:31-53 | The lock sets of overlapping claim transactions are pairwise disjoint and hold queued rows only, for any number of workers. |
| `Guarantees.NeverClaimedEarly` | app/services/claim_service.py:40-43 | A committing claim takes no job before the instant it was submitted for or its last retry asked for. |
| `Guarantees.AttemptsBounded` | app/services/retry_service.py:97-153 | In every run retry_count is failures plus recoveries, failures stay within max(1, max_retries) plus recoveries, a job's steps are bounded by a fixed number per failure and recovery, and a job never recovered is buried at exactly its max(1, max_retries)-th failure. |
| `Guarantees.ClaimsNeedEnqueues` | app/services/claim_service.py:45-51 | In every run, between two committing claims of one job, by the same or by different workers, some step puts the job into the queue. |
| `Guarantees.OwnershipFitsSlots` | app/workers/main_worker.py:126-148 | If no limit exceeds the slots, a live worker owns no more jobs in the table than it has futures, it never has more futures than slots, and N live workers own at most N times that. |
| `QueueLimit.ReachableOverfillsExactly` | app/workers/main_worker.py:126-135 | From a reachable state in which every queue's jobs in flight fit its own limit, a step leads out if and only if it is a claiming commit that holds more rows of some queue than its limit leaves room for, or an edit that puts a limit below what is in flight. |
| `QueueLimit.RunOverfillsExactly` | app/services/claim_service.py:104-114 | A run keeps the count of claimed and running jobs of every queue within its limit if and only if none of its steps is such a step. |
| `QueueLimit.SoleWorkerFits` | app/schemas/queue.py:45 | In every run in which the queue's workers, all bound to it, follow one another, each starting when none of its jobs is in flight (after a clean exit, or once a crashed worker's jobs were recovered), and its limit is never lowered, the queue's jobs in flight fit its limit. |
| `Sharpness.TwoWorkersOverfill` | app/workers/main_worker.py:126-148 | A run in which two workers of a queue with one slot have both its jobs in flight. |
| `Guarantees.DeadLettersConserved` | app/services/dlq_service.py:23-59 | In every run the dead jobs are exactly the letters plus the replayed jobs, disjointly and by count, and every letter holds its job's payload. |
| `Guarantees.LineageKept` | app/services/dlq_service.py:112-128 | Through any chain of replays a clone keeps the work of the job first submitted, a cron child does its template's work, and no dead job or occurrence produces two jobs. |
| `System.StepKeepsInv` | app/services/executor_service.py:54-145 | Every commit, local action, crash and clock advance of every process keeps the whole invariant. |
| `System.RunsKeepInv` | app/workers/main_worker.py:104-185 | So does every run, of any length and interleaving. |
| `Sharpness.ExclusiveExactlyWhenTimely` | app/services/reaper_service.py:29-37 | No job is ever in two hands, in any run, if and only if the stale threshold covers the oldest heartbeat a living worker can have, with sleeps of their real length and drains of theirs. |
| `Sharpness.HastyReaper` | app/services/reaper_service.py:58-64 | Below that bound there is a run in which a job is recovered from a living worker, looping or draining, and a second worker claims it too. |
| `Sharpness.RecoveryOverrunsLimit` | app/services/reaper_service.py:60 | For every configuration there is a run in which a queued job's retry_count exceeds its max_retries. |
| `Sharpness.FailureOverrunsLimit` | app/services/executor_service.py:125-136 | For every configuration there is a run without any recovery in which a running job's retry_count exceeds its max_retries. |
| `RetryLimit.StepOverrunsExactly` | app/services/executor_service.py:123-136 | From a table within its limits a step leads out of them if and only if it records a failure of a job at its limit, recovers one, or submits a job with a negative limit. |
| `RetryLimit.RunOverrunsExactly` | app/services/reaper_service.py:58-64 | A run keeps every counter within its limit if and only if none of its steps is such a step. |
| `Sharpness.DependentRunsFirst` | app/services/claim_service.py:34-44 | A run in which a job is claimed while the job it depends on still waits in the same queue. |
| `Dependencies.ReachableBreaksExactly` | app/services/claim_service.py:34-44 | From a reachable state in which the dependency of every job in flight is gone or completed, a step leads out if and only if it is a claiming commit that holds a job whose dependency is a row that is not completed. |
| `Dependencies.RunBreaksExactly` | app/services/claim_service.py:34-51 | A run starts every job after the one it depends on if and only if it has no such claim. |
| `Dependencies.SubmittedAfterIsInOrder` | app/services/job_service.py:69-90 | A job submitted after its dependency has completed is in order in every state of every run from there on: completed is final. |
| `Dependencies.WaitingClientsAreInOrder` | app/services/job_service.py:69-76 | If every submission of a run waits for its dependency, nothing in it starts before what it depends on. |
| `Dependencies.StepKeepsLinked` | app/services/job_service.py:69-76 | A reference to a dependency is always to a row: submissions check it, deletions clear it. |
| `Transitions.OthersAreCalm` | app/services/executor_service.py:71-139 | Every step but a claiming commit takes no job in hand, reopens no completed one, changes no job's queue and at most clears a dependency. |
| `Transitions.StepsAreCounted` | app/services/executor_service.py:71-139 | Every change of a job's status or counter is one of the steps that its history counts. |
| `Ownership.OneFuturePerJob` | app/workers/main_worker.py:139-148 | No two unfinished futures, of any workers, are about the same job. |
| `Ownership.AdvanceKeepsOwned` | app/services/executor_service.py:71-139 | Any commit that touches only its own future's job and finishes the future exactly when the job leaves flight keeps ownership intact. |
| `Ownership.ClaimCommitKeepsOwned` | app/services/claim_service.py:79-89 | A claiming commit followed by dispatch keeps ownership intact, whatever other claims are open. |
| `Ownership.RecoverKeepsOwned` | app/services/reaper_service.py:41-80 | Recovering a crashed worker's jobs takes nothing out of a living worker's hands. |
| `Ownership.MarkKeepsOwned` | app/services/reaper_service.py:83-90 | Retiring a recovered worker strands no job. |
| `Ownership.DeregisterKeepsOwned` | app/services/heartbeat_service.py:60-72 | Deregistering after the drain strands no job. |
| `Lineage.ReplaysKeepTheWork` | app/services/dlq_service.py:112-124 | A clone has the queue, payload, priority and limit of the root of its replay chain. |
| `Capacity.ClusterBoundsOwnership` | app/workers/main_worker.py:126-148 | Any set of live workers owns at most its size times the slots. |
| `Heartbeats.FoundMeansCrashed` | app/services/reaper_service.py:25-38 | Whatever the stale-worker query returns has crashed. |
| `Timing.DetectorAccuracy` | app/workers/main_worker.py:101-185 | Over runs of every length a starting, looping or draining worker is never stale if and only if min(heartbeat - 1, k * (poll + body)) + poll + 2 * body + max(body, drain) <= threshold, where k counts the shortest sleeps that fit into heartbeat - 1. |
| `Timing.SlowestRun` | app/workers/main_worker.py:150-178 | The bound is attained by a run whose sleeps are all as long as the loop makes them. |
| `Timing.BeatKept` | app/workers/main_worker.py:150-173 | What bounds a heartbeat's age is kept by every tick: the time since it is at most what the sleeps that fit into it allow. |
| `Timing.SimpleBound` | app/workers/main_worker.py:150-178 | Covering one interval, one sleep, two bodies and one more body or drain is always enough. |
| `Timing.ShippedSettings` | app/core/config.py:46-60 | With the shipped intervals and drains no longer than bodies, the detector is accurate exactly when a body takes at most 2 666 667 microseconds. |
| `Timing.ShippedDrain` | app/core/config.py:46-60 | With instant bodies it is accurate exactly up to drains of nine seconds, and never with drains as long as the job timeout. |
| `ClaimService.ClaimJobs` | app/services/claim_service.py:19-89 | The batch is what the sorted, limited, skip-locked query may return, empty for a non-positive limit; an unlocked eligible row is left out only for rows of lower priority number, or of the same and no later creation; exactly the batch becomes claimed by the worker, and no other column changes. |
| `ClaimService.TopKIsTheQuery` | app/services/claim_service.py:34-44 | What one statement may return, exactly: unlocked eligible rows, as many as the limit or all there are, lowest priority number first and oldest first among equals. |
| `ClaimService.EligibleIsTheFilter` | app/services/claim_service.py:37-44 | Exactly the rows that are queued, in the asked queue if one is asked, in no paused queue, due now or at no instant, and not locked. |
| `ClaimService.BatchesDrainInOrder` | app/services/claim_service.py:41-43 | Without arrivals successive claims of any number, by any workers and with any limits, are disjoint; every job of an earlier one has a lower priority number than every job of a later one, or the same and no later creation; they take only what was there, and all of it once one comes up short. |
| `ClaimService.ClaimShrinksEligible` | app/services/claim_service.py:45-51 | A claim removes its batch from the eligible set of every queue scope and adds nothing. |
| `Selection.Select` | app/services/claim_service.py:58-67 | The selection loop returns at most `limit` rows, as many as there are, and leaves out none that sorts strictly before one taken. |
| `ExecutorService.RunJob` | app/services/executor_service.py:54-145 | An uninterrupted `run_job` has the effect of its commits in order; a missing job is ignored. |
| `ExecutorService.AttemptOutcome` | app/services/executor_service.py:106-139 | An attempt ends completed, dead or scheduled; it is buried exactly when the attempts spent reach the job's own limit, and a retry waits at least a second; only the job's status, counter and instant, its execution and its letter are written. |
| `RetryService.ScheduleRetry` | app/services/retry_service.py:97-153 | Either the retry or the burial is committed; it is a retry exactly while retry_count is below the job's max_retries. |
| `RetryService.RetryDelayBounds` | app/services/retry_service.py:42-65 | None exactly at the limit; otherwise 1 <= delay <= max(1, floor(min(max_delay, raw))), with equality on the right without jitter, for every policy and draw. |
| `RetryService.StoredDelays` | app/schemas/queue.py:14-22 | For every policy the queue schema can store, in seconds: none from the limit (three if none is given), else the base b (sixty if none is given) for fixed, b * (n + 1) for linear, and for exponential the floor of any draw up to b * 2^n, never above 86400 and never below 1. |
| `RetryService.StoredDelaysAreDrawn` | app/services/retry_service.py:53-59 | For a stored exponential policy the delays that may come out are exactly the whole seconds from 1 to max(1, min(b * 2^n, 86400)). |
| `RetryService.StoredHelperDelays` | app/services/retry_service.py:68-94 | For stored policies the 1-based helper answers min(b, 86400), min(b * attempt, 86400) or min(b * 2^max(0, attempt - 1), 86400), for every attempt. |
| `RetryService.LongestDelay` | app/services/retry_service.py:42-64 | For every policy the longest delay is the formula's, with sixty seconds, a day, and a factor of two for absent keys, and `base_delay` before `initial_delay`. |
| `RetryService.AbsentKeysMean` | app/services/retry_service.py:42-65 | A policy waits what it waits with its absent keys spelled out: fixed, sixty seconds, a day, a factor of two, jitter, three retries. |
| `RetryService.AbsentKeysMeanToTheHelper` | app/services/retry_service.py:76-94 | So does the 1-based helper, except that its jitter is off unless the policy asks for it. |
| `RetryService.QueuesPolicyDecides` | app/services/retry_service.py:111-143 | A failed job with attempts left is scheduled by its queue's policy under its own limit, that many million microseconds ahead, and is otherwise unchanged. |
| `RetryService.DelayMonotone` | app/services/retry_service.py:47-65 | Without jitter a later retry never waits less than an earlier one, for every steady policy. |
| `RetryService.NeverShrinksExactly` | app/services/retry_service.py:42-65 | For every policy the capped and truncated delay never shrinks if and only if the policy is steady: not exponential, or a multiplier of at least one, or no delay beyond a second. |
| `RetryService.HalvingShrinks` | app/services/retry_service.py:52-65 | A policy with a multiplier of one half, which no queue can be given through the API: the first retry waits sixty seconds and the second thirty. |
| `RetryService.NoMultiplierIsSteady` | app/schemas/queue.py:14-22 | Every policy without a multiplier, as the schema of a queue allows, is steady. |
| `RetryService.EngineMatchesHelper` | app/services/retry_service.py:42-94 | Below the limit the engine's delay is max(1, floor) of the 1-based helper at the next attempt, for all draws, if and only if the engine does not draw or has less than two seconds to draw from. |
| `RetryService.SameDelaysExactly` | app/services/retry_service.py:42-65 | Two policies can make a retry wait the same delays if and only if the longest delays are equal and both draw, or neither does, or there is nothing to draw. |
| `RetryService.ExponentialReachesCap` | app/services/retry_service.py:52-64 | For base > 0 and multiplier > 1 the capped formula equals max_delay from a computed retry on. |
| `RetryService.NoPolicyMeansAMinute` | app/services/retry_service.py:111-119 | A job with attempts left whose queue has no policy is scheduled sixty seconds ahead and is otherwise unchanged. |
| `DlqService.MoveToDlq` | app/services/dlq_service.py:23-59 | The job becomes dead and its one letter, new or renewed, holds its payload. |
| `DlqService.RetryDeadJob` | app/services/dlq_service.py:80-128 | A replay deletes the letter and adds a job with the old row's queue, priority and limit and the letter's payload, queued now, with no retries, worker, key, schedule, cron, parent or dependency; it fails, changing nothing, exactly when the letter or the job is missing. |
| `ReaperService.RecoverJobsForWorker` | app/services/reaper_service.py:41-80 | Exactly the worker's jobs in flight are re-queued, and they are counted. |
| `ReaperService.RecoveredRows` | app/services/reaper_service.py:46-65 | A claimed or running row of the worker becomes queued, without worker and with one more retry; every other row and table stays. |
| `ReaperService.SweptRows` | app/services/reaper_service.py:29-37 | A cycle retires exactly the active workers whose heartbeat plus the threshold lies before now, and does to exactly their claimed and running jobs what recovery does. |
| `ReaperService.RunReaperCycle` | app/services/reaper_service.py:93-111 | The nested loops equal the one-shot description of the sweep in whatever order workers come, and the count is that of a disjoint union. |
| `ReaperService.SweepResumes` | app/services/reaper_service.py:103-106 | Stopping after any commit and sweeping again with the same cutoff reaches the same jobs and workers as one uninterrupted cycle. |
| `ReaperService.SweepIsIdempotent` | app/services/reaper_service.py:93-111 | A further cycle with the same cutoff finds nobody and changes nothing. |
| `HeartbeatService.StaleExactlyWhenSilent` | app/services/heartbeat_service.py:20-57 | From registration on, through any heartbeats, the next one is accepted, the row shows the latest stamp and task count, the stale query finds the worker exactly when that stamp is before the cutoff, and no other worker is affected. |
| `HeartbeatService.UpdateHeartbeat` | app/services/heartbeat_service.py:43-57 | A missing or dead worker is refused and nothing changes; otherwise its row gets stamp, task count and active status. |
| `HeartbeatService.DeregisteredIsGone` | app/services/heartbeat_service.py:60-72 | After deregistration no heartbeat is accepted, no cutoff makes the stale query return the worker, and the query's answer about others is unchanged. |
| `QueueService.UpdateQueue` | app/services/queue_service.py:112-157 | Each of the four columns is the update's if it has one and stays as it was otherwise; no other row changes. |
| `QueueService.PauseQueue` | app/services/queue_service.py:177-183 | Only the paused flag is set. |
| `QueueService.ResumeQueue` | app/services/queue_service.py:186-192 | Only the paused flag is cleared. |
| `QueueService.CountActiveJobs` | app/services/queue_service.py:23-36 | The count is the number of queued, scheduled, claimed and running jobs of the queue. |
| `QueueService.DeleteQueue` | app/services/queue_service.py:160-174 | Refused exactly when not forced and a job is active; otherwise the queue goes with its jobs, their executions and letters. |
| `QueueService.DeletesTheQueuesOwn` | app/services/queue_service.py:172-174 | The cascade row by row: jobs, executions and letters of the queue go, workers bound to it are unbound, references to the jobs that went are cleared, and nothing else changes. |
| `SchedulerService.PromoteDueJobs` | app/services/scheduler_service.py:23-59 | The batch is what the sorted, limited query for due non-cron jobs may return; exactly its rows are queued with no schedule left. |
| `SchedulerService.DueBatchIsTheQuery` | app/services/scheduler_service.py:29-40 | What the query may return, exactly: due rows, as many as the limit or all there are, by priority number, then by instant with none last. |
| `SchedulerService.DueIsTheFilter` | app/services/scheduler_service.py:29-38 | Exactly the scheduled rows without a cron expression, in the asked queue if one is asked, whose instant is not after now or absent. |
| `SchedulerService.PromotedRows` | app/services/scheduler_service.py:46-48 | A promoted row becomes queued without an instant, and nothing else changes. |
| `SchedulerService.CatchUp` | app/services/scheduler_service.py:120-127 | However many occurrences were missed, the loop stops, and at the least matching instant strictly after now: the direct search. |
| `SchedulerService.ProcessCronJobs` | app/services/scheduler_service.py:62-146 | Each selected template is advanced, exactly one child is added for each that was due and none for others, nothing else changes, and the count is that of the firings. |
| `SchedulerService.TickedRows` | app/services/scheduler_service.py:93-128 | Column by column: a due or new template gets the next instant after now; each due one gets a child with its queue, payload, priority and limit, itself for a parent, queued now, and no key, cron, schedule, worker, dependency or retries. |
| `SchedulerService.TickCounts` | app/services/scheduler_service.py:105-141 | A pass adds exactly as many rows as templates fired. |
| `SchedulerService.TemplatesAreTheFilter` | app/services/scheduler_service.py:69-77 | Exactly the scheduled rows with a cron expression, in the asked queue if one is asked. |
| `SchedulerService.TickOneMore` | app/services/scheduler_service.py:88-128 | Handling one more template extends a tick by exactly that template and at most one child. |
| `SchedulerService.SessionContinues` | app/services/scheduler_service.py:93-98 | What an intermediate commit saves is itself a tick over some of the templates: each advanced together with its child, or neither. |
| `SchedulerService.FiringAdvances` | app/services/scheduler_service.py:105-127 | A template that fired moves to a match strictly after now and is no longer due. |
| `Leadership.ElectionIsSafe` | app/workers/scheduler.py:37-88 | For any number of schedulers starting, stopping and crashing, at most one leads and no occurrence has two children, if and only if the lock lives as long as its holder. |
| `Leadership.CandidateLeads` | app/workers/scheduler.py:42-52 | In every run with a durable lock a scheduler that asks while nobody leads becomes the leader, and one that asks while another leads changes nothing. |
| `Leadership.LeaderGivesWay` | app/workers/scheduler.py:75-88 | When the leader exits or crashes the lock is free, nobody leads, and the next scheduler that asks does. |
| `Leadership.TwoLeaders` | app/workers/scheduler.py:44-48 | If the lock's connection can drop under a running leader, a run has two leaders and fires one occurrence twice. |
| `Leadership.OneChildPerMove` | app/services/scheduler_service.py:105-128 | In every run a template has had exactly one child for each time its instant moved on. |
| `Leadership.CommitIsTick` | app/services/scheduler_service.py:62-146 | Under one leader a commit computed from rows read earlier is what an undisturbed tick would do. |
| `Leadership.PromotionIsAtomic` | app/services/scheduler_service.py:28-59 | Under one leader every job a promotion read is still scheduled and due at its commit, which leaves the table an atomic promotion of them would. |
| `Environment.OthersLeaveWaiting` | app/services/scheduler_service.py:29-35 | In every reachable state the steps of clients, workers, threads and the reaper leave jobs that wait for their time alone and turn no used id into a template. |
| `Environment.NeverStartedEarly` | app/services/claim_service.py:40-43 | Over every run a job that waits for an instant, as submitted or retried, is found waiting for it still, or not before it. |
| `Environment.CommitIsAFiring` | app/services/scheduler_service.py:85-145 | What a tick writes after its read was overtaken by any other steps is one firing of the system, judged at the instant of the read, or nothing. |
| `Environment.CommitIsAPromotion` | app/services/scheduler_service.py:29-57 | A delayed commit of a promotion is one promotion of the system. |
| `Leadership.HandledMovesOn` | app/services/scheduler_service.py:120-128 | A commit never moves a template back, and moves it strictly past the occurrence it fires. |
| `LockService.LockServer.AcquireAdvisoryLock` | app/services/lock_service.py:14-26 | Granted if and only if the lock is free or this session holds it; a first grant has depth one, a further one adds one, and a refusal changes nothing. |
| `LockService.LockServer.ReleaseAdvisoryLock` | app/services/lock_service.py:29-40 | True if and only if this session held the lock; one level is given up, and with the last the lock is free. |
| `LockService.ReleaseUndoesAcquire` | app/services/lock_service.py:14-40 | Releasing restores the lock table as it was before acquiring. |
| `SchedulerProcess.Scheduler.Tick` | app/workers/scheduler.py:42-64 | A scheduler that finds the lock free, or holds it, leads afterwards, and no other does; a standby leaves the database alone, and a leader performs one promotion and one cron pass of at most a hundred rows each. |
| `SchedulerProcess.Scheduler.Exit` | app/workers/scheduler.py:75-88 | A leader's exit frees the lock, however many ticks it led; a standby's changes nothing. |
| `SchedulerProcess.PromotionLeavesTemplates` | app/workers/scheduler.py:58-59 | Promotion changes nothing the cron pass looks at. |
| `WorkerProcess.Worker.constructor` | app/workers/main_worker.py:75-101 | The row is registered and the loop starts with no futures and a clock of its own. |
| `WorkerProcess.Worker.CleanFinished` | app/workers/main_worker.py:107-114 | Exactly the finished futures are forgotten. |
| `WorkerProcess.Worker.FillSlots` | app/workers/main_worker.py:116-148 | Unless the queue is paused, the best rows that fit are claimed: ten slots, or the queue's limit, or five if its row is gone, less the futures there are; one future is added for each. |
| `WorkerProcess.FuturesAfterDispatch` | app/workers/main_worker.py:106-148 | A pass forgets exactly the futures that are done, keeps the others as they are, and starts one for each job it claimed. |
| `WorkerProcess.Worker.LoopBody` | app/workers/main_worker.py:106-163 | One pass: what is claimed, the futures left, and the heartbeat sent exactly when due, with the number of futures; a refused heartbeat ends the loop and moves no clock. |
| `WorkerProcess.Worker.Shutdown` | app/workers/main_worker.py:175-185 | After the wait the worker's row is deregistered. |
| `WorkerProcess.PassIsARun` | app/workers/main_worker.py:106-163 | From any reachable state an uninterrupted pass is a run of the protocol's steps of this worker alone, with the same database, futures and clock, and its heartbeat is not refused. |
| `WorkerProcess.PassFitsSlots` | app/workers/main_worker.py:126-148 | Whatever limit a pass reads, it leaves no more futures than the limit or than it found. |
| `Refinement.AttemptIsARun` | app/services/executor_service.py:54-145 | An uninterrupted `run_job` is a run of the protocol and leaves its future done. |
| `Refinement.SubmissionIsAStep` | app/services/job_service.py:79-92 | Whatever `create_job` answers, its table is the one a step of the protocol leaves, or the one it found. |
| `Refinement.ReplayIsAStep` | app/services/dlq_service.py:111-124 | A replay that does not fail is a step of the protocol. |
| `Refinement.EditIsAStep` | app/services/queue_service.py:144-150 | An edit of a queue within the bound on limits is a step of the protocol. |
| `Refinement.DeletionIsAStep` | app/services/queue_service.py:160-174 | A deletion that is not refused is a step of the protocol. |
| `Refinement.RegistrationIsAStep` | app/services/heartbeat_service.py:20-35 | The registration of a starting worker is a step of the protocol. |
| `Refinement.ShutdownIsAStep` | app/workers/main_worker.py:175-185 | A worker's way out after its drain is a step of the protocol. |
| `Refinement.ThreadsNeverRecheck` | app/services/executor_service.py:67-139 | The commits of `run_job` are possible whatever the row's status and owner have become since its start. |
| `Refinement.RecoveryNeverRechecks` | app/services/reaper_service.py:103-105 | Once found, a worker is recovered whatever the tables say by then. |
| `Refinement.PromotionIsAStep` | app/services/scheduler_service.py:23-59 | An uninterrupted promotion is a step of the protocol. |
| `Refinement.CycleIsARun` | app/services/reaper_service.py:93-111 | For every order of the workers found, the query and two commits per worker in that order are a run, and it leaves the one-shot sweep. |
| `Refinement.CronPassIsARun` | app/services/scheduler_service.py:62-146 | Whatever table a cron pass leaves, the protocol reaches by firing one template at a time. |
| `Refinement.TickIsUnique` | app/services/scheduler_service.py:88-146 | The row-by-row description of a cron pass has one outcome. |
| `Submission.CacheIsTransparent` | app/services/job_service.py:35-49 | For every interleaving of requests with usable keys and every pattern of cache loss, expiry and outage there is a run of the table-only system with the same table and the same answers. |
| `Submission.StepRefines` | app/services/job_service.py:37-99 | Each commit or cache request is one step of the table-only system, or none. |
| `Submission.RequestIsSubmission` | app/services/job_service.py:46-92 | A request that nothing interrupts is answered as `create_job` answers it and leaves the same key column: a job is created if nobody has the key, and somebody's is returned if somebody has. |
| `Submission.CachedAnswerIsFound` | app/services/job_service.py:37-42 | Once an answer is stored, a later request with the key that reaches the cache is answered with that job by its id alone, or looks the key up if the job is gone. |
| `Submission.SameKeySameJob` | app/services/job_service.py:79-99 | Requests with one key whose jobs still exist were answered with the same job, and at most one was told it created it. |
| `JobService.CreateJob` | app/services/job_service.py:20-99 | Whatever the cache holds or fails to answer, table and answer are those of the table-only submission, and the keys stay unique. A new row holds the request's queue, payload, stripped key, schedule, cron and dependency and the present instant; its priority is the request's or the queue's, its limit the request's, else the policy's, else three; it is scheduled if the request has a schedule or cron and queued otherwise, with no retries, worker or parent. The answer is cached under a usable key unless the cache holds one or cannot be reached. |
| `JobService.AnswersExactly` | app/services/job_service.py:35-92 | By the header: a duplicate exactly when its stripped key is not blank and taken, a missing parent exactly when there is none and it is no duplicate, a refused key exactly when it is blank and taken; the table changes only by the one new row. |
| `JobService.RowAsRequested` | app/services/job_service.py:51-90 | Column by column the new row is what the request asked for, or what its queue says, and a fresh start. |
| `Deduplication.KeysNameOneJob` | app/models/job.py:133-138 | In every state of every run two jobs with one key are one job. |
| `Deduplication.KeysArePermanent` | app/services/job_service.py:79-90 | Over every run a job that stays keeps the key it was submitted with. |
| `Deduplication.OthersKeepKeys` | app/services/dlq_service.py:112-121 | No step but a submission brings a key into the table, and none changes one: clones and cron children have none. |
| `JobService.FindExisting` | app/services/job_service.py:37-49 | The two lookups find a job exactly when the table has one with the key. |
| `JobService.ResubmissionIsIdempotent` | app/services/job_service.py:37-49 | A second submission with a usable key returns the first job and leaves the table alone. |
| `JobService.UnkeyedSubmissionRefused` | app/services/job_service.py:35-38 | A submission without a usable key is refused as a duplicate exactly when its header is blank but not empty and the empty key is taken. |
| `JobService.SecondBlankKeyFails` | app/services/job_service.py:35-92 | Two submissions with a blank header: the first succeeds, the second is refused. |
| `JobService.OmittedMeansTheQueues` | app/services/job_service.py:51-59 | Leaving out priority or limit is the same as asking for the queue's, or three retries; otherwise the queue has no influence. |
| `IdempotencyService.StoreIdempotencyKey` | app/services/idempotency_service.py:41-61 | Only an absent or expired key is written; False exactly when the server said the key exists. |
| `IdempotencyService.FirstWriterWins` | app/services/idempotency_service.py:41-74 | What is stored under a key is what is read until it expires: the first writer's job, then the next one's; other keys are unaffected. |
| `PolicyIndependence.QueueEditsNeverChangeOutcomes` | app/services/retry_service.py:111-130 | If the same things happen to a job in the same order in two runs of any lengths, it ends with the same status, counter, owner, attempts and letter, whatever the edits of queues, the draws, the timing, the polls, sweeps and restarts, and whatever happens to other jobs. |
| `PolicyIndependence.StepActs` | app/services/retry_service.py:97-153 | Every step of the system changes what there is to know about a job, but its instants, exactly as the step's event for this job says: a function of the job's own view that reads no policy, delay or clock. |
| `PolicyIndependence.RunActs` | app/services/retry_service.py:97-153 | After every run a job's view is the fold of what happened to it over the view it started with. |
| `PolicyIndependence.BurialLooksAtTheRowOnly` | app/services/retry_service.py:118-130 | Retry or burial is decided by the job's own counter and limit; a retry changes only status and schedule. |
| `PolicyIndependence.DelayFollowsTheQueue` | app/services/retry_service.py:111-121 | The delay is not protected: the same failed job waits a minute or an hour as the queue says at that moment. |
| `PolicyIndependence.EditKeepsDelaysExactly` | app/services/retry_service.py:111-135 | An edit of a queue leaves open the same instants for the next attempt of a failed job if and only if it keeps the job's longest delay, and whether it is drawn from unless there is nothing to draw. |
| `Slugs.UniqueSlug` | app/api/v1/endpoints/auth.py:62-67 | The search stops after at most as many retries as there are slugs, with a free slug at the least free counter. |
| `Slugs.DecimalReads` | app/api/v1/endpoints/auth.py:62-67 | The suffix is the counter in decimal: digits that read back as it, with no zero in front. |
| `Slugs.CandidateIsInjective` | app/api/v1/endpoints/auth.py:225-230 | Different counters give different names. |
| `Slugs.TriedFits` | app/api/v1/endpoints/auth.py:65-67 | If the first n names are all taken there are at least n slugs. |
| `Helpers.SlugifyIsSlug` | app/utils/helpers.py:11-19 | A slug is never empty and is made of lower-case letters, digits, underscores and hyphens with no two hyphens in a row; it may begin or end with one, or be one. |
| `Helpers.CharByChar` | app/utils/helpers.py:16-17 | By ASCII code: upper-case letters become the lower-case ones, lower-case letters, digits, underscores, hyphens and blanks stay, everything else goes. |
| `Helpers.FilterDistributes` | app/utils/helpers.py:16-17 | Filtering and lower-casing act on each part of a text by itself. |
| `Helpers.StripsBothEnds` | app/utils/helpers.py:17 | Stripping takes the longest runs of blanks off both ends and nothing else. |
| `Helpers.BlanksAre` | app/utils/helpers.py:17 | Blanks are the space, tab to carriage return, and the four separators, by ASCII code. |
| `Helpers.NothingLeftIsOrg` | app/utils/helpers.py:19 | A text of which nothing is left becomes `org`. |
| `Helpers.SlugifyIsIdempotent` | app/utils/helpers.py:11-19 | Slugifying a slug changes nothing. |
| `Helpers.SlugKeepsWords` | app/utils/helpers.py:17-19 | A slug has exactly the words of the filtered, lower-cased text, in order, unless there are none. |

## Left out

- The web frontend, deployment, migrations, metrics, health checks, log rows, pagination and search: no state logic that the properties depend on.
- JWT, password hashing, OAuth exchange and tenant authorization: foreign cryptography and single-branch lookups.
- Columns kept for display only (claimed_at, started_at, finished_at, last_error, reasons).
- Admin `delete_worker` and `prune_dead_workers` (app/api/v1/endpoints/workers.py), and force delete as a step of the protocol: they can take rows away under a living worker. The forced branch of `DeleteQueue` itself is modelled.
- The exception `run_job` swallows (app/services/executor_service.py:141-143), and a claim whose commit succeeds but whose closing query raises: both leave jobs that their living owner no longer runs.
- An error inside one template of a cron pass after its child was flushed.
- `execute_job_payload` and its timeout: the outcome of an attempt is a free choice between success and failure.
- Floating point: delays are computed over the reals, and Python's overflow is not modelled.
- The distribution of jitter: a draw is any value in the closed range.
- Parsing of cron expressions: an expression is a predicate on instants.
- Unicode normalization in `slugify` and non-ASCII blanks in `strip`: text is ASCII.
- The endless outer loops of the worker, reaper and scheduler processes: a method is one pass, and `Protocol` and `Leadership` put passes together in any order.
- `Submission` leaves out keyless and blank-key requests, which never touch the cache except as `InsertOther`, and the check of the parent job, which appears as `Refuse`; both are in `JobService.CreateJob`.
- SingleExecutor: assumes crash-stop workers and the inequality on sleeps, bodies and drains, because the code never rechecks ownership; `Sharpness.ExclusiveExactlyWhenTimely` shows that the inequality cannot be weakened.
- AttemptIsARun: speaks of an attempt that nothing interrupts; interruptions are steps of the protocol.
