/** One attempt at a job, commit by commit (app/services/executor_service.py). */
module ExecutorService {
  import opened Model
  import RetryService

  /** First commit of `run_job`: the job runs and an execution row `e` records it. */
  function Started(db: Db, j: JobId, w: WorkerId, e: ExecId): Db
    requires j in db.jobs
  {
    db.(jobs := db.jobs[j := db.jobs[j].(status := Running)],
        execs := db.execs[e := Execution(j, w, ExecRunning)])
  }

  /** The success commit. */
  function FinishedOk(db: Db, j: JobId, e: ExecId): Db
    requires j in db.jobs && e in db.execs
  {
    db.(jobs := db.jobs[j := db.jobs[j].(status := Completed)],
        execs := db.execs[e := db.execs[e].(status := ExecCompleted)])
  }

  /** The failure commit: the attempt is counted, the job still reads `running`. */
  function FailureRecorded(db: Db, j: JobId, e: ExecId): Db
    requires j in db.jobs && e in db.execs
  {
    db.(jobs := db.jobs[j := db.jobs[j].(retryCount := db.jobs[j].retryCount + 1)],
        execs := db.execs[e := db.execs[e].(status := ExecFailed)])
  }

  /** A whole attempt that nothing interrupts; `failed` is what the payload did. */
  function Attempted(db: Db, j: JobId, w: WorkerId, e: ExecId, failed: bool, draw: real, now: Time): Db
    requires j in db.jobs
  {
    var started := Started(db, j, w, e);
    if failed then RetryService.Retried(FailureRecorded(started, j, e), j, draw, now)
    else FinishedOk(started, j, e)
  }

  /** `run_job`. A missing job is ignored. The stored row is never re-read after the start. */
  method RunJob(db: Database, j: JobId, w: WorkerId, e: ExecId, failed: bool, draw: real, now: Time)
    requires e !in db.execs
    modifies db
    ensures old(j !in db.jobs) ==> db.Value() == old(db.Value())
    ensures old(j in db.jobs) ==>
              db.Value() == Attempted(old(db.Value()), j, w, e, failed, draw, now)
  {
    if j !in db.jobs {
      return;
    }
    var job := db.jobs[j];
    job := job.(status := Running);
    var execution := Execution(j, w, ExecRunning);
    db.jobs, db.execs := db.jobs[j := job], db.execs[e := execution];

    if !failed {
      job := job.(status := Completed);
      execution := execution.(status := ExecCompleted);
      db.jobs, db.execs := db.jobs[j := job], db.execs[e := execution];
    } else {
      job := job.(retryCount := job.retryCount + 1);
      execution := execution.(status := ExecFailed);
      db.jobs, db.execs := db.jobs[j := job], db.execs[e := execution];
      var _ := RetryService.ScheduleRetry(db, j, draw, now);
    }
  }

  /**
   An uninterrupted attempt ends completed, dead or scheduled; it is buried exactly when the
   attempts already spent, counting this one, reach the job's own limit. It writes its own row,
   its execution and at most one letter, and nothing else.
   */
  lemma AttemptOutcome(db: Db, j: JobId, w: WorkerId, e: ExecId, failed: bool, draw: real, now: Time)
    requires j in db.jobs
    ensures var db' := Attempted(db, j, w, e, failed, draw, now);
            && j in db'.jobs && e in db'.execs
            && (db'.jobs[j].status == Completed <==> !failed)
            && (db'.jobs[j].status == Dead <==> failed && db.jobs[j].retryCount + 1 >= db.jobs[j].maxRetries)
            && (db'.jobs[j].status == Scheduled <==> failed && db.jobs[j].retryCount + 1 < db.jobs[j].maxRetries)
            && db'.jobs[j].retryCount == db.jobs[j].retryCount + (if failed then 1 else 0)
            && (db'.jobs[j].status == Scheduled ==>
                  db'.jobs[j].scheduledAt.Some? && db'.jobs[j].scheduledAt.value >= now + 1_000_000)
            && (db'.jobs[j].status == Dead ==> j in db'.dlq && db'.dlq[j] == db.jobs[j].payload)
            && db'.execs == db.execs[e := Execution(j, w, if failed then ExecFailed else ExecCompleted)]
            && db'.queues == db.queues && db'.workers == db.workers
            && db'.dlq == (if db'.jobs[j].status == Dead then db.dlq[j := db.jobs[j].payload] else db.dlq)
            && db'.jobs == db.jobs[j := db.jobs[j].(status := db'.jobs[j].status, retryCount := db'.jobs[j].retryCount,
                                                    scheduledAt := db'.jobs[j].scheduledAt)]
            && (db'.jobs[j].status != Scheduled ==> db'.jobs[j].scheduledAt == db.jobs[j].scheduledAt)
  {
  }
}
