/** Burial of exhausted jobs and their manual replay (app/services/dlq_service.py). */
module DlqService {
  import opened Model

  datatype ReplayError = NoEntry | NoJob

  /** Committed effect of `move_to_dlq`. */
  function Buried(db: Db, j: JobId): Db
    requires j in db.jobs
  {
    var job := db.jobs[j];
    db.(jobs := db.jobs[j := job.(status := Dead)], dlq := db.dlq[j := job.payload])
  }

  /** The clone that a replay inserts. */
  function Clone(db: Db, j: JobId, now: Time): Job
    requires j in db.jobs && j in db.dlq
  {
    var orig := db.jobs[j];
    Job(orig.queue, Queued, db.dlq[j], orig.priority, now, None, None, 0, orig.maxRetries, None, None, None, None)
  }

  /** Committed effect of `retry_dead_job`. */
  function Replayed(db: Db, j: JobId, clone: JobId, now: Time): Db
    requires j in db.jobs && j in db.dlq
  {
    db.(jobs := db.jobs[clone := Clone(db, j, now)], dlq := db.dlq - {j})
  }

  method MoveToDlq(db: Database, j: JobId)
    requires j in db.jobs
    modifies db
    ensures db.Value() == Buried(old(db.Value()), j)
    ensures db.Value() == old(db.Value()).(jobs := old(db.jobs)[j := old(db.jobs[j]).(status := Dead)],
                                           dlq := old(db.dlq)[j := old(db.jobs[j].payload)])
  {
    var job := db.jobs[j];
    var entries := db.dlq;
    if j in entries {
      entries := entries[j := job.payload];
    } else {
      entries := entries + map[j := job.payload];
    }
    db.dlq, db.jobs := entries, db.jobs[j := job.(status := Dead)];
  }

  /**
   `retry_dead_job`: a new job with the work of the old one and nothing of its past. `newId` is
   the primary key the database assigns to it.
   */
  method RetryDeadJob(db: Database, j: JobId, newId: JobId, now: Time) returns (r: Result<Job, ReplayError>)
    requires newId !in db.jobs
    modifies db
    ensures match r
            case Failure(NoEntry) => old(j !in db.dlq)
            case Failure(NoJob) => old(j in db.dlq && j !in db.jobs)
            case Success(job) => (
              && old(j in db.dlq && j in db.jobs)
              && db.Value() == Replayed(old(db.Value()), j, newId, now)
              && newId in db.jobs && job == db.jobs[newId]
              && db.Value() == old(db.Value()).(jobs := old(db.jobs)[newId := job], dlq := old(db.dlq) - {j})
              && var orig := old(db.jobs[j]);
                 && job.queue == orig.queue && job.priority == orig.priority && job.maxRetries == orig.maxRetries
                 && job.payload == old(db.dlq[j]) && job.status == Queued && job.retryCount == 0 && job.createdAt == now
                 && job.worker == None && job.key == None && job.scheduledAt == None && job.cron == None
                 && job.parent == None && job.dependsOn == None)
    ensures r.Failure? ==> db.Value() == old(db.Value())
  {
    if j !in db.dlq {
      return Failure(NoEntry);
    }
    if j !in db.jobs {
      return Failure(NoJob);
    }
    var job := Clone(db.Value(), j, now);
    db.jobs, db.dlq := db.jobs[newId := job], db.dlq - {j};
    return Success(job);
  }
}
