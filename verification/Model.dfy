/**
 The rows of the `jobs`, `queues`, `workers`, `job_executions` and `dead_letter_entries`
 tables, and the shared database that every service of the scheduler reads and writes.
 Columns kept only for display (claimed_at, finished_at, last_error, ...) are left out.
 */
module Model {

  datatype Option<+T> = None | Some(value: T)

  datatype Result<+T, +E> = Success(value: T) | Failure(error: E)

  type JobId = nat
  type QueueId = nat
  type WorkerId = nat
  type ExecId = nat
  type Payload = string
  type CronExpr = string

  /** Instants are counted in whole ticks of one shared clock, the microseconds of a timestamp column. */
  type Time = int

  /** The ticks of a second, in which delays are configured. */
  const SECOND: Time := 1_000_000

  datatype Status = Queued | Scheduled | Claimed | Running | Completed | Failed | Dead

  datatype Job = Job(
    queue: QueueId,
    status: Status,
    payload: Payload,
    priority: int,
    createdAt: Time,
    scheduledAt: Option<Time>,
    cron: Option<CronExpr>,
    retryCount: nat,
    maxRetries: int,
    worker: Option<WorkerId>,
    key: Option<string>,
    parent: Option<JobId>,
    dependsOn: Option<JobId>)
  {
    /** Somebody has taken the job and has not yet reported an outcome. */
    predicate InFlight() {
      status == Claimed || status == Running
    }

    /** What `count_active_jobs` counts. */
    predicate Active() {
      InFlight() || status == Queued || status == Scheduled
    }
  }

  /** The body of a submission, already validated: at most one of the two schedules is set. */
  datatype JobCreate = JobCreate(
    payload: Payload,
    priority: Option<int>,
    scheduledAt: Option<Time>,
    cron: Option<CronExpr>,
    maxRetries: Option<int>,
    dependsOn: Option<JobId>)

  datatype Strategy = Fixed | Linear | Exponential | Other(name: string)

  /** The retry policy of a queue is a JSON object: every key may be absent. */
  datatype Policy = Policy(
    strategy: Option<Strategy>,
    baseDelay: Option<real>,
    initialDelay: Option<real>,
    maxDelay: Option<real>,
    multiplier: Option<real>,
    jitter: Option<bool>,
    maxRetries: Option<int>)

  datatype Queue = Queue(priority: int, concurrencyLimit: int, policy: Policy, paused: bool)

  datatype Worker = Worker(queue: Option<QueueId>, active: bool, heartbeat: Time, tasks: nat)

  datatype ExecStatus = ExecRunning | ExecCompleted | ExecFailed

  datatype Execution = Execution(job: JobId, worker: WorkerId, status: ExecStatus)

  /** One committed state of the database. */
  datatype Db = Db(
    queues: map<QueueId, Queue>,
    jobs: map<JobId, Job>,
    workers: map<WorkerId, Worker>,
    execs: map<ExecId, Execution>,
    dlq: map<JobId, Payload>)

  /** The shared store. Each assignment statement to its fields is one commit. */
  class Database {
    var queues: map<QueueId, Queue>
    var jobs: map<JobId, Job>
    var workers: map<WorkerId, Worker>
    var execs: map<ExecId, Execution>
    var dlq: map<JobId, Payload>

    constructor ()
      ensures Value() == Db(map[], map[], map[], map[], map[])
    {
      queues, jobs, workers, execs, dlq := map[], map[], map[], map[], map[];
    }

    function Value(): Db
      reads this
    {
      Db(queues, jobs, workers, execs, dlq)
    }
  }
}
