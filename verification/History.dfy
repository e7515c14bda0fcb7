/**
 What a job's row and its history always satisfy: retry accounting, start times, and a
 measure that every step of the job uses up.
 */
module History {
  import opened Model
  import opened Arithmetic
  import opened Protocol
  import opened Ownership
  import DlqService
  import JobService
  import QueueService
  import ReaperService
  import RetryService
  import SchedulerService

  /** A job may fail at least once, and `maxRetries` times if that is more. */
  function Allowance(job: Job): int {
    Max(1, job.maxRetries)
  }

  /** Where a job stands within one attempt; every step but a recovery lowers it or spends a failure. */
  function Rank(job: Job, h: Hist): nat {
    match job.status
    case Scheduled => 4
    case Queued => 3
    case Claimed => 2
    case Running => if h.recorded then 5 else 1
    case _ => 0
  }

  /** The lexicographic measure (failures left, rank), as one number. */
  function Fuel(job: Job, h: Hist): int {
    6 * (Allowance(job) + h.reaps - h.fails) + Rank(job, h)
  }

  predicate MayStillFail(job: Job, h: Hist) {
    job.status == Queued || job.status == Scheduled || job.status == Claimed || (job.status == Running && !h.recorded)
  }

  predicate RowOk(job: Job, h: Hist, now: Time) {
    && job.retryCount == h.fails + h.reaps
    && job.status != Failed
    && (h.recorded ==> job.status == Running && h.fails >= 1)
    && (job.status != Scheduled ==> job.scheduledAt.None? && job.cron.None? && h.notBefore <= now)
    && (job.status == Scheduled && job.cron.None? ==> job.scheduledAt == Some(h.notBefore))
    && (job.cron.Some? ==> h.claims == 0 && h.fails == 0)
    && h.fails <= Allowance(job) + h.reaps
    && (MayStillFail(job, h) ==> h.fails + 1 <= Allowance(job) + h.reaps)
    && h.steps + Fuel(job, h) <= 6 * Allowance(job) + 4 + 9 * h.reaps
    && (job.status == Completed <==> h.winner.Some?)
    && (job.status == Dead ==> job.retryCount >= job.maxRetries && h.fails >= 1)
    && (h.replayed ==> job.status == Dead)
  }

  predicate Rows(s: State) {
    forall j :: j in s.db.jobs ==> j in s.hist && RowOk(s.db.jobs[j], s.hist[j], s.now)
  }

  // ---------------------------------------------------------------- one row, one step

  lemma NewRowOk(q: QueueId, queue: Queue, data: JobCreate, key: Option<string>, now: Time)
    requires data.cron.Some? ==> data.scheduledAt.None?
    ensures var row := JobService.NewRow(q, queue, data, key, now);
            RowOk(row, Fresh(Submitted, 0, if data.scheduledAt.Some? then data.scheduledAt.value else now), now)
  {
  }

  /** Clones and cron children start the same way. */
  lemma QueuedRowOk(job: Job, source: Source, depth: nat, notBefore: Time, now: Time)
    requires job.status == Queued && job.scheduledAt.None? && job.cron.None? && job.retryCount == 0 && notBefore <= now
    ensures RowOk(job, Fresh(source, depth, notBefore), now)
  {
  }

  lemma ClaimedRowOk(job: Job, h: Hist, now: Time, w: WorkerId)
    requires RowOk(job, h, now) && job.status == Queued
    ensures RowOk(job.(status := Claimed, worker := Some(w)), ClaimedHist(h), now)
  {
  }

  lemma StartedRowOk(job: Job, h: Hist, now: Time)
    requires RowOk(job, h, now) && job.status == Claimed
    ensures RowOk(job.(status := Running), StartedHist(h), now)
  {
  }

  lemma FinishedRowOk(job: Job, h: Hist, now: Time, e: ExecId)
    requires RowOk(job, h, now) && job.status == Running && !h.recorded
    ensures RowOk(job.(status := Completed), FinishedHist(h, e), now)
  {
  }

  lemma FailedRowOk(job: Job, h: Hist, now: Time)
    requires RowOk(job, h, now) && job.status == Running && !h.recorded
    ensures RowOk(job.(retryCount := job.retryCount + 1), FailedHist(h), now)
  {
  }

  lemma RetriedRowOk(db: Db, j: JobId, draw: real, h: Hist, now: Time)
    requires j in db.jobs && RowOk(db.jobs[j], h, now) && h.recorded
    ensures var after := RetryService.Retried(db, j, draw, now).jobs[j];
            RowOk(after, RetriedHist(h, after), now)
  {
  }

  lemma ReapedRowOk(job: Job, h: Hist, now: Time)
    requires RowOk(job, h, now) && job.InFlight()
    ensures RowOk(ReaperService.Requeued(job), ReapedHist(h), now)
  {
  }

  lemma TemplateRowOk(job: Job, h: Hist, now: Time, next: Time)
    requires RowOk(job, h, now) && job.status == Scheduled && job.cron.Some?
    ensures RowOk(job.(scheduledAt := Some(next)), h, now)
  {
  }

  lemma PromotedRowOk(job: Job, h: Hist, now: Time)
    requires RowOk(job, h, now) && job.status == Scheduled && job.cron.None?
    requires job.scheduledAt.Some? ==> job.scheduledAt.value <= now
    ensures RowOk(job.(status := Queued, scheduledAt := None), PromotedHist(h), now)
  {
  }

  // ---------------------------------------------------------------- every step

  lemma CreateKeepsRows(s: State, j: JobId, q: QueueId, data: JobCreate, key: Option<string>)
    requires Rows(s) && CanCreate(s, j, q, data, key)
    ensures Rows(DoCreate(s, j, q, data, key))
  {
    NewRowOk(q, s.db.queues[q], data, key, s.now);
  }

  lemma ReplayKeepsRows(s: State, j: JobId, clone: JobId)
    requires Rows(s) && CanReplay(s, j, clone)
    requires s.db.jobs[j].status == Dead
    ensures Rows(DoReplay(s, j, clone))
  {
    QueuedRowOk(DlqService.Clone(s.db, j, s.now), ReplayOf(j), s.hist[j].depth + 1, s.now, s.now);
  }

  lemma DeleteQueueKeepsRows(s: State, q: QueueId)
    requires Rows(s)
    ensures Rows(s.(db := QueueService.Deleted(s.db, q)))
  {
    var t := s.(db := QueueService.Deleted(s.db, q));
    forall j | j in t.db.jobs ensures j in t.hist && RowOk(t.db.jobs[j], t.hist[j], t.now) {
      assert RowOk(s.db.jobs[j], s.hist[j], s.now);
    }
  }

  lemma ClaimCommitKeepsRows(s: State, w: WorkerId)
    requires Rows(s) && Owned(s) && CanClaimCommit(s, w)
    ensures Rows(DoClaimCommit(s, w))
  {
    var t := DoClaimCommit(s, w);
    assert LockOk(s, w);
    forall j | j in t.db.jobs ensures RowOk(t.db.jobs[j], t.hist[j], t.now) {
      if j in s.procs[w].locks {
        ClaimedRowOk(s.db.jobs[j], s.hist[j], s.now, w);
      }
    }
  }

  lemma StartKeepsRows(s: State, w: WorkerId, k: Future, e: ExecId)
    requires Rows(s) && CanStart(s, w, k, e) && FutureOk(s, w, k)
    ensures Rows(DoStart(s, w, k, e))
  {
    StartedRowOk(s.db.jobs[k.job], s.hist[k.job], s.now);
  }

  lemma FinishKeepsRows(s: State, w: WorkerId, k: Future)
    requires Rows(s) && CanFinish(s, w, k) && FutureOk(s, w, k)
    ensures Rows(DoFinish(s, w, k))
  {
    FinishedRowOk(s.db.jobs[k.job], s.hist[k.job], s.now, s.procs[w].futures[k].e);
  }

  lemma FailKeepsRows(s: State, w: WorkerId, k: Future)
    requires Rows(s) && CanFinish(s, w, k) && FutureOk(s, w, k)
    ensures Rows(DoFail(s, w, k))
  {
    FailedRowOk(s.db.jobs[k.job], s.hist[k.job], s.now);
  }

  lemma RetryKeepsRows(s: State, w: WorkerId, k: Future, draw: real)
    requires Rows(s) && CanRetry(s, w, k, draw) && FutureOk(s, w, k)
    ensures Rows(DoRetry(s, w, k, draw))
  {
    RetriedRowOk(s.db, k.job, draw, s.hist[k.job], s.now);
  }

  lemma RecoverKeepsRows(s: State, w: WorkerId)
    requires Rows(s)
    ensures Rows(DoRecover(s, w))
  {
    var t := DoRecover(s, w);
    forall j | j in t.db.jobs ensures j in t.hist && RowOk(t.db.jobs[j], t.hist[j], t.now) {
      if ReaperService.Orphan(s.db.jobs[j], w) {
        ReapedRowOk(s.db.jobs[j], s.hist[j], s.now);
      }
    }
  }

  /** All that promotion's effect on the rows depends on. */
  predicate AllDue(s: State, batch: set<JobId>) {
    forall j :: j in batch ==> SchedulerService.Due(s.db, None, s.now, j)
  }

  lemma BatchIsDue(s: State, batch: set<JobId>, size: int)
    requires CanPromote(s, batch, size)
    ensures AllDue(s, batch)
  {
    assert batch <= SchedulerService.DueSet(s.db, None, s.now);
  }

  lemma PromoteKeepsRows(s: State, batch: set<JobId>)
    requires Rows(s) && AllDue(s, batch)
    ensures Rows(DoPromote(s, batch))
  {
    var t := DoPromote(s, batch);
    forall j | j in t.db.jobs ensures j in t.hist && RowOk(t.db.jobs[j], t.hist[j], t.now) {
      if j in batch {
        PromotedRowOk(s.db.jobs[j], s.hist[j], s.now);
      }
    }
  }

  lemma CronKeepsRows(s: State, t: JobId, child: JobId, next: Time, at: Time)
    requires Rows(s) && t in s.db.jobs && s.db.jobs[t].status == Scheduled && s.db.jobs[t].cron.Some?
    requires child !in s.hist && at <= s.now
    ensures Rows(DoCron(s, t, child, next, at))
  {
    var template, u := s.db.jobs[t], DoCron(s, t, child, next, at);
    TemplateRowOk(template, s.hist[t], s.now, next);
    if template.scheduledAt.Some? {
      QueuedRowOk(SchedulerService.Child(t, template, at), ChildOf(t, template.scheduledAt.value), 0, at, s.now);
    }
    forall j | j in u.db.jobs ensures j in u.hist && RowOk(u.db.jobs[j], u.hist[j], u.now) {
    }
  }

  lemma PassKeepsRows(s: State, until: Time)
    requires Rows(s) && s.now <= until
    ensures Rows(s.(now := until))
  {
  }

  // ---------------------------------------------------------------- what it says

  /**
   Retry accounting: the counter is failures plus recoveries, failures stay within the
   allowance plus the recoveries, and a job is buried only once its own limit is reached.
   */
  lemma AttemptsAreBounded(s: State, j: JobId)
    requires Rows(s) && j in s.db.jobs
    ensures var job, h := s.db.jobs[j], s.hist[j];
            && job.retryCount == h.fails + h.reaps
            && h.fails <= Allowance(job) + h.reaps
            && (h.reaps == 0 ==> h.fails <= Max(1, job.maxRetries))
            && (job.status == Dead ==> job.retryCount >= job.maxRetries)
  {
    assert RowOk(s.db.jobs[j], s.hist[j], s.now);
  }

  /** Every job takes finitely many steps: a fixed number per allowed failure and per recovery. */
  lemma StepsAreBounded(s: State, j: JobId)
    requires Rows(s) && j in s.db.jobs
    ensures 0 <= Fuel(s.db.jobs[j], s.hist[j])
    ensures s.hist[j].steps <= 6 * Allowance(s.db.jobs[j]) + 4 + 9 * s.hist[j].reaps
  {
    assert RowOk(s.db.jobs[j], s.hist[j], s.now);
  }

  /**
   A job never leaves the waiting room early: whenever it is queued, taken or done, the
   instant it was asked to wait for has passed, and no schedule is left on the row.
   */
  lemma NeverEarly(s: State, j: JobId)
    requires Rows(s) && j in s.db.jobs && s.db.jobs[j].status != Scheduled
    ensures s.hist[j].notBefore <= s.now && s.db.jobs[j].scheduledAt.None?
  {
    assert RowOk(s.db.jobs[j], s.hist[j], s.now);
  }
}
