/**
 Exactly when `retry_count <= max_retries` fails: which steps push a counter over its limit
 (app/services/executor_service.py, app/services/reaper_service.py).
 */
module RetryLimit {
  import opened Model
  import opened Protocol
  import DlqService
  import JobService
  import ReaperService
  import SchedulerService

  predicate Within(job: Job) {
    job.retryCount <= job.maxRetries
  }

  predicate AllWithin(jobs: map<JobId, Job>) {
    forall j :: j in jobs ==> Within(jobs[j])
  }

  /** No retry is left. */
  predicate AtLimit(job: Job) {
    job.retryCount == job.maxRetries
  }

  /**
   The steps that overrun: a failure recorded for a job with no retries left, the recovery of
   one, and the submission of a job with a negative limit, which the request schema refuses.
   */
  predicate Overruns(s: State, a: Step) {
    match a
    case ByThread(_, k, Fail) => k.job in s.db.jobs && AtLimit(s.db.jobs[k.job])
    case ByReaper(Recover(w)) =>
      exists j :: j in s.db.jobs && ReaperService.Orphan(s.db.jobs[j], w) && AtLimit(s.db.jobs[j])
    case ByClient(Create(_, q, data, _)) => q in s.db.queues && JobService.InheritedLimit(s.db.queues[q], data) < 0
    case _ => false
  }

  /** Writing one row breaks the limit exactly when that row does. */
  lemma OneRowDecides(jobs: map<JobId, Job>, j: JobId, row: Job)
    requires AllWithin(jobs)
    ensures AllWithin(jobs[j := row]) <==> Within(row)
  {
    assert jobs[j := row][j] == row;
  }

  lemma FailureOverruns(s: State, w: WorkerId, k: Future)
    requires AllWithin(s.db.jobs) && CanFinish(s, w, k)
    ensures !AllWithin(DoFail(s, w, k).db.jobs) <==> AtLimit(s.db.jobs[k.job])
  {
    var job := s.db.jobs[k.job];
    OneRowDecides(s.db.jobs, k.job, job.(retryCount := job.retryCount + 1));
  }

  lemma RecoveryOverruns(s: State, w: WorkerId)
    requires AllWithin(s.db.jobs)
    ensures !AllWithin(DoRecover(s, w).db.jobs) <==> Overruns(s, ByReaper(Recover(w)))
  {
    var after := DoRecover(s, w).db.jobs;
    forall j | j in s.db.jobs
      ensures Within(after[j]) <==> !(ReaperService.Orphan(s.db.jobs[j], w) && AtLimit(s.db.jobs[j]))
    {
      assert Within(s.db.jobs[j]);
    }
  }

  lemma OtherThreadStepsStayWithin(s: State, w: WorkerId, k: Future, a: ThreadAct)
    requires AllWithin(s.db.jobs) && ThreadEnabled(s, w, k, a) && !a.Fail?
    ensures AllWithin(ThreadApply(s, w, k, a).db.jobs)
  {
    assert Within(s.db.jobs[k.job]);
    OneRowDecides(s.db.jobs, k.job, ThreadApply(s, w, k, a).db.jobs[k.job]);
  }

  lemma SubmissionOverruns(s: State, j: JobId, q: QueueId, data: JobCreate, key: Option<string>)
    requires AllWithin(s.db.jobs) && CanCreate(s, j, q, data, key)
    ensures !AllWithin(DoCreate(s, j, q, data, key).db.jobs) <==> JobService.InheritedLimit(s.db.queues[q], data) < 0
  {
    OneRowDecides(s.db.jobs, j, JobService.NewRow(q, s.db.queues[q], data, key, s.now));
  }

  lemma OtherClientStepsStayWithin(c: Config, s: State, a: ClientAct)
    requires AllWithin(s.db.jobs) && ClientEnabled(c, s, a) && !a.Create?
    ensures AllWithin(ClientApply(c, s, a).db.jobs)
  {
    if a.Replay? {
      assert Within(s.db.jobs[a.dead]);
      OneRowDecides(s.db.jobs, a.clone, DlqService.Clone(s.db, a.dead, s.now));
    } else {
      var after := ClientApply(c, s, a).db.jobs;
      forall j | j in after ensures Within(after[j]) {
        assert Within(s.db.jobs[j]);
      }
    }
  }

  lemma SchedulerStaysWithin(c: Config, s: State, a: SchedulerAct)
    requires AllWithin(s.db.jobs) && SchedulerEnabled(c, s, a)
    ensures AllWithin(SchedulerApply(c, s, a).db.jobs)
  {
    var after := SchedulerApply(c, s, a).db.jobs;
    match a
    case Promote(batch, _) =>
      forall j | j in after ensures Within(after[j]) {
        assert Within(s.db.jobs[j]);
      }
    case Fire(t, child, next, at) =>
      var template := s.db.jobs[t];
      var moved := template.(scheduledAt := Some(next));
      assert Within(template);
      OneRowDecides(s.db.jobs, t, moved);
      OneRowDecides(s.db.jobs[t := moved], child, SchedulerService.Child(t, template, at));
  }

  lemma MainThreadStaysWithin(c: Config, s: State, w: WorkerId, a: WorkerAct)
    requires AllWithin(s.db.jobs) && WorkerEnabled(c, s, w, a)
    ensures AllWithin(WorkerApply(c, s, w, a).db.jobs)
  {
    var after := WorkerApply(c, s, w, a).db.jobs;
    forall j | j in after ensures Within(after[j]) {
      assert Within(s.db.jobs[j]);
    }
  }

  /** Exactly the overrunning steps take a table that is within its limits out of them. */
  lemma StepOverrunsExactly(c: Config, s: State, a: Step)
    requires AllWithin(s.db.jobs) && Enabled(c, s, a)
    ensures !AllWithin(Apply(c, s, a).db.jobs) <==> Overruns(s, a)
  {
    match a
    case ByClient(Create(j, q, data, key)) => SubmissionOverruns(s, j, q, data, key);
    case ByClient(act) => OtherClientStepsStayWithin(c, s, act);
    case ByWorker(w, act) => MainThreadStaysWithin(c, s, w, act);
    case ByThread(w, k, Fail) => FailureOverruns(s, w, k);
    case ByThread(w, k, act) => OtherThreadStepsStayWithin(s, w, k, act);
    case ByReaper(Recover(w)) => RecoveryOverruns(s, w);
    case ByReaper(_) =>
    case ByScheduler(act) => SchedulerStaysWithin(c, s, act);
    case Pass(_) =>
  }

  /** Every state of the run is within the limits. */
  ghost predicate AlwaysWithin(c: Config, s: State, run: seq<Step>)
    requires ValidRun(c, s, run)
    decreases |run|
  {
    AllWithin(s.db.jobs) && (run != [] ==> AlwaysWithin(c, Apply(c, s, run[0]), run[1..]))
  }

  /** No step of the run is an overrunning one. */
  ghost predicate NeverOverruns(c: Config, s: State, run: seq<Step>)
    requires ValidRun(c, s, run)
    decreases |run|
  {
    run != [] ==> !Overruns(s, run[0]) && NeverOverruns(c, Apply(c, s, run[0]), run[1..])
  }

  /** A run keeps every counter within its limit exactly when none of its steps overruns. */
  lemma {:induction false} RunOverrunsExactly(c: Config, s: State, run: seq<Step>)
    requires ValidRun(c, s, run) && AllWithin(s.db.jobs)
    ensures AlwaysWithin(c, s, run) <==> NeverOverruns(c, s, run)
    decreases |run|
  {
    if run != [] {
      var t := Apply(c, s, run[0]);
      StepOverrunsExactly(c, s, run[0]);
      if AllWithin(t.db.jobs) {
        RunOverrunsExactly(c, t, run[1..]);
      }
    }
  }
}
