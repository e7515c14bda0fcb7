/**
 What a step can do to a job's row: who may take a job in hand, what is final, and which
 columns never change.
 */
module Transitions {
  import opened Model
  import opened Protocol
  import opened Ownership
  import opened System
  import SchedulerService

  /** Somebody has `j` in hand. */
  predicate InHand(jobs: map<JobId, Job>, j: JobId) {
    j in jobs && jobs[j].InFlight()
  }

  predicate IsCompleted(jobs: map<JobId, Job>, j: JobId) {
    j in jobs && jobs[j].status == Completed
  }

  /** `b` is a later state of the row `a`: same queue, and a dependency is only ever cleared. */
  predicate Follows(a: Job, b: Job) {
    b.queue == a.queue && (b.dependsOn == a.dependsOn || b.dependsOn == None)
  }

  /**
   How a table that a step other than a claiming commit leaves relates to the one it found:
   nothing is taken in hand, nothing completed is reopened, rows follow, and new rows are new.
   */
  predicate Calm(jobs: map<JobId, Job>, after: map<JobId, Job>) {
    && (forall j :: j in after && InHand(after, j) ==> InHand(jobs, j) && after[j].worker == jobs[j].worker)
    && (forall j :: j in after && IsCompleted(jobs, j) ==> IsCompleted(after, j))
    && (forall j :: j in after && j in jobs ==> Follows(jobs[j], after[j]))
  }

  lemma ClientIsCalm(c: Config, s: State, a: ClientAct)
    requires s.db.jobs.Keys <= s.hist.Keys && ClientEnabled(c, s, a)
    ensures Calm(s.db.jobs, ClientApply(c, s, a).db.jobs)
  {
  }

  lemma ThreadIsCalm(s: State, w: WorkerId, k: Future, a: ThreadAct)
    requires FuturesOk(s) && ThreadEnabled(s, w, k, a)
    ensures Calm(s.db.jobs, ThreadApply(s, w, k, a).db.jobs)
  {
    var after := ThreadApply(s, w, k, a).db.jobs;
    assert FutureOk(s, w, k);
    assert after == s.db.jobs[k.job := after[k.job]];
  }

  lemma ReaperIsCalm(c: Config, s: State, a: ReaperAct)
    requires ReaperEnabled(s, a)
    ensures Calm(s.db.jobs, ReaperApply(c, s, a).db.jobs)
  {
  }

  lemma PromotionIsCalm(s: State, batch: set<JobId>)
    requires AllScheduled(s, batch)
    ensures Calm(s.db.jobs, DoPromote(s, batch).db.jobs)
  {
  }

  lemma FiringIsCalm(s: State, t: JobId, child: JobId, next: Time, at: Time)
    requires t in s.db.jobs && s.db.jobs[t].status == Scheduled && child !in s.db.jobs
    ensures Calm(s.db.jobs, DoCron(s, t, child, next, at).db.jobs)
  {
    var template := s.db.jobs[t];
    var moved := template.(scheduledAt := Some(next));
    var mid := s.db.jobs[t := moved];
    WriteIsCalm(s.db.jobs, t, moved);
    if template.scheduledAt.Some? {
      var row := SchedulerService.Child(t, template, at);
      WriteIsCalm(mid, child, row);
      CalmComposes(s.db.jobs, mid, mid[child := row]);
    }
  }

  lemma WriteIsCalm(jobs: map<JobId, Job>, j: JobId, row: Job)
    requires !row.InFlight() && (j in jobs ==> jobs[j].status != Completed && Follows(jobs[j], row))
    ensures Calm(jobs, jobs[j := row])
  {
  }

  lemma CalmComposes(a: map<JobId, Job>, b: map<JobId, Job>, c: map<JobId, Job>)
    requires Calm(a, b) && Calm(b, c) && a.Keys <= b.Keys && b.Keys <= c.Keys
    ensures Calm(a, c)
  {
    forall j | j in c && j in a ensures Follows(a[j], c[j]) {
      assert j in b && Follows(a[j], b[j]) && Follows(b[j], c[j]);
    }
  }

  lemma SchedulerIsCalm(c: Config, s: State, a: SchedulerAct)
    requires s.db.jobs.Keys <= s.hist.Keys && SchedulerEnabled(c, s, a)
    ensures Calm(s.db.jobs, SchedulerApply(c, s, a).db.jobs)
  {
    match a
    case Promote(batch, size) =>
      DueAreScheduled(s, batch, size);
      PromotionIsCalm(s, batch);
    case Fire(t, child, next, at) => FiringIsCalm(s, t, child, next, at);
  }

  predicate IsClaim(a: Step) {
    a.ByWorker? && a.act.ClaimCommit?
  }

  /** Only a claiming commit takes jobs in hand. */
  lemma OthersAreCalm(c: Config, s: State, a: Step)
    requires Owned(s) && Enabled(c, s, a) && !IsClaim(a)
    ensures Calm(s.db.jobs, Apply(c, s, a).db.jobs)
  {
    match a
    case ByClient(act) => ClientIsCalm(c, s, act);
    case ByWorker(w, act) => WorkerLeavesJobsAlone(c, s, w, act);
    case ByThread(w, k, act) => ThreadIsCalm(s, w, k, act);
    case ByReaper(act) => ReaperIsCalm(c, s, act);
    case ByScheduler(act) => SchedulerIsCalm(c, s, act);
    case Pass(_) =>
  }

  /** A claiming commit takes exactly the rows it holds, which were queued, and changes no other. */
  lemma ClaimTakesLocks(s: State, w: WorkerId)
    requires Owned(s) && CanClaimCommit(s, w)
    ensures var jobs, after, locks := s.db.jobs, DoClaimCommit(s, w).db.jobs, s.procs[w].locks;
            && locks <= jobs.Keys && after.Keys == jobs.Keys
            && (forall j :: j in locks ==>
                  jobs[j].status == Queued && after[j] == jobs[j].(status := Claimed, worker := Some(w)))
            && (forall j :: j in jobs && j !in locks ==> after[j] == jobs[j])
  {
    assert LockOk(s, w);
  }

  /** How the tables of jobs and histories grow: by ids that were never used. */
  predicate Grows(s: State, t: State) {
    (forall j :: j in t.db.jobs ==> j in s.db.jobs || j !in s.hist) && s.hist.Keys <= t.hist.Keys
  }

  lemma ClientGrows(c: Config, s: State, a: ClientAct)
    requires ClientEnabled(c, s, a)
    ensures Grows(s, ClientApply(c, s, a))
  {
  }

  lemma WorkerGrows(c: Config, s: State, w: WorkerId, a: WorkerAct)
    requires Owned(s) && WorkerEnabled(c, s, w, a)
    ensures Grows(s, WorkerApply(c, s, w, a)) && WorkerApply(c, s, w, a).db.jobs.Keys == s.db.jobs.Keys
  {
    if a.ClaimCommit? {
      ClaimTakesLocks(s, w);
    } else {
      WorkerLeavesJobsAlone(c, s, w, a);
    }
  }

  lemma ThreadGrows(s: State, w: WorkerId, k: Future, a: ThreadAct)
    requires ThreadEnabled(s, w, k, a)
    ensures Grows(s, ThreadApply(s, w, k, a)) && ThreadApply(s, w, k, a).db.jobs.Keys == s.db.jobs.Keys
  {
  }

  lemma ReaperGrows(c: Config, s: State, a: ReaperAct)
    requires ReaperEnabled(s, a)
    ensures Grows(s, ReaperApply(c, s, a)) && ReaperApply(c, s, a).db.jobs.Keys == s.db.jobs.Keys
  {
  }

  lemma SchedulerGrows(c: Config, s: State, a: SchedulerAct)
    requires SchedulerEnabled(c, s, a)
    ensures Grows(s, SchedulerApply(c, s, a))
  {
  }

  /** An id that was ever used names no other job later. */
  lemma NewRowsAreNew(c: Config, s: State, a: Step)
    requires Owned(s) && Enabled(c, s, a)
    ensures Grows(s, Apply(c, s, a))
  {
    match a
    case ByClient(act) => ClientGrows(c, s, act);
    case ByWorker(w, act) => WorkerGrows(c, s, w, act);
    case ByThread(w, k, act) => ThreadGrows(s, w, k, act);
    case ByReaper(act) => ReaperGrows(c, s, act);
    case ByScheduler(act) => SchedulerGrows(c, s, act);
    case Pass(_) =>
  }

  /** Workers, threads and the reaper add and remove no job. */
  lemma ProcessesAddNoRows(c: Config, s: State, a: Step)
    requires Owned(s) && Enabled(c, s, a) && !a.ByClient? && !a.ByScheduler?
    ensures Apply(c, s, a).db.jobs.Keys == s.db.jobs.Keys
  {
    match a
    case ByWorker(w, act) => WorkerGrows(c, s, w, act);
    case ByThread(w, k, act) => ThreadGrows(s, w, k, act);
    case ByReaper(act) => ReaperGrows(c, s, act);
    case Pass(_) =>
  }

  // ---------------------------------------------------------------- what is counted

  /** A change of the job's status or counter is one of its steps. */
  predicate Counts(s: State, t: State, j: JobId) {
    j in s.db.jobs && j in t.db.jobs && j in s.hist && j in t.hist &&
    (s.db.jobs[j].status != t.db.jobs[j].status || s.db.jobs[j].retryCount != t.db.jobs[j].retryCount ==>
       t.hist[j].steps == s.hist[j].steps + 1)
  }

  lemma StepsAreCounted(c: Config, s: State, a: Step, j: JobId)
    requires Owned(s) && Enabled(c, s, a) && j in s.db.jobs && j in Apply(c, s, a).db.jobs
    ensures Counts(s, Apply(c, s, a), j)
  {
    match a
    case ByClient(act) => ClientCounts(c, s, act, j);
    case ByWorker(w, act) => WorkerCounts(c, s, w, act, j);
    case ByThread(w, k, act) => ThreadCounts(s, w, k, act, j);
    case ByReaper(act) => ReaperCounts(c, s, act, j);
    case ByScheduler(act) => SchedulerCounts(c, s, act, j);
    case Pass(_) => assert JobOwned(s, j);
  }

  lemma ClientCounts(c: Config, s: State, a: ClientAct, j: JobId)
    requires s.db.jobs.Keys <= s.hist.Keys && ClientEnabled(c, s, a)
    requires j in s.db.jobs && j in ClientApply(c, s, a).db.jobs
    ensures Counts(s, ClientApply(c, s, a), j)
  {
  }

  lemma WorkerCounts(c: Config, s: State, w: WorkerId, a: WorkerAct, j: JobId)
    requires Owned(s) && WorkerEnabled(c, s, w, a) && j in s.db.jobs && j in WorkerApply(c, s, w, a).db.jobs
    ensures Counts(s, WorkerApply(c, s, w, a), j)
  {
    if a.ClaimCommit? {
      ClaimTakesLocks(s, w);
    } else {
      WorkerLeavesJobsAlone(c, s, w, a);
    }
  }

  lemma ThreadCounts(s: State, w: WorkerId, k: Future, a: ThreadAct, j: JobId)
    requires s.db.jobs.Keys <= s.hist.Keys && ThreadEnabled(s, w, k, a)
    requires j in s.db.jobs && j in ThreadApply(s, w, k, a).db.jobs
    ensures Counts(s, ThreadApply(s, w, k, a), j)
  {
  }

  lemma ReaperCounts(c: Config, s: State, a: ReaperAct, j: JobId)
    requires s.db.jobs.Keys <= s.hist.Keys && ReaperEnabled(s, a)
    requires j in s.db.jobs && j in ReaperApply(c, s, a).db.jobs
    ensures Counts(s, ReaperApply(c, s, a), j)
  {
  }

  lemma FiringCounts(s: State, t: JobId, child: JobId, next: Time, at: Time, j: JobId)
    requires s.db.jobs.Keys <= s.hist.Keys && t in s.db.jobs && child !in s.hist && j in s.db.jobs
    ensures Counts(s, DoCron(s, t, child, next, at), j)
  {
  }

  lemma SchedulerCounts(c: Config, s: State, a: SchedulerAct, j: JobId)
    requires s.db.jobs.Keys <= s.hist.Keys && SchedulerEnabled(c, s, a)
    requires j in s.db.jobs && j in SchedulerApply(c, s, a).db.jobs
    ensures Counts(s, SchedulerApply(c, s, a), j)
  {
    match a
    case Promote(_, _) =>
    case Fire(t, child, next, at) => FiringCounts(s, t, child, next, at, j);
  }
}
