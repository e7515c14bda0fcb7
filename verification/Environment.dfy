/**
 What the scheduler processes assume of everybody else holds of the system: jobs that wait for
 their time are left alone, and no used id becomes a template.
 */
module Environment {
  import opened Model
  import opened Protocol
  import opened Ownership
  import opened History
  import opened System
  import opened Transitions
  import Leadership
  import QueueService
  import SchedulerService

  lemma ClientLeavesWaiting(c: Config, s: State, a: ClientAct)
    requires s.db.jobs.Keys <= s.hist.Keys && ClientEnabled(c, s, a)
    ensures Leadership.LeavesWaiting(s.db.jobs, ClientApply(c, s, a).db.jobs, s.hist.Keys)
  {
    if a.DeleteQueue? {
      forall j | j in s.db.jobs && s.db.jobs[j].status == Scheduled ensures j !in QueueService.JobsOf(s.db, a.q) {
        assert j !in QueueService.ActiveJobs(s.db, a.q);
      }
    }
  }

  /** One row changes, and neither it nor its successor is a waiting template. */
  lemma WriteLeavesWaiting(jobs: map<JobId, Job>, j: JobId, row: Job, used: set<JobId>)
    requires j in jobs && jobs[j].status != Scheduled && row.cron.None? && jobs.Keys <= used
    ensures Leadership.LeavesWaiting(jobs, jobs[j := row], used)
  {
    assert forall i :: i in jobs ==> Leadership.SameButLinks(jobs[i], jobs[i]);
  }

  lemma ThreadLeavesWaiting(s: State, w: WorkerId, k: Future, a: ThreadAct)
    requires Owned(s) && Rows(s) && ThreadEnabled(s, w, k, a)
    ensures Leadership.LeavesWaiting(s.db.jobs, ThreadApply(s, w, k, a).db.jobs, s.hist.Keys)
  {
    assert FutureOk(s, w, k) && RowOk(s.db.jobs[k.job], s.hist[k.job], s.now);
    ThreadWritesOneRow(s, w, k, a);
    WriteLeavesWaiting(s.db.jobs, k.job, ThreadApply(s, w, k, a).db.jobs[k.job], s.hist.Keys);
  }

  lemma ThreadWritesOneRow(s: State, w: WorkerId, k: Future, a: ThreadAct)
    requires ThreadEnabled(s, w, k, a)
    ensures k.job in s.db.jobs && k.job in ThreadApply(s, w, k, a).db.jobs
    ensures var row := ThreadApply(s, w, k, a).db.jobs[k.job];
            ThreadApply(s, w, k, a).db.jobs == s.db.jobs[k.job := row] && row.cron == s.db.jobs[k.job].cron
  {
  }

  lemma ReaperLeavesWaiting(c: Config, s: State, a: ReaperAct)
    requires Rows(s) && ReaperEnabled(s, a)
    ensures Leadership.LeavesWaiting(s.db.jobs, ReaperApply(c, s, a).db.jobs, s.hist.Keys)
  {
    var after := ReaperApply(c, s, a).db.jobs;
    forall j | j in s.db.jobs && s.db.jobs[j].status == Scheduled ensures after[j] == s.db.jobs[j] {
    }
  }

  lemma WorkerLeavesWaiting(c: Config, s: State, w: WorkerId, a: WorkerAct)
    requires Owned(s) && WorkerEnabled(c, s, w, a)
    ensures Leadership.LeavesWaiting(s.db.jobs, WorkerApply(c, s, w, a).db.jobs, s.hist.Keys)
  {
    if a.ClaimCommit? {
      ClaimTakesLocks(s, w);
      ClaimLeavesWaiting(s.db.jobs, DoClaimCommit(s, w).db.jobs, s.procs[w].locks, s.hist.Keys);
    } else {
      WorkerLeavesJobsAlone(c, s, w, a);
      NothingLeavesWaiting(s.db.jobs, s.hist.Keys);
    }
  }

  lemma ClaimLeavesWaiting(jobs: map<JobId, Job>, after: map<JobId, Job>, locks: set<JobId>, used: set<JobId>)
    requires locks <= jobs.Keys == after.Keys
    requires forall j :: j in locks ==> jobs[j].status == Queued && after[j].status == Claimed
    requires forall j :: j in jobs && j !in locks ==> after[j] == jobs[j]
    ensures Leadership.LeavesWaiting(jobs, after, used)
  {
  }

  lemma NothingLeavesWaiting(jobs: map<JobId, Job>, used: set<JobId>)
    ensures Leadership.LeavesWaiting(jobs, jobs, used)
  {
  }

  /** Every step of the system but the scheduler's own is one that `Leadership` allows to others. */
  lemma OthersLeaveWaiting(c: Config, s: State, a: Step)
    requires c.Sane() && Reachable(c, s) && Enabled(c, s, a) && !a.ByScheduler?
    ensures Leadership.LeavesWaiting(s.db.jobs, Apply(c, s, a).db.jobs, s.hist.Keys)
  {
    ReachableInv(c, s);
    match a
    case ByClient(act) => ClientLeavesWaiting(c, s, act);
    case ByWorker(w, act) => WorkerLeavesWaiting(c, s, w, act);
    case ByThread(w, k, act) => ThreadLeavesWaiting(s, w, k, act);
    case ByReaper(act) => ReaperLeavesWaiting(c, s, act);
    case Pass(_) =>
  }

  // ---------------------------------------------------------------- and their own commits are steps of the system

  /** The jobs, the clock and the used ids of a system, as the scheduler processes see them. */
  predicate Sees(l: Leadership.State, s: State) {
    l.jobs == s.db.jobs && l.now == s.now && l.used == s.hist.Keys
  }

  /** A firing computed from the row that was read writes what one computed from the current row would. */
  lemma ReadRowFiresAlike(s: State, t: JobId, row: Job, child: JobId, getNext: (CronExpr, Time) -> Time, at: Time)
    requires t in s.db.jobs && Leadership.SameButLinks(row, s.db.jobs[t]) && row.cron.Some?
    requires row.scheduledAt.None? || SchedulerService.Fires(row, at)
    ensures DoCron(s, t, child, getNext(row.cron.value, at), at).db.jobs
            == s.db.jobs + Leadership.Written(s.db.jobs[t], t, row, child, getNext, at)
  {
    assert SchedulerService.Child(t, row, at) == SchedulerService.Child(t, s.db.jobs[t], at);
  }

  /**
   Between its read and its commit a tick may be overtaken by anything; what it writes is still
   one firing of the system, judged at the instant of the read.
   */
  lemma CommitIsAFiring(c: Config, s: State, lc: Leadership.Config, l: Leadership.State, p: Leadership.SchedulerId,
                        t: JobId, child: JobId)
    requires Sees(l, s) && Leadership.Inv(l) && Leadership.CanHandle(l, p, t, child)
    requires SchedulerService.Iterates(c.matches, lc.getNext)
    ensures var tick := l.procs[p].tick.value;
            var row, after := tick.rows[t], Leadership.DoHandle(lc, l, p, t, child).jobs;
            if row.scheduledAt.None? || SchedulerService.Fires(row, tick.at) then
              var a := Fire(t, child, lc.getNext(row.cron.value, tick.at), tick.at);
              SchedulerEnabled(c, s, a) && SchedulerApply(c, s, a).db.jobs == after
            else after == s.db.jobs
  {
    assert Leadership.TickOk(l, p);
    var tick := l.procs[p].tick.value;
    var row := tick.rows[t];
    assert Leadership.DoHandle(lc, l, p, t, child).jobs
           == s.db.jobs + Leadership.Written(s.db.jobs[t], t, row, child, lc.getNext, tick.at);
    if row.scheduledAt.None? || SchedulerService.Fires(row, tick.at) {
      ReadRowFiresAlike(s, t, row, child, lc.getNext, tick.at);
    }
  }

  /** A promotion commits rows that are all still due, so it too is one step of the system. */
  lemma CommitIsAPromotion(c: Config, s: State, l: Leadership.State, p: Leadership.SchedulerId)
    requires Sees(l, s) && Leadership.Inv(l) && Leadership.CanPromote(l, p)
    ensures var a := Promote(l.procs[p].promotion.value.batch, SchedulerService.BATCH_SIZE);
            SchedulerEnabled(c, s, a) && SchedulerApply(c, s, a).db.jobs == Leadership.DoPromote(l, p).jobs
  {
    assert Leadership.PromotionOk(l, p);
  }

  // ---------------------------------------------------------------- so a job waits for its time

  /** A plain job that waits for `at`. */
  predicate WaitsFor(s: State, j: JobId, at: Time) {
    && j in s.db.jobs && s.db.jobs[j].status == Scheduled
    && s.db.jobs[j].cron == None && s.db.jobs[j].scheduledAt == Some(at)
  }

  lemma StepKeepsWaiting(c: Config, s: State, a: Step, j: JobId, at: Time)
    requires c.Sane() && Reachable(c, s) && Enabled(c, s, a) && WaitsFor(s, j, at) && s.now < at
    ensures WaitsFor(Apply(c, s, a), j, at)
  {
    if a.ByScheduler? {
      ReachableInv(c, s);
      SchedulerKeepsWaiting(c, s, a.sched, j, at);
    } else {
      OthersLeaveWaiting(c, s, a);
      assert Leadership.SameButLinks(s.db.jobs[j], Apply(c, s, a).db.jobs[j]);
    }
  }

  lemma SchedulerKeepsWaiting(c: Config, s: State, a: SchedulerAct, j: JobId, at: Time)
    requires s.db.jobs.Keys <= s.hist.Keys && SchedulerEnabled(c, s, a) && WaitsFor(s, j, at) && s.now < at
    ensures WaitsFor(SchedulerApply(c, s, a), j, at)
  {
  }

  lemma ClockNeverGoesBack(c: Config, s: State, a: Step)
    requires Enabled(c, s, a)
    ensures s.now <= Apply(c, s, a).now
  {
    match a
    case ByThread(w, k, act) => ThreadIsLocal(s, w, k, act);
    case ByWorker(w, act) => ClockStays(c, s, w, act);
    case _ =>
  }

  lemma ClockStays(c: Config, s: State, w: WorkerId, a: WorkerAct)
    requires WorkerEnabled(c, s, w, a)
    ensures WorkerApply(c, s, w, a).now == s.now
  {
  }

  /** Whoever finds a job that was to wait for `at` in another state finds it at `at` or later. */
  lemma {:induction false} NeverStartedEarly(c: Config, s: State, run: seq<Step>, j: JobId, at: Time)
    requires c.Sane() && Reachable(c, s) && ValidRun(c, s, run) && WaitsFor(s, j, at)
    ensures WaitsFor(Final(c, s, run), j, at) || at <= Final(c, s, run).now
    decreases |run|
  {
    if at <= s.now {
      TimePasses(c, s, run);
    } else if run != [] {
      StepKeepsWaiting(c, s, run[0], j, at);
      StepStaysReachable(c, s, run[0]);
      NeverStartedEarly(c, Apply(c, s, run[0]), run[1..], j, at);
    }
  }

  lemma {:induction false} TimePasses(c: Config, s: State, run: seq<Step>)
    requires ValidRun(c, s, run)
    ensures s.now <= Final(c, s, run).now
    decreases |run|
  {
    if run != [] {
      ClockNeverGoesBack(c, s, run[0]);
      TimePasses(c, Apply(c, s, run[0]), run[1..]);
    }
  }
}
