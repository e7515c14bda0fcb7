/**
 The unique index over every run: no two jobs ever share an idempotency key. Only a submission
 gives a job a key (app/services/job_service.py); a replay (app/services/dlq_service.py) and a
 firing (app/services/scheduler_service.py) create jobs without one, and no step changes one.
 */
module Deduplication {
  import opened Model
  import opened Keys
  import opened Protocol
  import opened Ownership
  import opened System
  import opened Transitions
  import JobService

  /** Old rows keep their keys and new ones have none. */
  predicate KeepsKeys(jobs: map<JobId, Job>, after: map<JobId, Job>) {
    forall j :: j in after ==> after[j].key == if j in jobs then jobs[j].key else None
  }

  lemma KeptKeysAreUnique(jobs: map<JobId, Job>, after: map<JobId, Job>)
    requires KeepsKeys(jobs, after) && UniqueKeys(JobService.KeyColumn(jobs))
    ensures UniqueKeys(JobService.KeyColumn(after))
  {
    var was := JobService.KeyColumn(jobs);
    forall i, j | i in after && j in after && after[i].key.Some? && after[i].key == after[j].key ensures i == j {
      assert i in was && j in was && was[i] == was[j];
    }
  }

  // ---------------------------------------------------------------- who creates jobs

  /** A replay takes the work of the dead job, and not its key. */
  lemma ReplayKeepsKeys(s: State, dead: JobId, clone: JobId)
    requires s.db.jobs.Keys <= s.hist.Keys && CanReplay(s, dead, clone)
    ensures KeepsKeys(s.db.jobs, DoReplay(s, dead, clone).db.jobs)
    ensures clone !in s.db.jobs && DoReplay(s, dead, clone).db.jobs[clone].key == None
  {
  }

  lemma FiringKeepsKeys(s: State, t: JobId, child: JobId, next: Time, at: Time)
    requires t in s.db.jobs && child !in s.db.jobs
    ensures KeepsKeys(s.db.jobs, DoCron(s, t, child, next, at).db.jobs)
  {
  }

  lemma SchedulerKeepsKeys(c: Config, s: State, a: SchedulerAct)
    requires s.db.jobs.Keys <= s.hist.Keys && SchedulerEnabled(c, s, a)
    ensures KeepsKeys(s.db.jobs, SchedulerApply(c, s, a).db.jobs)
  {
    match a
    case Promote(_, _) =>
    case Fire(t, child, next, at) => FiringKeepsKeys(s, t, child, next, at);
  }

  lemma ClientKeepsKeys(c: Config, s: State, a: ClientAct)
    requires s.db.jobs.Keys <= s.hist.Keys && ClientEnabled(c, s, a) && !a.Create?
    ensures KeepsKeys(s.db.jobs, ClientApply(c, s, a).db.jobs)
  {
    match a
    case Replay(dead, clone) => ReplayKeepsKeys(s, dead, clone);
    case SetQueue(_, _) =>
    case DeleteQueue(_) =>
  }

  lemma WorkerKeepsKeys(c: Config, s: State, w: WorkerId, a: WorkerAct)
    requires Owned(s) && WorkerEnabled(c, s, w, a)
    ensures KeepsKeys(s.db.jobs, WorkerApply(c, s, w, a).db.jobs)
  {
    if a.ClaimCommit? {
      ClaimTakesLocks(s, w);
    } else {
      WorkerLeavesJobsAlone(c, s, w, a);
    }
  }

  lemma ThreadKeepsKeys(s: State, w: WorkerId, k: Future, a: ThreadAct)
    requires ThreadEnabled(s, w, k, a)
    ensures KeepsKeys(s.db.jobs, ThreadApply(s, w, k, a).db.jobs)
  {
  }

  lemma ReaperKeepsKeys(c: Config, s: State, a: ReaperAct)
    requires ReaperEnabled(s, a)
    ensures KeepsKeys(s.db.jobs, ReaperApply(c, s, a).db.jobs)
  {
  }

  /** No step but a submission brings a key into the table, and none changes one that is there. */
  lemma OthersKeepKeys(c: Config, s: State, a: Step)
    requires Owned(s) && Enabled(c, s, a) && !(a.ByClient? && a.client.Create?)
    ensures KeepsKeys(s.db.jobs, Apply(c, s, a).db.jobs)
  {
    match a
    case ByClient(act) => ClientKeepsKeys(c, s, act);
    case ByWorker(w, act) => WorkerKeepsKeys(c, s, w, act);
    case ByThread(w, k, act) => ThreadKeepsKeys(s, w, k, act);
    case ByReaper(act) => ReaperKeepsKeys(c, s, act);
    case ByScheduler(act) => SchedulerKeepsKeys(c, s, act);
    case Pass(_) =>
  }

  // ---------------------------------------------------------------- every run

  lemma StepKeepsUnique(c: Config, s: State, a: Step)
    requires Owned(s) && Enabled(c, s, a) && UniqueKeys(JobService.KeyColumn(s.db.jobs))
    ensures UniqueKeys(JobService.KeyColumn(Apply(c, s, a).db.jobs))
  {
    if a.ByClient? && a.client.Create? {
      var j := a.client.j;
      JobService.InsertKeepsKeys(s.db.jobs, j, Apply(c, s, a).db.jobs[j]);
    } else {
      OthersKeepKeys(c, s, a);
      KeptKeysAreUnique(s.db.jobs, Apply(c, s, a).db.jobs);
    }
  }

  lemma {:induction false} RunsKeepUnique(c: Config, s: State, run: seq<Step>)
    requires c.Sane() && Inv(c, s) && UniqueKeys(JobService.KeyColumn(s.db.jobs)) && ValidRun(c, s, run)
    ensures UniqueKeys(JobService.KeyColumn(Final(c, s, run).db.jobs))
    decreases |run|
  {
    if run != [] {
      StepKeepsUnique(c, s, run[0]);
      StepKeepsInv(c, s, run[0]);
      RunsKeepUnique(c, Apply(c, s, run[0]), run[1..]);
    }
  }

  /** In every state of every run two jobs with one key are one job. */
  lemma KeysNameOneJob(c: Config, s: State, i: JobId, j: JobId)
    requires c.Sane() && Reachable(c, s) && i in s.db.jobs && j in s.db.jobs
    requires s.db.jobs[i].key.Some? && s.db.jobs[i].key == s.db.jobs[j].key
    ensures i == j
  {
    var run :| ValidRun(c, INITIAL, run) && Final(c, INITIAL, run) == s;
    InitialIsReachable(c);
    ReachableInv(c, INITIAL);
    RunsKeepUnique(c, INITIAL, run);
    var column := JobService.KeyColumn(s.db.jobs);
    assert column[i] == column[j];
  }

  /** And over any run a job that stays keeps the key it was submitted with. */
  lemma {:induction false} KeysArePermanent(c: Config, s: State, run: seq<Step>, j: JobId)
    requires c.Sane() && Inv(c, s) && ValidRun(c, s, run) && j in s.db.jobs && j in Final(c, s, run).db.jobs
    ensures Final(c, s, run).db.jobs[j].key == s.db.jobs[j].key
    decreases |run|
  {
    if run != [] {
      var t := Apply(c, s, run[0]);
      StepKeepsInv(c, s, run[0]);
      if j in t.db.jobs {
        KeysArePermanent(c, t, run[1..], j);
        KeyStays(c, s, run[0], j);
      } else {
        NewRowsAreNew(c, s, run[0]);
        GoneStaysGone(c, t, run[1..], j);
      }
    }
  }

  lemma KeyStays(c: Config, s: State, a: Step, j: JobId)
    requires Owned(s) && Enabled(c, s, a) && j in s.db.jobs && j in Apply(c, s, a).db.jobs
    ensures Apply(c, s, a).db.jobs[j].key == s.db.jobs[j].key
  {
    if !(a.ByClient? && a.client.Create?) {
      OthersKeepKeys(c, s, a);
    }
  }

  lemma {:induction false} GoneStaysGone(c: Config, s: State, run: seq<Step>, j: JobId)
    requires c.Sane() && Inv(c, s) && ValidRun(c, s, run) && j !in s.db.jobs && j in s.hist
    ensures j !in Final(c, s, run).db.jobs
    decreases |run|
  {
    if run != [] {
      NewRowsAreNew(c, s, run[0]);
      StepKeepsInv(c, s, run[0]);
      GoneStaysGone(c, Apply(c, s, run[0]), run[1..], j);
    }
  }
}
