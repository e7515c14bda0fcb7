/**
 Exactly when a job starts before the one it depends on: the claiming query does not look at
 `depends_on_job_id` (app/services/claim_service.py), only a submission does
 (app/services/job_service.py).
 */
module Dependencies {
  import opened Model
  import opened Protocol
  import opened Ownership
  import opened System
  import opened Transitions

  // ---------------------------------------------------------------- references

  /** Every reference to a dependency is to a row: a submission checks it, a deletion clears it. */
  predicate Linked(jobs: map<JobId, Job>) {
    forall j :: j in jobs && jobs[j].dependsOn.Some? ==> jobs[j].dependsOn.value in jobs
  }

  lemma ClientKeepsLinked(c: Config, s: State, a: ClientAct)
    requires Linked(s.db.jobs) && ClientEnabled(c, s, a)
    ensures Linked(ClientApply(c, s, a).db.jobs)
  {
  }

  /** Rows are added without references, or not at all, and none goes away. */
  lemma GrowthKeepsLinked(jobs: map<JobId, Job>, after: map<JobId, Job>)
    requires Linked(jobs) && jobs.Keys <= after.Keys
    requires forall j :: j in after ==> if j in jobs then Follows(jobs[j], after[j]) else after[j].dependsOn == None
    ensures Linked(after)
  {
  }

  lemma ThreadKeepsLinked(s: State, w: WorkerId, k: Future, a: ThreadAct)
    requires Linked(s.db.jobs) && FuturesOk(s) && ThreadEnabled(s, w, k, a)
    ensures Linked(ThreadApply(s, w, k, a).db.jobs)
  {
    ThreadIsCalm(s, w, k, a);
    ThreadGrows(s, w, k, a);
    GrowthKeepsLinked(s.db.jobs, ThreadApply(s, w, k, a).db.jobs);
  }

  lemma WorkerKeepsLinked(c: Config, s: State, w: WorkerId, a: WorkerAct)
    requires Linked(s.db.jobs) && Owned(s) && WorkerEnabled(c, s, w, a)
    ensures Linked(WorkerApply(c, s, w, a).db.jobs)
  {
    if a.ClaimCommit? {
      ClaimTakesLocks(s, w);
    } else {
      WorkerLeavesJobsAlone(c, s, w, a);
    }
  }

  lemma ReaperKeepsLinked(c: Config, s: State, a: ReaperAct)
    requires Linked(s.db.jobs) && ReaperEnabled(s, a)
    ensures Linked(ReaperApply(c, s, a).db.jobs)
  {
    ReaperIsCalm(c, s, a);
    GrowthKeepsLinked(s.db.jobs, ReaperApply(c, s, a).db.jobs);
  }

  lemma SchedulerKeepsLinked(c: Config, s: State, a: SchedulerAct)
    requires Linked(s.db.jobs) && s.db.jobs.Keys <= s.hist.Keys && SchedulerEnabled(c, s, a)
    ensures Linked(SchedulerApply(c, s, a).db.jobs)
  {
    SchedulerIsCalm(c, s, a);
    GrowthKeepsLinked(s.db.jobs, SchedulerApply(c, s, a).db.jobs);
  }

  lemma StepKeepsLinked(c: Config, s: State, a: Step)
    requires Linked(s.db.jobs) && Owned(s) && Enabled(c, s, a)
    ensures Linked(Apply(c, s, a).db.jobs)
  {
    match a
    case ByClient(act) => ClientKeepsLinked(c, s, act);
    case ByWorker(w, act) => WorkerKeepsLinked(c, s, w, act);
    case ByThread(w, k, act) => ThreadKeepsLinked(s, w, k, act);
    case ByReaper(act) => ReaperKeepsLinked(c, s, act);
    case ByScheduler(act) => SchedulerKeepsLinked(c, s, act);
    case Pass(_) =>
  }

  lemma {:induction false} RunsKeepLinked(c: Config, s: State, run: seq<Step>)
    requires c.Sane() && Inv(c, s) && Linked(s.db.jobs) && ValidRun(c, s, run)
    ensures Inv(c, Final(c, s, run)) && Linked(Final(c, s, run).db.jobs)
    decreases |run|
  {
    if run != [] {
      StepKeepsLinked(c, s, run[0]);
      StepKeepsInv(c, s, run[0]);
      RunsKeepLinked(c, Apply(c, s, run[0]), run[1..]);
    }
  }

  lemma ReachableLinked(c: Config, s: State)
    requires c.Sane() && Reachable(c, s)
    ensures Inv(c, s) && Linked(s.db.jobs)
  {
    var run :| ValidRun(c, INITIAL, run) && Final(c, INITIAL, run) == s;
    InitialIsReachable(c);
    ReachableInv(c, INITIAL);
    RunsKeepLinked(c, INITIAL, run);
  }

  // ---------------------------------------------------------------- order

  /** What `j` depends on, if anything, is gone or completed. */
  predicate Ready(jobs: map<JobId, Job>, j: JobId)
    requires j in jobs
  {
    jobs[j].dependsOn.Some? && jobs[j].dependsOn.value in jobs ==> IsCompleted(jobs, jobs[j].dependsOn.value)
  }

  /** Everything taken in hand was ready for it. */
  predicate InOrder(jobs: map<JobId, Job>) {
    forall j :: j in jobs && InHand(jobs, j) ==> Ready(jobs, j)
  }

  /** A claiming commit that holds a job whose dependency has not completed. */
  predicate Breaks(s: State, a: Step) {
    IsClaim(a) && a.w in s.procs && exists j :: j in s.procs[a.w].locks && j in s.db.jobs && !Ready(s.db.jobs, j)
  }

  /** Completed is final, so what was ready stays ready. */
  lemma CalmKeepsReady(jobs: map<JobId, Job>, after: map<JobId, Job>, j: JobId)
    requires Calm(jobs, after) && Linked(jobs) && j in jobs && j in after && Ready(jobs, j)
    ensures Ready(after, j)
  {
    assert Follows(jobs[j], after[j]);
  }

  lemma CalmKeepsOrder(jobs: map<JobId, Job>, after: map<JobId, Job>)
    requires Calm(jobs, after) && Linked(jobs) && InOrder(jobs)
    ensures InOrder(after)
  {
    forall j | j in after && InHand(after, j) ensures Ready(after, j) {
      CalmKeepsReady(jobs, after, j);
    }
  }

  /** A claim leaves every job as ready as it was. */
  lemma ClaimKeepsReady(s: State, w: WorkerId, j: JobId)
    requires Owned(s) && CanClaimCommit(s, w) && j in s.db.jobs
    ensures j in DoClaimCommit(s, w).db.jobs
    ensures Ready(DoClaimCommit(s, w).db.jobs, j) <==> Ready(s.db.jobs, j)
  {
    ClaimTakesLocks(s, w);
    var jobs, after := s.db.jobs, DoClaimCommit(s, w).db.jobs;
    assert after[j].dependsOn == jobs[j].dependsOn;
    forall d | d in jobs ensures IsCompleted(after, d) <==> IsCompleted(jobs, d) {
    }
  }

  lemma ClaimBreaksExactly(s: State, w: WorkerId)
    requires Owned(s) && InOrder(s.db.jobs) && CanClaimCommit(s, w)
    ensures !InOrder(DoClaimCommit(s, w).db.jobs) <==> Breaks(s, ByWorker(w, ClaimCommit))
  {
    ClaimTakesLocks(s, w);
    var jobs, after := s.db.jobs, DoClaimCommit(s, w).db.jobs;
    forall j | j in jobs
      ensures InHand(after, j) <==> InHand(jobs, j) || j in s.procs[w].locks
      ensures Ready(after, j) <==> Ready(jobs, j)
    {
      ClaimKeepsReady(s, w, j);
    }
  }

  /** Exactly the breaking claims lead out of order. */
  lemma StepBreaksExactly(c: Config, s: State, a: Step)
    requires c.Sane() && Inv(c, s) && Linked(s.db.jobs) && InOrder(s.db.jobs) && Enabled(c, s, a)
    ensures !InOrder(Apply(c, s, a).db.jobs) <==> Breaks(s, a)
  {
    if IsClaim(a) {
      ClaimBreaksExactly(s, a.w);
    } else {
      OthersAreCalm(c, s, a);
      CalmKeepsOrder(s.db.jobs, Apply(c, s, a).db.jobs);
    }
  }

  /** The same of every reachable state. */
  lemma ReachableBreaksExactly(c: Config, s: State, a: Step)
    requires c.Sane() && Reachable(c, s) && InOrder(s.db.jobs) && Enabled(c, s, a)
    ensures !InOrder(Apply(c, s, a).db.jobs) <==> Breaks(s, a)
  {
    ReachableLinked(c, s);
    StepBreaksExactly(c, s, a);
  }

  // ---------------------------------------------------------------- whole runs

  ghost predicate AlwaysInOrder(c: Config, s: State, run: seq<Step>)
    requires ValidRun(c, s, run)
    decreases |run|
  {
    InOrder(s.db.jobs) && (run != [] ==> AlwaysInOrder(c, Apply(c, s, run[0]), run[1..]))
  }

  ghost predicate NeverBreaks(c: Config, s: State, run: seq<Step>)
    requires ValidRun(c, s, run)
    decreases |run|
  {
    run != [] ==> !Breaks(s, run[0]) && NeverBreaks(c, Apply(c, s, run[0]), run[1..])
  }

  /** A run starts every job after the one it depends on exactly when it has no breaking claim. */
  lemma {:induction false} RunBreaksExactly(c: Config, s: State, run: seq<Step>)
    requires c.Sane() && Inv(c, s) && Linked(s.db.jobs) && InOrder(s.db.jobs) && ValidRun(c, s, run)
    ensures AlwaysInOrder(c, s, run) <==> NeverBreaks(c, s, run)
    decreases |run|
  {
    if run != [] {
      var t := Apply(c, s, run[0]);
      StepBreaksExactly(c, s, run[0]);
      if InOrder(t.db.jobs) {
        StepKeepsLinked(c, s, run[0]);
        StepKeepsInv(c, s, run[0]);
        RunBreaksExactly(c, t, run[1..]);
      }
    }
  }

  /** `j` is gone for good, or its dependency is no obstacle. */
  predicate Unobstructed(s: State, j: JobId) {
    j in s.hist && (j in s.db.jobs ==> Ready(s.db.jobs, j))
  }

  lemma StepKeepsUnobstructed(c: Config, s: State, a: Step, j: JobId)
    requires Owned(s) && Linked(s.db.jobs) && Unobstructed(s, j) && Enabled(c, s, a)
    ensures Unobstructed(Apply(c, s, a), j)
  {
    NewRowsAreNew(c, s, a);
    if j in s.db.jobs {
      if IsClaim(a) {
        ClaimKeepsReady(s, a.w, j);
      } else {
        OthersAreCalm(c, s, a);
        if j in Apply(c, s, a).db.jobs {
          CalmKeepsReady(s.db.jobs, Apply(c, s, a).db.jobs, j);
        }
      }
    }
  }

  lemma {:induction false} RunKeepsUnobstructed(c: Config, s: State, run: seq<Step>, j: JobId)
    requires c.Sane() && Inv(c, s) && Linked(s.db.jobs) && Unobstructed(s, j) && ValidRun(c, s, run)
    ensures Unobstructed(Final(c, s, run), j)
    decreases |run|
  {
    if run != [] {
      StepKeepsUnobstructed(c, s, run[0], j);
      StepKeepsLinked(c, s, run[0]);
      StepKeepsInv(c, s, run[0]);
      RunKeepsUnobstructed(c, Apply(c, s, run[0]), run[1..], j);
    }
  }

  /**
   A client that waits is safe: a job submitted after its dependency has completed is in order in
   every state of every run from there on.
   */
  lemma SubmittedAfterIsInOrder(c: Config, s: State, j: JobId, q: QueueId, data: JobCreate, key: Option<string>,
                                run: seq<Step>)
    requires c.Sane() && Reachable(c, s) && CanCreate(s, j, q, data, key)
    requires data.dependsOn.Some? ==> IsCompleted(s.db.jobs, data.dependsOn.value)
    requires ValidRun(c, DoCreate(s, j, q, data, key), run)
    ensures var t := Final(c, DoCreate(s, j, q, data, key), run);
            j in t.db.jobs ==> Ready(t.db.jobs, j)
  {
    ReachableLinked(c, s);
    var t, a := DoCreate(s, j, q, data, key), ByClient(Create(j, q, data, key));
    assert Enabled(c, s, a) && Apply(c, s, a) == t;
    StepKeepsLinked(c, s, a);
    StepKeepsInv(c, s, a);
    RunKeepsUnobstructed(c, t, run, j);
  }

  /** Every submission of the run waits for its dependency. */
  ghost predicate ClientsWait(c: Config, s: State, run: seq<Step>)
    requires ValidRun(c, s, run)
    decreases |run|
  {
    run != [] ==> Waits(s, run[0]) && ClientsWait(c, Apply(c, s, run[0]), run[1..])
  }

  predicate Waits(s: State, a: Step) {
    a.ByClient? && a.client.Create? && a.client.data.dependsOn.Some? ==>
      IsCompleted(s.db.jobs, a.client.data.dependsOn.value)
  }

  predicate AllReady(jobs: map<JobId, Job>) {
    forall j :: j in jobs ==> Ready(jobs, j)
  }

  /** Only a submission adds a job with a dependency. */
  lemma NewRowsAreReady(c: Config, s: State, a: Step, j: JobId)
    requires Owned(s) && Enabled(c, s, a) && Waits(s, a) && j in Apply(c, s, a).db.jobs && j !in s.db.jobs
    ensures Ready(Apply(c, s, a).db.jobs, j)
  {
    if a.ByClient? {
      NewClientRowIsReady(c, s, a.client, j);
    } else if a.ByScheduler? {
      NewSchedulerRowIsReady(c, s, a.sched, j);
    } else {
      ProcessesAddNoRows(c, s, a);
    }
  }

  lemma NewSchedulerRowIsReady(c: Config, s: State, a: SchedulerAct, j: JobId)
    requires SchedulerEnabled(c, s, a) && j in SchedulerApply(c, s, a).db.jobs && j !in s.db.jobs
    ensures Ready(SchedulerApply(c, s, a).db.jobs, j)
  {
    assert SchedulerApply(c, s, a).db.jobs[j].dependsOn == None;
  }

  lemma NewClientRowIsReady(c: Config, s: State, a: ClientAct, j: JobId)
    requires s.db.jobs.Keys <= s.hist.Keys && ClientEnabled(c, s, a) && Waits(s, ByClient(a))
    requires j in ClientApply(c, s, a).db.jobs && j !in s.db.jobs
    ensures Ready(ClientApply(c, s, a).db.jobs, j)
  {
  }

  lemma WaitingKeepsReady(c: Config, s: State, a: Step)
    requires Owned(s) && Linked(s.db.jobs) && AllReady(s.db.jobs) && Enabled(c, s, a) && Waits(s, a)
    ensures AllReady(Apply(c, s, a).db.jobs)
  {
    var after := Apply(c, s, a).db.jobs;
    forall j | j in after ensures Ready(after, j) {
      if j in s.db.jobs {
        StepKeepsUnobstructed(c, s, a, j);
      } else {
        NewRowsAreReady(c, s, a, j);
      }
    }
  }

  /** If all clients wait, nothing ever starts before what it depends on. */
  lemma {:induction false} WaitingClientsAreInOrder(c: Config, s: State, run: seq<Step>)
    requires c.Sane() && Inv(c, s) && Linked(s.db.jobs) && AllReady(s.db.jobs)
    requires ValidRun(c, s, run) && ClientsWait(c, s, run)
    ensures AlwaysInOrder(c, s, run)
    decreases |run|
  {
    if run != [] {
      WaitingKeepsReady(c, s, run[0]);
      StepKeepsLinked(c, s, run[0]);
      StepKeepsInv(c, s, run[0]);
      WaitingClientsAreInOrder(c, Apply(c, s, run[0]), run[1..]);
    }
  }
}
