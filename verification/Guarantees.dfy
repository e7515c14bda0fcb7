/** What the scheduler guarantees in every state of every run. */
module Guarantees {
  import opened Model
  import opened Arithmetic
  import opened Protocol
  import opened Ownership
  import opened History
  import opened Records
  import opened Lineage
  import opened Capacity
  import opened Heartbeats
  import opened Recovery
  import opened System
  import HeartbeatService
  import ReaperService

  /** The thread of `w` for future `k` is not finished. */
  predicate Busy(s: State, w: WorkerId, k: Future) {
    w in s.procs && k in s.procs[w].futures && s.procs[w].futures[k] != Done
  }

  /**
   Single executor: in every reachable state at most one thread of one worker is busy with a
   job, that worker is the row's owner and is alive, and the job's row is as the thread
   believes it to be.
   */
  lemma SingleExecutor(c: Config, s: State, v: WorkerId, m: Future, w: WorkerId, k: Future)
    requires c.Sane() && Reachable(c, s)
    requires Busy(s, v, m) && Busy(s, w, k) && m.job == k.job
    ensures v == w && m == k
    ensures k.job in s.db.jobs && s.db.jobs[k.job].worker == Some(w) && Live(s, w)
    ensures s.db.jobs[k.job].status == if s.procs[w].futures[k] == Dispatched then Claimed else Running
  {
    ReachableInv(c, s);
    OneFuturePerJob(s, v, m, w, k);
    assert FutureOk(s, w, k) && WorkerOk(s, w);
  }

  /**
   `run_job` never checks the row it is about to overwrite, and never needs to: whenever a
   thread can start, its job exists, is claimed, and is claimed by this very worker; whenever
   it can finish, the job is running under it.
   */
  lemma UncheckedWritesAreSafe(c: Config, s: State, w: WorkerId, k: Future, a: ThreadAct)
    requires c.Sane() && Reachable(c, s) && ThreadEnabled(s, w, k, a)
    ensures s.db.jobs[k.job].worker == Some(w)
    ensures s.db.jobs[k.job].status == if a.Start? then Claimed else Running
  {
    ReachableInv(c, s);
    assert FutureOk(s, w, k);
  }

  /** No job ever has two completed executions, and having one means being completed. */
  lemma CompletedAtMostOnce(c: Config, s: State, d: ExecId, e: ExecId)
    requires c.Sane() && Reachable(c, s) && d in s.db.execs && e in s.db.execs
    requires s.db.execs[d].status == ExecCompleted && s.db.execs[e].status == ExecCompleted
    requires s.db.execs[d].job == s.db.execs[e].job
    ensures d == e && s.db.execs[e].job in s.db.jobs && s.db.jobs[s.db.execs[e].job].status == Completed
  {
    ReachableInv(c, s);
    CompletedOnce(s, d, e);
    assert ExecOk(s, e);
    assert RowOk(s.db.jobs[s.db.execs[e].job], s.hist[s.db.execs[e].job], s.now);
  }

  /**
   No stranded job: a claimed or running job's worker row is still active, and the worker
   either is alive with a busy thread for it or has crashed. A clean exit leaves none behind.
   */
  lemma NoStrandedJob(c: Config, s: State, j: JobId)
    requires c.Sane() && Reachable(c, s) && j in s.db.jobs && s.db.jobs[j].InFlight()
    ensures s.db.jobs[j].worker.Some? && s.db.jobs[j].worker.value in s.procs
    ensures var w := s.db.jobs[j].worker.value;
            && w in s.db.workers && s.db.workers[w].active
            && (s.procs[w].phase.Crashed? || (Live(s, w) && j in s.hist && Busy(s, w, Future(j, s.hist[j].claims))))
  {
    ReachableInv(c, s);
    assert JobOwned(s, j);
  }

  /**
   Recovery: once a job's owner has let its heartbeat expire, any reaper cycle that starts later
   and is not stopped returns the job to the queue, with one more retry counted, whatever all
   other processes do before and during the cycle.
   */
  lemma ExpiredOwnerIsRecovered(c: Config, s: State, before: seq<Step>, cycle: seq<Step>, j: JobId, w: WorkerId)
    requires c.Sane() && Reachable(c, s)
    requires j in s.db.jobs && ReaperService.Orphan(s.db.jobs[j], w)
    requires w in s.db.workers && s.db.workers[w].heartbeat < s.now - c.timing.threshold
    requires ValidRun(c, s, before) && Enabled(c, Final(c, s, before), ByReaper(Find))
    requires var found := Apply(c, Final(c, s, before), ByReaper(Find));
             && ValidRun(c, found, cycle) && NeverStops(cycle)
             && Final(c, found, cycle).reaper == Reaper({}, None)
    ensures var found, n := Apply(c, Final(c, s, before), ByReaper(Find)), s.db.jobs[j].retryCount;
            RecoveredIn(c, s, before, j, w, n) || RecoveredIn(c, found, cycle, j, w, n)
  {
    var n, beat := s.db.jobs[j].retryCount, s.db.workers[w].heartbeat;
    ReachableInv(c, s);
    OwnerHasCrashed(c, s, j, w);
    OrphanPersists(c, s, before, j, w, n, beat);
    if !RecoveredIn(c, s, before, j, w, n) {
      var t := Final(c, s, before);
      RunsKeepInv(c, s, before);
      TimeIsMonotone(c, s, before);
      OrphanStep(c, t, ByReaper(Find), j, w, n, beat);
      OrphanIsFound(c, t, j, w, n, beat);
      ListedPersists(c, Apply(c, t, ByReaper(Find)), cycle, j, w, n, beat);
    }
  }

  lemma OwnerHasCrashed(c: Config, s: State, j: JobId, w: WorkerId)
    requires c.Sane() && Inv(c, s) && j in s.db.jobs && ReaperService.Orphan(s.db.jobs[j], w)
    requires w in s.db.workers && s.db.workers[w].heartbeat < s.now - c.timing.threshold
    ensures Orphaned(s, j, w, s.db.jobs[j].retryCount, s.db.workers[w].heartbeat)
  {
    assert JobOwned(s, j);
    assert w in ReaperService.StaleWorkers(s.db, s.now - c.timing.threshold);
    FoundMeansCrashed(c, s, w);
  }

  lemma OrphanIsFound(c: Config, s: State, j: JobId, w: WorkerId, n: nat, beat: Time)
    requires JobsOwned(s) && Orphaned(s, j, w, n, beat) && beat < s.now - c.timing.threshold
    ensures w in DoReaperFind(c, s).reaper.todo
  {
    assert JobOwned(s, j);
  }

  /**
   And such a cycle is at hand: from any such state with the reaper at rest, a query and one
   commit are enough.
   */
  lemma RecoveryIsAtHand(c: Config, s: State, j: JobId)
    requires c.Sane() && Reachable(c, s) && j in s.db.jobs && s.db.jobs[j].InFlight()
    requires s.reaper == Reaper({}, None)
    requires s.db.jobs[j].worker.Some? && s.db.jobs[j].worker.value in s.db.workers
    requires s.db.workers[s.db.jobs[j].worker.value].heartbeat < s.now - c.timing.threshold
    ensures var w := s.db.jobs[j].worker.value;
            var run := [ByReaper(Find), ByReaper(Recover(w))];
            && ValidRun(c, s, run)
            && var t := Final(c, s, run);
               && j in t.db.jobs && t.db.jobs[j].status == Queued && t.db.jobs[j].worker == None
               && t.db.jobs[j].retryCount == s.db.jobs[j].retryCount + 1
  {
    NoStrandedJob(c, s, j);
    var w := s.db.jobs[j].worker.value;
    assert w in ReaperService.StaleWorkers(s.db, s.now - c.timing.threshold);
    var run := [ByReaper(Find), ByReaper(Recover(w))];
    var found := Apply(c, s, run[0]);
    assert Enabled(c, s, run[0]) && Enabled(c, found, run[1]);
    assert run[1..] == [ByReaper(Recover(w))] && run[1..][1..] == [];
    assert Final(c, s, run) == Final(c, found, run[1..]) == Apply(c, found, run[1]);
    assert ReaperService.Orphan(s.db.jobs[j], w);
  }

  /** The uninterrupted cycle does the same for every such job at once. */
  lemma SweepRequeuesOrphans(c: Config, s: State, j: JobId)
    requires c.Sane() && Reachable(c, s) && j in s.db.jobs
    ensures var stale := ReaperService.StaleWorkers(s.db, s.now - c.timing.threshold);
            var after := ReaperService.Swept(s.db, stale);
            && (ReaperService.OwnedByAny(s.db.jobs[j], stale) ==> after.jobs[j].status == Queued)
            && (!ReaperService.OwnedByAny(s.db.jobs[j], stale) ==> after.jobs[j] == s.db.jobs[j])
            && (forall w :: w in stale ==> w in s.procs && s.procs[w].phase.Crashed?)
  {
    ReachableInv(c, s);
    forall w | w in ReaperService.StaleWorkers(s.db, s.now - c.timing.threshold)
      ensures w in s.procs && s.procs[w].phase.Crashed?
    {
      FoundMeansCrashed(c, s, w);
    }
  }

  /** The reaper is never wrong about a worker, and no live worker's heartbeat is refused. */
  lemma DetectorIsAccurate(c: Config, s: State, w: WorkerId)
    requires c.Sane() && Reachable(c, s)
    ensures Live(s, w) ==> w !in ReaperService.StaleWorkers(s.db, s.now - c.timing.threshold)
    ensures Live(s, w) ==> !HeartbeatService.Decommissioned(s.db, w)
  {
    ReachableInv(c, s);
    if Live(s, w) {
      HeartbeatIsAccepted(s, w);
      if w in ReaperService.StaleWorkers(s.db, s.now - c.timing.threshold) {
        FoundMeansCrashed(c, s, w);
      }
    }
  }

  /** Overlapping claims: the lock sets of any two workers are disjoint and hold queued rows only. */
  lemma ConcurrentClaimsAreDisjoint(c: Config, s: State, v: WorkerId, w: WorkerId, j: JobId)
    requires c.Sane() && Reachable(c, s) && v in s.procs && w in s.procs
    requires j in s.procs[v].locks
    ensures j in s.db.jobs && s.db.jobs[j].status == Queued
    ensures j in s.procs[w].locks ==> v == w
  {
    ReachableInv(c, s);
    assert LockOk(s, v);
  }

  /** No early start: every row a committing claim takes was asked to wait no longer than now. */
  lemma NeverClaimedEarly(c: Config, s: State, w: WorkerId, j: JobId)
    requires c.Sane() && Reachable(c, s) && WorkerEnabled(c, s, w, ClaimCommit) && j in s.procs[w].locks
    ensures j in s.db.jobs && j in s.hist && s.hist[j].notBefore <= s.now
  {
    ReachableInv(c, s);
    assert LockOk(s, w);
    NeverEarly(s, j);
  }

  /**
   Retry budget: failures never exceed the allowance plus the recoveries, the whole life of a
   job takes a bounded number of steps, and a job that was never recovered is buried at
   exactly its max(1, max_retries)-th failure. (The counter itself may exceed `max_retries`.)
   */
  lemma AttemptsBounded(c: Config, s: State, j: JobId)
    requires c.Sane() && Reachable(c, s) && j in s.db.jobs
    ensures j in s.hist
    ensures var job, h := s.db.jobs[j], s.hist[j];
            && job.retryCount == h.fails + h.reaps
            && h.fails <= Max(1, job.maxRetries) + h.reaps
            && h.steps <= 6 * Max(1, job.maxRetries) + 4 + 9 * h.reaps
            && (job.status == Dead ==> job.retryCount >= job.maxRetries)
            && (job.status == Dead && h.reaps == 0 ==> h.fails == Max(1, job.maxRetries))
  {
    ReachableInv(c, s);
    AttemptsAreBounded(s, j);
    StepsAreBounded(s, j);
    assert RowOk(s.db.jobs[j], s.hist[j], s.now);
  }

  predicate IsQueued(s: State, j: JobId) {
    j in s.db.jobs && s.db.jobs[j].status == Queued
  }

  /** Some step of the run puts `j` in the queue. */
  ghost predicate QueuedIn(c: Config, s: State, run: seq<Step>, j: JobId)
    requires ValidRun(c, s, run)
    decreases |run|
  {
    && run != []
    && var t := Apply(c, s, run[0]);
       (!IsQueued(s, j) && IsQueued(t, j)) || QueuedIn(c, t, run[1..], j)
  }

  lemma {:induction false} EntersTheQueue(c: Config, s: State, run: seq<Step>, j: JobId)
    requires ValidRun(c, s, run) && !IsQueued(s, j) && IsQueued(Final(c, s, run), j)
    ensures QueuedIn(c, s, run, j)
    decreases |run|
  {
    var t := Apply(c, s, run[0]);
    if !IsQueued(t, j) {
      EntersTheQueue(c, t, run[1..], j);
    }
  }

  /** A claiming commit that holds `j`. */
  predicate Takes(s: State, w: WorkerId, j: JobId) {
    CanClaimCommit(s, w) && j in s.procs[w].locks
  }

  /** Between two claims of one job, by the same or by different workers, a step queued it again. */
  lemma ClaimsNeedEnqueues(c: Config, s: State, v: WorkerId, between: seq<Step>, w: WorkerId, j: JobId)
    requires c.Sane() && Reachable(c, s) && Takes(s, v, j)
    requires ValidRun(c, DoClaimCommit(s, v), between) && Takes(Final(c, DoClaimCommit(s, v), between), w, j)
    ensures QueuedIn(c, DoClaimCommit(s, v), between, j)
  {
    ReachableInv(c, s);
    var t := DoClaimCommit(s, v);
    StepKeepsInv(c, s, ByWorker(v, ClaimCommit));
    RunsKeepInv(c, t, between);
    var u := Final(c, t, between);
    assert LockOk(s, v) && LockOk(u, w);
    EntersTheQueue(c, t, between, j);
  }

  /** A live worker owns no more jobs than it has slots; N of them no more than N times that. */
  lemma OwnershipFitsSlots(c: Config, s: State, ws: set<WorkerId>)
    requires c.Sane() && Reachable(c, s)
    requires forall w :: w in ws ==> Live(s, w)
    ensures forall w :: w in ws ==> w in s.procs && |OwnedBy(s, w)| <= |s.procs[w].futures| <= c.slots
    ensures |OwnedByAny(s, ws)| <= |ws| * c.slots
  {
    ReachableInv(c, s);
    forall w | w in ws ensures |OwnedBy(s, w)| <= |s.procs[w].futures| <= c.slots {
      SlotsBoundOwnership(c, s, w);
    }
    ClusterBoundsOwnership(c, s, ws);
  }

  /** Conservation of dead letters: dead jobs = letters + replayed jobs, and letters keep the payload. */
  lemma DeadLettersConserved(c: Config, s: State)
    requires c.Sane() && Reachable(c, s)
    ensures DeadJobs(s) == s.db.dlq.Keys + ReplayedJobs(s) && s.db.dlq.Keys !! ReplayedJobs(s)
    ensures |DeadJobs(s)| == |s.db.dlq| + |ReplayedJobs(s)|
    ensures forall j :: j in s.db.dlq ==> j in s.db.jobs && s.db.dlq[j] == s.db.jobs[j].payload
  {
    ReachableInv(c, s);
    DeadJobsAreLettersAndReplays(s);
    forall j | j in s.db.dlq ensures j in s.db.jobs && s.db.dlq[j] == s.db.jobs[j].payload {
      assert LetterOk(s, j);
    }
  }

  /**
   Lineage: through any number of burials and replays a clone keeps the work of the job first
   submitted, a cron child does its template's work, and neither a dead job nor a cron
   occurrence ever produces two jobs.
   */
  lemma LineageKept(c: Config, s: State, i: JobId, j: JobId)
    requires c.Sane() && Reachable(c, s) && i in s.db.jobs && j in s.db.jobs
    ensures i in s.hist && Origins(s) && Root(s, i) in s.db.jobs && SameWork(s.db.jobs[i], s.db.jobs[Root(s, i)])
    ensures s.hist[i].source.ChildOf? ==>
              s.hist[i].source.template in s.db.jobs && SameWork(s.db.jobs[i], s.db.jobs[s.hist[i].source.template])
    ensures j in s.hist && s.hist[i].source == s.hist[j].source && s.hist[i].source != Submitted ==> i == j
  {
    ReachableInv(c, s);
    assert OriginOk(s, i);
    ReplaysKeepTheWork(s, i);
  }
}
