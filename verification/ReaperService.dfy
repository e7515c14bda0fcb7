/** Stale-worker detection and recovery of orphaned jobs (app/services/reaper_service.py). */
module ReaperService {
  import opened Model

  /** `find_dead_workers`: active rows whose heartbeat is older than the cutoff. */
  function StaleWorkers(db: Db, cutoff: Time): set<WorkerId> {
    set w | w in db.workers && db.workers[w].active && db.workers[w].heartbeat < cutoff
  }

  predicate Orphan(job: Job, w: WorkerId) {
    job.worker == Some(w) && job.InFlight()
  }

  function Orphans(jobs: map<JobId, Job>, w: WorkerId): set<JobId> {
    set j | j in jobs && Orphan(jobs[j], w)
  }

  /** What recovery does to one job row. */
  function Requeued(job: Job): Job {
    job.(status := Queued, retryCount := job.retryCount + 1, worker := None)
  }

  /** Committed effect of `recover_jobs_for_worker`. */
  function Recovered(db: Db, w: WorkerId): Db {
    db.(jobs := map j | j in db.jobs :: if Orphan(db.jobs[j], w) then Requeued(db.jobs[j]) else db.jobs[j])
  }

  /** Committed effect of `mark_worker_as_dead`. */
  function MarkedDead(db: Db, w: WorkerId): Db {
    if w in db.workers then db.(workers := db.workers[w := db.workers[w].(active := false, tasks := 0)])
    else db
  }

  predicate OwnedByAny(job: Job, ws: set<WorkerId>) {
    job.worker.Some? && job.worker.value in ws && job.InFlight()
  }

  /** Independent description of a whole cycle: re-queue every orphan, retire every worker. */
  function Swept(db: Db, ws: set<WorkerId>): Db {
    db.(jobs := map j | j in db.jobs :: if OwnedByAny(db.jobs[j], ws) then Requeued(db.jobs[j]) else db.jobs[j],
        workers := map w | w in db.workers ::
                     if w in ws then db.workers[w].(active := false, tasks := 0) else db.workers[w])
  }

  function AllOrphans(jobs: map<JobId, Job>, ws: set<WorkerId>): set<JobId> {
    set j | j in jobs && OwnedByAny(jobs[j], ws)
  }

  // ---------------------------------------------------------------- the loops

  method RecoverJobsForWorker(db: Database, w: WorkerId) returns (count: nat)
    modifies db
    ensures db.Value() == Recovered(old(db.Value()), w)
    ensures count == |Orphans(old(db.jobs), w)|
  {
    var orphaned := set j | j in db.jobs && db.jobs[j].worker == Some(w) && db.jobs[j].InFlight();
    ghost var before := db.jobs;
    assert orphaned == Orphans(before, w);
    if orphaned == {} {
      assert db.jobs == Recovered(db.Value(), w).jobs by {
        assert forall j :: j in before && Orphan(before[j], w) ==> j in orphaned;
      }
      return 0;
    }
    // the session's pending updates; nothing is visible before the commit below
    var dirty: map<JobId, Job> := map[];
    var rest := orphaned;
    while rest != {}
      invariant rest <= orphaned && dirty.Keys == orphaned - rest
      invariant forall j :: j in dirty ==> dirty[j] == Requeued(before[j])
      decreases rest
    {
      var j :| j in rest;
      var job := db.jobs[j];
      job := job.(status := Queued);
      job := job.(retryCount := job.retryCount + 1);
      job := job.(worker := None);
      dirty := dirty[j := job];
      rest := rest - {j};
    }
    db.jobs := db.jobs + dirty;
    assert db.jobs == Recovered(old(db.Value()), w).jobs;
    return |orphaned|;
  }

  method MarkWorkerAsDead(db: Database, w: WorkerId)
    modifies db
    ensures db.Value() == MarkedDead(old(db.Value()), w)
    ensures db.Value() == old(db.Value()).(workers := db.workers)
    ensures db.workers == if w !in old(db.workers) then old(db.workers)
                          else old(db.workers)[w := old(db.workers[w]).(active := false, tasks := 0)]
  {
    if w in db.workers {
      var worker := db.workers[w].(active := false);
      worker := worker.(tasks := 0);
      db.workers := db.workers[w := worker];
    }
  }

  /** `find_dead_workers`: those whose row is active and whose last heartbeat lies before the cutoff. */
  method FindDeadWorkers(db: Database, now: Time, threshold: int) returns (stale: set<WorkerId>)
    ensures stale == StaleWorkers(db.Value(), now - threshold)
    ensures forall w :: w in stale <==>
              w in db.workers && db.workers[w].active && now > db.workers[w].heartbeat + threshold
  {
    stale := StaleWorkers(db.Value(), now - threshold);
  }

  /**
   `run_reaper_cycle`. In whatever order the workers come back from the query, the cycle
   equals its one-shot description, and the count it returns is the number of jobs
   re-queued, no job counted twice.
   */
  method RunReaperCycle(db: Database, now: Time, threshold: int) returns (dead: nat, recovered: nat)
    modifies db
    ensures db.Value() == Swept(old(db.Value()), StaleWorkers(old(db.Value()), now - threshold))
    ensures dead == |StaleWorkers(old(db.Value()), now - threshold)|
    ensures recovered == |AllOrphans(old(db.jobs), StaleWorkers(old(db.Value()), now - threshold))|
  {
    var stale := FindDeadWorkers(db, now, threshold);
    ghost var before := db.Value();
    recovered := 0;
    SweepNobody(before);
    var rest := stale;
    while rest != {}
      invariant rest <= stale
      invariant db.Value() == Swept(before, stale - rest)
      invariant recovered == |AllOrphans(before.jobs, stale - rest)|
      decreases rest
    {
      var w :| w in rest;
      SweepOneMore(before, stale - rest, w);
      assert stale - (rest - {w}) == (stale - rest) + {w};
      var count := RecoverJobsForWorker(db, w);
      MarkWorkerAsDead(db, w);
      recovered := recovered + count;
      rest := rest - {w};
    }
    assert stale - rest == stale;
    return |stale|, recovered;
  }

  // ---------------------------------------------------------------- properties

  /** Row by row: what the worker had claimed or was running is queued again, one retry further. */
  lemma RecoveredRows(db: Db, w: WorkerId)
    ensures var after := Recovered(db, w);
            && after == db.(jobs := after.jobs) && after.jobs.Keys == db.jobs.Keys
            && forall j :: j in db.jobs ==>
                 var job := db.jobs[j];
                 after.jobs[j] == if job.worker == Some(w) && (job.status == Claimed || job.status == Running)
                                  then job.(status := Queued, retryCount := job.retryCount + 1, worker := None)
                                  else job
    ensures Orphans(db.jobs, w) ==
              set j | j in db.jobs && db.jobs[j].worker == Some(w) && db.jobs[j].status in {Claimed, Running}
  {
  }

  /** The whole cycle row by row, with the query spelled out. */
  lemma SweptRows(db: Db, now: Time, threshold: int)
    ensures var stale := set w | w in db.workers && db.workers[w].active && db.workers[w].heartbeat + threshold < now;
            var after := Swept(db, StaleWorkers(db, now - threshold));
            && StaleWorkers(db, now - threshold) == stale
            && AllOrphans(db.jobs, stale) == (set j | j in db.jobs && db.jobs[j].status in {Claimed, Running}
                                                      && db.jobs[j].worker.Some? && db.jobs[j].worker.value in stale)
            && after == db.(jobs := after.jobs, workers := after.workers)
            && after.jobs.Keys == db.jobs.Keys && after.workers.Keys == db.workers.Keys
            && (forall w :: w in db.workers ==>
                  after.workers[w] == if w in stale then db.workers[w].(active := false, tasks := 0) else db.workers[w])
            && (forall j :: j in db.jobs ==>
                  var job := db.jobs[j];
                  after.jobs[j] == if job.worker.Some? && job.worker.value in stale && job.status in {Claimed, Running}
                                   then job.(status := Queued, retryCount := job.retryCount + 1, worker := None)
                                   else job)
  {
    assert StaleWorkers(db, now - threshold) ==
           set w | w in db.workers && db.workers[w].active && db.workers[w].heartbeat + threshold < now;
  }

  lemma SweepNobody(db: Db)
    ensures Swept(db, {}) == db && AllOrphans(db.jobs, {}) == {}
  {
    assert Swept(db, {}).jobs == db.jobs;
    assert Swept(db, {}).workers == db.workers;
  }

  lemma RecoverOneMore(db: Db, done: set<WorkerId>, w: WorkerId)
    ensures Recovered(Swept(db, done), w).jobs == Swept(db, done + {w}).jobs
  {
    var lhs, rhs := Recovered(Swept(db, done), w).jobs, Swept(db, done + {w}).jobs;
    forall j | j in db.jobs ensures lhs[j] == rhs[j] {
      var job := db.jobs[j];
      assert OwnedByAny(job, done + {w}) <==> OwnedByAny(job, done) || Orphan(job, w);
    }
  }

  lemma RetireOneMore(db: Db, done: set<WorkerId>, w: WorkerId)
    ensures MarkedDead(Swept(db, done), w).workers == Swept(db, done + {w}).workers
  {
  }

  /** One more worker's two commits extend the sweep by that worker and count its jobs once. */
  lemma SweepOneMore(db: Db, done: set<WorkerId>, w: WorkerId)
    requires w !in done
    ensures MarkedDead(Recovered(Swept(db, done), w), w) == Swept(db, done + {w})
    ensures |AllOrphans(db.jobs, done + {w})| == |AllOrphans(db.jobs, done)| + |Orphans(Swept(db, done).jobs, w)|
  {
    RecoverOneMore(db, done, w);
    RetireOneMore(db, done, w);
    var mine := Orphans(Swept(db, done).jobs, w);
    assert mine == Orphans(db.jobs, w);
    assert AllOrphans(db.jobs, done + {w}) == AllOrphans(db.jobs, done) + mine;
    assert AllOrphans(db.jobs, done) !! mine;
  }

  /**
   What a reaper leaves behind when it stops after some commit: some workers fully handled,
   and perhaps the jobs of one more recovered but that worker not yet retired.
   */
  function Interrupted(db: Db, done: set<WorkerId>, next: Option<WorkerId>): Db {
    match next
    case None => Swept(db, done)
    case Some(w) => Recovered(Swept(db, done), w)
  }

  /**
   Resumability: stopping after any commit and sweeping again with the same cutoff finds
   exactly the workers left over and reaches the same jobs and workers as one
   uninterrupted cycle.
   */
  lemma SweepResumes(db: Db, cutoff: Time, done: set<WorkerId>, next: Option<WorkerId>)
    requires done <= StaleWorkers(db, cutoff)
    requires next.Some? ==> next.value in StaleWorkers(db, cutoff) - done
    ensures var db1 := Interrupted(db, done, next);
            && StaleWorkers(db1, cutoff) == StaleWorkers(db, cutoff) - done
            && Swept(db1, StaleWorkers(db1, cutoff)) == Swept(db, StaleWorkers(db, cutoff))
  {
    var stale := StaleWorkers(db, cutoff);
    var db1 := Interrupted(db, done, next);
    assert db1.workers == Swept(db, done).workers;
    assert StaleWorkers(db1, cutoff) == stale - done;
    assert Swept(db1, stale - done).jobs == Swept(db, stale).jobs;
    assert Swept(db1, stale - done).workers == Swept(db, stale).workers;
  }

  /** A further cycle with the same cutoff finds nobody and changes nothing. */
  lemma SweepIsIdempotent(db: Db, cutoff: Time)
    ensures var db' := Swept(db, StaleWorkers(db, cutoff));
            StaleWorkers(db', cutoff) == {} && Swept(db', StaleWorkers(db', cutoff)) == db'
  {
    var db' := Swept(db, StaleWorkers(db, cutoff));
    assert StaleWorkers(db', cutoff) == {};
    SweepNobody(db');
  }
}
