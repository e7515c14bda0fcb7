/**
 Who holds which job. The invariant ties three places together: the job's row, the worker's
 row, and the memory of the worker process.
 */
module Ownership {
  import opened Model
  import opened Protocol
  import Timing
  import ClaimService
  import ExecutorService
  import QueueService
  import ReaperService
  import RetryService
  import SchedulerService

  /** A future that has not finished pins its job: right row, right owner, right status. */
  predicate FutureOk(s: State, w: WorkerId, k: Future)
    requires w in s.procs && k in s.procs[w].futures
  {
    var pc := s.procs[w].futures[k];
    && k.job in s.hist && k.claim <= s.hist[k.job].claims
    && (pc != Done ==>
          && k.claim == s.hist[k.job].claims
          && k.job in s.db.jobs
          && s.db.jobs[k.job].worker == Some(w)
          && s.db.jobs[k.job].status == (if pc == Dispatched then Claimed else Running)
          && (s.hist[k.job].recorded <==> pc.FailureRecorded?))
  }

  predicate FuturesOk(s: State) {
    forall w, k :: w in s.procs && k in s.procs[w].futures ==> FutureOk(s, w, k)
  }

  /** A job somebody took belongs to a worker that still counts as active, and is either in
      that worker's hands or waiting for the reaper. */
  predicate JobOwned(s: State, j: JobId)
    requires j in s.db.jobs
  {
    && j in s.hist
    && (s.hist[j].recorded ==> s.db.jobs[j].status == Running)
    && (s.db.jobs[j].InFlight() ==>
          && s.db.jobs[j].worker.Some?
          && var w := s.db.jobs[j].worker.value;
             && w in s.procs && w in s.db.workers && s.db.workers[w].active
             && (s.procs[w].phase.Alive() || s.procs[w].phase.Crashed?)
             && (s.procs[w].phase.Alive() ==>
                   var k := Future(j, s.hist[j].claims);
                   k in s.procs[w].futures && s.procs[w].futures[k] != Done))
  }

  predicate JobsOwned(s: State) {
    forall j :: j in s.db.jobs ==> JobOwned(s, j)
  }

  /** An open claim holds queued rows only. */
  predicate LockOk(s: State, w: WorkerId)
    requires w in s.procs
  {
    && (s.procs[w].locks != {} ==> InBody(s, w))
    && forall j :: j in s.procs[w].locks ==> j in s.db.jobs && s.db.jobs[j].status == Queued
  }

  /** No two open claims hold the same row. */
  predicate LocksOk(s: State) {
    && (forall w :: w in s.procs ==> LockOk(s, w))
    && (forall v, w :: v in s.procs && w in s.procs && v != w ==> s.procs[v].locks !! s.procs[w].locks)
  }

  predicate WorkerOk(s: State, w: WorkerId)
    requires w in s.procs
  {
    && w in s.db.workers
    && (s.procs[w].phase.Alive() ==> s.db.workers[w].active)
    && (s.procs[w].phase.Exited? ==> !s.db.workers[w].active)
    && (!s.procs[w].phase.Alive() ==> forall k :: k in s.procs[w].futures ==> s.procs[w].futures[k] == Done)
  }

  predicate WorkersOk(s: State) {
    && s.db.workers.Keys == s.procs.Keys
    && (forall w :: w in s.procs ==> WorkerOk(s, w))
  }

  predicate ReaperOk(s: State) {
    && (forall w :: w in s.reaper.todo ==> w in s.procs && s.procs[w].phase.Crashed?)
    && (s.reaper.current.Some? ==>
          && s.reaper.current.value in s.reaper.todo
          && forall j :: j in s.db.jobs ==> !ReaperService.Orphan(s.db.jobs[j], s.reaper.current.value))
  }

  predicate Owned(s: State) {
    && s.db.jobs.Keys <= s.hist.Keys
    && FuturesOk(s) && JobsOwned(s) && LocksOk(s) && WorkersOk(s) && ReaperOk(s)
  }

  // ---------------------------------------------------------------- steps that move no job in hand

  /** A job in hand or waiting keeps its status and owner; a job not in hand stays out of hand. */
  predicate SameHand(s: State, t: State, j: JobId) {
    && (j in s.hist ==> j in t.hist && t.hist[j].claims == s.hist[j].claims)
    && (j in s.db.jobs && s.db.jobs[j].status == Queued ==> j in t.db.jobs && t.db.jobs[j].status == Queued)
    && (j in s.db.jobs && s.db.jobs[j].InFlight() ==>
          && j in t.db.jobs && t.db.jobs[j].status == s.db.jobs[j].status
          && t.db.jobs[j].worker == s.db.jobs[j].worker
          && (j in s.hist ==> t.hist[j].recorded == s.hist[j].recorded))
    && (j in t.db.jobs ==>
          && j in t.hist
          && (t.hist[j].recorded ==> t.db.jobs[j].status == Running)
          && (t.db.jobs[j].InFlight() ==> j in s.db.jobs && s.db.jobs[j].InFlight()))
  }

  predicate SameProcesses(s: State, t: State) {
    && t.procs == s.procs
    && (t.reaper == s.reaper || t.reaper == Reaper({}, None))
    && t.db.workers.Keys == s.db.workers.Keys
    && (forall w :: w in s.db.workers ==> t.db.workers[w].active == s.db.workers[w].active)
  }

  lemma SameHandsKeepOwned(s: State, t: State)
    requires Owned(s) && SameProcesses(s, t)
    requires forall j :: SameHand(s, t, j)
    ensures Owned(t)
  {
    forall w, k | w in t.procs && k in t.procs[w].futures ensures FutureOk(t, w, k) {
      assert FutureOk(s, w, k) && SameHand(s, t, k.job);
    }
    forall j | j in t.db.jobs ensures j in t.hist && JobOwned(t, j) {
      assert SameHand(s, t, j);
      if t.db.jobs[j].InFlight() {
        assert JobOwned(s, j);
      }
    }
    forall w | w in t.procs ensures WorkerOk(t, w) && LockOk(t, w) {
      assert WorkerOk(s, w) && LockOk(s, w);
      forall j | j in t.procs[w].locks ensures j in t.db.jobs && t.db.jobs[j].status == Queued {
        assert SameHand(s, t, j);
      }
    }
    if t.reaper.current.Some? {
      forall j | j in t.db.jobs ensures !ReaperService.Orphan(t.db.jobs[j], t.reaper.current.value) {
        assert SameHand(s, t, j);
      }
    }
  }

  lemma CreateKeepsOwned(s: State, j: JobId, q: QueueId, data: JobCreate, key: Option<string>)
    requires Owned(s) && CanCreate(s, j, q, data, key)
    ensures Owned(DoCreate(s, j, q, data, key))
  {
    var t := DoCreate(s, j, q, data, key);
    forall i ensures SameHand(s, t, i) {
      assert i in s.db.jobs ==> JobOwned(s, i);
    }
    SameHandsKeepOwned(s, t);
  }

  lemma ReplayKeepsOwned(s: State, j: JobId, clone: JobId)
    requires Owned(s) && CanReplay(s, j, clone)
    ensures Owned(DoReplay(s, j, clone))
  {
    var t := DoReplay(s, j, clone);
    forall i ensures SameHand(s, t, i) {
      assert i in s.db.jobs ==> JobOwned(s, i);
    }
    SameHandsKeepOwned(s, t);
  }

  lemma DeleteQueueKeepsOwned(s: State, q: QueueId)
    requires Owned(s) && CanDeleteQueue(s, q)
    ensures Owned(s.(db := QueueService.Deleted(s.db, q)))
  {
    var t := s.(db := QueueService.Deleted(s.db, q));
    forall i ensures SameHand(s, t, i) {
      assert i in s.db.jobs ==> JobOwned(s, i);
      assert i !in QueueService.ActiveJobs(s.db, q);
    }
    SameHandsKeepOwned(s, t);
  }

  /** All that promotion's effect on ownership depends on. */
  predicate AllScheduled(s: State, batch: set<JobId>) {
    forall j :: j in batch ==> j in s.db.jobs && s.db.jobs[j].status == Scheduled
  }

  lemma DueAreScheduled(s: State, batch: set<JobId>, size: int)
    requires CanPromote(s, batch, size)
    ensures AllScheduled(s, batch)
  {
    assert batch <= SchedulerService.DueSet(s.db, None, s.now);
  }

  lemma PromoteKeepsOwned(s: State, batch: set<JobId>)
    requires Owned(s) && AllScheduled(s, batch)
    ensures Owned(DoPromote(s, batch))
  {
    var t := DoPromote(s, batch);
    forall i ensures SameHand(s, t, i) {
      assert i in s.db.jobs ==> JobOwned(s, i);
    }
    SameHandsKeepOwned(s, t);
  }

  lemma CronKeepsOwned(s: State, t: JobId, child: JobId, next: Time, at: Time)
    requires Owned(s) && t in s.db.jobs && s.db.jobs[t].status == Scheduled && child !in s.hist
    ensures Owned(DoCron(s, t, child, next, at))
  {
    var u := DoCron(s, t, child, next, at);
    forall i ensures SameHand(s, u, i) {
      assert i in s.db.jobs ==> JobOwned(s, i);
      CronSameHand(s, t, child, next, at, i);
    }
    SameHandsKeepOwned(s, u);
  }

  lemma CronSameHand(s: State, t: JobId, child: JobId, next: Time, at: Time, i: JobId)
    requires s.db.jobs.Keys <= s.hist.Keys && (i in s.db.jobs ==> JobOwned(s, i))
    requires t in s.db.jobs && s.db.jobs[t].status == Scheduled && child !in s.hist
    ensures SameHand(s, DoCron(s, t, child, next, at), i)
  {
  }

  // ---------------------------------------------------------------- run_job's commits

  /**
   A commit of `run_job`: it may only touch its own future's job, keep the owner while the
   job stays in flight, and finish the future exactly when the job leaves flight.
   */
  predicate OwnCommit(s: State, w: WorkerId, k: Future, db: Db, h: Hist, pc: Pc)
    requires At(s, w, k)
  {
    && s.procs[w].futures[k] != Done
    && db.workers == s.db.workers
    && k.job in db.jobs && db.jobs == s.db.jobs[k.job := db.jobs[k.job]]
    && h.claims == s.hist[k.job].claims
    && pc != Dispatched
    && (pc != Done ==>
          && db.jobs[k.job].status == Running && db.jobs[k.job].worker == s.db.jobs[k.job].worker
          && (h.recorded <==> pc.FailureRecorded?))
    && (pc == Done ==> !db.jobs[k.job].InFlight() && db.jobs[k.job].status != Queued && !h.recorded)
  }

  /** No two unfinished futures, of any worker, are about the same job. */
  lemma OneFuturePerJob(s: State, v: WorkerId, m: Future, w: WorkerId, k: Future)
    requires FuturesOk(s)
    requires v in s.procs && m in s.procs[v].futures && s.procs[v].futures[m] != Done
    requires w in s.procs && k in s.procs[w].futures && s.procs[w].futures[k] != Done
    requires m.job == k.job
    ensures v == w && m == k
  {
    assert FutureOk(s, v, m) && FutureOk(s, w, k);
  }

  lemma AdvanceKeepsFutures(s: State, w: WorkerId, k: Future, db: Db, h: Hist, pc: Pc)
    requires Owned(s) && At(s, w, k) && OwnCommit(s, w, k, db, h, pc)
    ensures FuturesOk(Advance(s, w, k, db, h, pc))
  {
    var t := Advance(s, w, k, db, h, pc);
    forall v, m | v in t.procs && m in t.procs[v].futures ensures FutureOk(t, v, m) {
      assert FutureOk(s, w, k);
      if v != w || m != k {
        assert m in s.procs[v].futures && FutureOk(s, v, m);
        if s.procs[v].futures[m] != Done && m.job == k.job {
          OneFuturePerJob(s, v, m, w, k);
        }
      }
    }
  }

  lemma AdvanceKeepsJobs(s: State, w: WorkerId, k: Future, db: Db, h: Hist, pc: Pc)
    requires Owned(s) && At(s, w, k) && OwnCommit(s, w, k, db, h, pc)
    ensures JobsOwned(Advance(s, w, k, db, h, pc))
  {
    var t := Advance(s, w, k, db, h, pc);
    assert FutureOk(s, w, k);
    forall j | j in t.db.jobs ensures JobOwned(t, j) {
      assert JobOwned(s, j);
    }
  }

  lemma AdvanceKeepsWorkers(s: State, w: WorkerId, k: Future, db: Db, h: Hist, pc: Pc)
    requires Owned(s) && At(s, w, k) && OwnCommit(s, w, k, db, h, pc)
    ensures WorkersOk(Advance(s, w, k, db, h, pc)) && LocksOk(Advance(s, w, k, db, h, pc))
  {
    var t := Advance(s, w, k, db, h, pc);
    assert FutureOk(s, w, k);
    forall v | v in t.procs ensures WorkerOk(t, v) && LockOk(t, v) {
      assert WorkerOk(s, v) && LockOk(s, v);
    }
    forall v, u | v in t.procs && u in t.procs && v != u ensures t.procs[v].locks !! t.procs[u].locks {
      assert s.procs[v].locks !! s.procs[u].locks;
    }
  }

  lemma AdvanceKeepsReaper(s: State, w: WorkerId, k: Future, db: Db, h: Hist, pc: Pc)
    requires Owned(s) && At(s, w, k) && OwnCommit(s, w, k, db, h, pc)
    ensures ReaperOk(Advance(s, w, k, db, h, pc))
  {
    assert FutureOk(s, w, k);
  }

  lemma AdvanceKeepsOwned(s: State, w: WorkerId, k: Future, db: Db, h: Hist, pc: Pc)
    requires Owned(s) && At(s, w, k) && OwnCommit(s, w, k, db, h, pc)
    ensures Owned(Advance(s, w, k, db, h, pc))
  {
    AdvanceKeepsFutures(s, w, k, db, h, pc);
    AdvanceKeepsJobs(s, w, k, db, h, pc);
    AdvanceKeepsWorkers(s, w, k, db, h, pc);
    AdvanceKeepsReaper(s, w, k, db, h, pc);
  }

  lemma StartOwnsItsJob(s: State, w: WorkerId, k: Future, e: ExecId)
    requires CanStart(s, w, k, e) && FutureOk(s, w, k)
    ensures OwnCommit(s, w, k, ExecutorService.Started(s.db, k.job, w, e),
                      StartedHist(s.hist[k.job]), Executing(e))
  {
  }

  lemma FinishOwnsItsJob(s: State, w: WorkerId, k: Future)
    requires CanFinish(s, w, k) && FutureOk(s, w, k)
    ensures var h, e := s.hist[k.job], s.procs[w].futures[k].e;
            && OwnCommit(s, w, k, ExecutorService.FinishedOk(s.db, k.job, e),
                         FinishedHist(h, e), Done)
            && OwnCommit(s, w, k, ExecutorService.FailureRecorded(s.db, k.job, e),
                         FailedHist(h), FailureRecorded(e))
  {
  }

  lemma RetryOwnsItsJob(s: State, w: WorkerId, k: Future, draw: real)
    requires CanRetry(s, w, k, draw) && FutureOk(s, w, k)
    ensures var db := RetryService.Retried(s.db, k.job, draw, s.now);
            OwnCommit(s, w, k, db, RetriedHist(s.hist[k.job], db.jobs[k.job]), Done)
  {
  }

  lemma StartKeepsOwned(s: State, w: WorkerId, k: Future, e: ExecId)
    requires Owned(s) && CanStart(s, w, k, e)
    ensures Owned(DoStart(s, w, k, e))
  {
    StartOwnsItsJob(s, w, k, e);
    AdvanceKeepsOwned(s, w, k, ExecutorService.Started(s.db, k.job, w, e),
                      StartedHist(s.hist[k.job]), Executing(e));
  }

  lemma FinishKeepsOwned(s: State, w: WorkerId, k: Future)
    requires Owned(s) && CanFinish(s, w, k)
    ensures Owned(DoFinish(s, w, k))
  {
    FinishOwnsItsJob(s, w, k);
    var h, e := s.hist[k.job], s.procs[w].futures[k].e;
    AdvanceKeepsOwned(s, w, k, ExecutorService.FinishedOk(s.db, k.job, e),
                      FinishedHist(h, e), Done);
  }

  lemma FailKeepsOwned(s: State, w: WorkerId, k: Future)
    requires Owned(s) && CanFinish(s, w, k)
    ensures Owned(DoFail(s, w, k))
  {
    FinishOwnsItsJob(s, w, k);
    var h, e := s.hist[k.job], s.procs[w].futures[k].e;
    AdvanceKeepsOwned(s, w, k, ExecutorService.FailureRecorded(s.db, k.job, e),
                      FailedHist(h), FailureRecorded(e));
  }

  lemma RetryKeepsOwned(s: State, w: WorkerId, k: Future, draw: real)
    requires Owned(s) && CanRetry(s, w, k, draw)
    ensures Owned(DoRetry(s, w, k, draw))
  {
    RetryOwnsItsJob(s, w, k, draw);
    var db := RetryService.Retried(s.db, k.job, draw, s.now);
    AdvanceKeepsOwned(s, w, k, db, RetriedHist(s.hist[k.job], db.jobs[k.job]), Done);
  }

  // ---------------------------------------------------------------- claiming

  /** All that locking's effect on ownership depends on: the rows are queued and unlocked. */
  predicate FreeRows(s: State, w: WorkerId, chosen: set<JobId>) {
    && InBody(s, w) && s.procs[w].locks == {}
    && (forall j :: j in chosen ==> j in s.db.jobs && s.db.jobs[j].status == Queued)
    && (forall v :: v in s.procs ==> s.procs[v].locks !! chosen)
  }

  lemma ClaimTakesFreeRows(s: State, w: WorkerId, chosen: set<JobId>)
    requires CanClaimLock(s, w, chosen)
    ensures FreeRows(s, w, chosen)
  {
    assert chosen <= ClaimService.EligibleSet(s.db, s.procs[w].queue, s.now) - Locked(s.procs);
    forall v, j | v in s.procs && j in s.procs[v].locks ensures j !in chosen {
      assert j in Locked(s.procs);
    }
  }

  lemma ClaimLockKeepsOwned(s: State, w: WorkerId, chosen: set<JobId>)
    requires Owned(s) && FreeRows(s, w, chosen)
    ensures Owned(DoClaimLock(s, w, chosen))
  {
    var t := DoClaimLock(s, w, chosen);
    forall v, k | v in t.procs && k in t.procs[v].futures ensures FutureOk(t, v, k) {
      assert FutureOk(s, v, k);
    }
    forall j | j in t.db.jobs ensures JobOwned(t, j) {
      assert JobOwned(s, j);
    }
    forall v | v in t.procs ensures WorkerOk(t, v) && LockOk(t, v) {
      assert WorkerOk(s, v) && LockOk(s, v);
    }
  }

  lemma ClaimKeepsFutures(s: State, w: WorkerId)
    requires Owned(s) && CanClaimCommit(s, w)
    ensures FuturesOk(DoClaimCommit(s, w))
  {
    var t, p := DoClaimCommit(s, w), s.procs[w];
    forall v, k | v in t.procs && k in t.procs[v].futures ensures FutureOk(t, v, k) {
      assert LockOk(s, w);
      if v == w && k in Batch(s, p.locks) {
        assert k.job in p.locks && JobOwned(s, k.job);
      } else {
        assert k in s.procs[v].futures && FutureOk(s, v, k);
      }
    }
  }

  lemma ClaimKeepsJobs(s: State, w: WorkerId)
    requires Owned(s) && CanClaimCommit(s, w)
    ensures JobsOwned(DoClaimCommit(s, w))
  {
    var t, p := DoClaimCommit(s, w), s.procs[w];
    forall j | j in t.db.jobs ensures JobOwned(t, j) {
      assert LockOk(s, w);
      if j in p.locks {
        assert WorkerOk(s, w) && JobOwned(s, j);
        assert Future(j, t.hist[j].claims) in Batch(s, p.locks);
      } else {
        assert JobOwned(s, j);
        if s.db.jobs[j].InFlight() && s.db.jobs[j].worker == Some(w) && p.phase.Alive() {
          assert Future(j, s.hist[j].claims) !in Batch(s, p.locks);
        }
      }
    }
  }

  lemma ClaimCommitKeepsOwned(s: State, w: WorkerId)
    requires Owned(s) && CanClaimCommit(s, w)
    ensures Owned(DoClaimCommit(s, w))
  {
    ClaimKeepsFutures(s, w);
    ClaimKeepsJobs(s, w);
    ClaimKeepsLocks(s, w);
    ClaimKeepsWorkers(s, w);
  }

  lemma ClaimKeepsLocks(s: State, w: WorkerId)
    requires LocksOk(s) && CanClaimCommit(s, w)
    ensures LocksOk(DoClaimCommit(s, w))
  {
    var t := DoClaimCommit(s, w);
    forall v | v in t.procs && v != w ensures LockOk(t, v) {
      assert LockOk(s, v) && s.procs[v].locks !! s.procs[w].locks;
    }
  }

  lemma ClaimKeepsWorkers(s: State, w: WorkerId)
    requires WorkersOk(s) && ReaperOk(s) && CanClaimCommit(s, w)
    ensures WorkersOk(DoClaimCommit(s, w)) && ReaperOk(DoClaimCommit(s, w))
  {
    var t := DoClaimCommit(s, w);
    forall v | v in t.procs ensures WorkerOk(t, v) {
      assert WorkerOk(s, v);
    }
  }

  // ---------------------------------------------------------------- processes

  /** A step of one process that keeps its unfinished futures and its aliveness. */
  lemma LocalKeepsOwned(s: State, t: State, w: WorkerId)
    requires Owned(s) && w in s.procs && w in t.procs
    requires t == s.(procs := s.procs[w := t.procs[w]], db := s.db.(workers := t.db.workers))
    requires t.db.workers.Keys == s.db.workers.Keys
    requires forall v :: v in s.db.workers ==> t.db.workers[v].active == s.db.workers[v].active
    requires s.procs[w].phase.Alive() && t.procs[w].phase.Alive()
    requires s.procs[w].locks == t.procs[w].locks == {}
    requires t.procs[w].futures.Keys <= s.procs[w].futures.Keys
    requires forall k :: k in t.procs[w].futures ==> t.procs[w].futures[k] == s.procs[w].futures[k]
    requires forall k :: k in s.procs[w].futures && s.procs[w].futures[k] != Done ==> k in t.procs[w].futures
    ensures Owned(t)
  {
    forall j | j in t.db.jobs ensures JobOwned(t, j) {
      assert JobOwned(s, j);
    }
    LocalKeepsFutures(s, t, w);
    LocalKeepsWorkers(s, t, w);
    LocalKeepsLocks(s, t, w);
  }

  lemma LocalKeepsFutures(s: State, t: State, w: WorkerId)
    requires FuturesOk(s) && w in s.procs && w in t.procs && t.procs == s.procs[w := t.procs[w]]
    requires t.db.jobs == s.db.jobs && t.hist == s.hist
    requires t.procs[w].futures.Keys <= s.procs[w].futures.Keys
    requires forall k :: k in t.procs[w].futures ==> t.procs[w].futures[k] == s.procs[w].futures[k]
    ensures FuturesOk(t)
  {
    forall v, k | v in t.procs && k in t.procs[v].futures ensures FutureOk(t, v, k) {
      assert FutureOk(s, v, k);
    }
  }

  lemma LocalKeepsWorkers(s: State, t: State, w: WorkerId)
    requires WorkersOk(s) && w in s.procs && w in t.procs && t.procs == s.procs[w := t.procs[w]]
    requires t.db.workers.Keys == s.db.workers.Keys
    requires forall v :: v in s.db.workers ==> t.db.workers[v].active == s.db.workers[v].active
    requires s.procs[w].phase.Alive() && t.procs[w].phase.Alive()
    ensures WorkersOk(t)
  {
    forall v | v in t.procs ensures WorkerOk(t, v) {
      assert WorkerOk(s, v);
    }
  }

  lemma LocalKeepsLocks(s: State, t: State, w: WorkerId)
    requires LocksOk(s) && w in s.procs && w in t.procs && t.procs == s.procs[w := t.procs[w]]
    requires t.db.jobs == s.db.jobs && t.procs[w].locks == {}
    ensures LocksOk(t)
  {
    forall v | v in t.procs && v != w ensures LockOk(t, v) {
      assert LockOk(s, v);
    }
  }

  lemma LoopKeepsOwned(c: Config, s: State, w: WorkerId, a: Timing.Tick)
    requires Owned(s) && CanLoop(c, s, w, a)
    ensures Owned(DoLoop(s, w, a))
  {
    LocalKeepsOwned(s, DoLoop(s, w, a), w);
  }

  lemma CleanKeepsOwned(s: State, w: WorkerId, finished: set<Future>)
    requires Owned(s) && CanClean(s, w, finished)
    ensures Owned(DoClean(s, w, finished))
  {
    LocalKeepsOwned(s, DoClean(s, w, finished), w);
  }

  lemma ReadLimitKeepsOwned(s: State, w: WorkerId)
    requires Owned(s) && CanReadLimit(s, w)
    ensures Owned(DoReadLimit(s, w))
  {
    LocalKeepsOwned(s, DoReadLimit(s, w), w);
  }

  lemma RegisterKeepsOwned(c: Config, s: State, w: WorkerId, queue: Option<QueueId>, stamp: Time)
    requires Owned(s) && CanRegister(c, s, w, stamp)
    ensures Owned(DoRegister(s, w, queue, stamp))
  {
    var t := DoRegister(s, w, queue, stamp);
    forall v, k | v in t.procs && k in t.procs[v].futures ensures FutureOk(t, v, k) {
      assert FutureOk(s, v, k);
    }
    forall j | j in t.db.jobs ensures JobOwned(t, j) {
      assert JobOwned(s, j);
    }
    forall v | v in t.procs ensures WorkerOk(t, v) && LockOk(t, v) {
      if v != w {
        assert WorkerOk(s, v) && LockOk(s, v);
      }
    }
  }

  /** Draining waits for every thread, so a clean exit leaves no job behind. */
  lemma DeregisterKeepsOwned(s: State, w: WorkerId)
    requires Owned(s) && CanDeregister(s, w)
    ensures Owned(DoDeregister(s, w))
  {
    var t := DoDeregister(s, w);
    assert WorkerOk(s, w);
    forall v, k | v in t.procs && k in t.procs[v].futures ensures FutureOk(t, v, k) {
      assert FutureOk(s, v, k);
    }
    forall j | j in t.db.jobs ensures JobOwned(t, j) {
      assert JobOwned(s, j);
    }
    forall v | v in t.procs ensures WorkerOk(t, v) && LockOk(t, v) {
      assert WorkerOk(s, v) && LockOk(s, v);
    }
  }

  lemma CrashKeepsFutures(s: State, w: WorkerId)
    requires FuturesOk(s) && Live(s, w)
    ensures FuturesOk(DoCrash(s, w))
  {
    var t := DoCrash(s, w);
    forall v, k | v in t.procs && k in t.procs[v].futures ensures FutureOk(t, v, k) {
      assert FutureOk(s, v, k);
    }
  }

  lemma CrashKeepsOwned(s: State, w: WorkerId)
    requires Owned(s) && Live(s, w)
    ensures Owned(DoCrash(s, w))
  {
    var t := DoCrash(s, w);
    assert WorkerOk(s, w);
    CrashKeepsFutures(s, w);
    forall j | j in t.db.jobs ensures JobOwned(t, j) {
      assert JobOwned(s, j);
    }
    forall v | v in t.procs ensures WorkerOk(t, v) && LockOk(t, v) {
      assert WorkerOk(s, v) && LockOk(s, v);
    }
  }

  // ---------------------------------------------------------------- reaper

  lemma ReaperFindKeepsOwned(c: Config, s: State)
    requires Owned(s)
    requires forall w :: w in ReaperService.StaleWorkers(s.db, s.now - c.timing.threshold) ==>
                w in s.procs && s.procs[w].phase.Crashed?
    ensures Owned(DoReaperFind(c, s))
  {
    var t := DoReaperFind(c, s);
    forall v, k | v in t.procs && k in t.procs[v].futures ensures FutureOk(t, v, k) {
      assert FutureOk(s, v, k);
    }
    forall j | j in t.db.jobs ensures JobOwned(t, j) {
      assert JobOwned(s, j);
    }
    forall v | v in t.procs ensures WorkerOk(t, v) && LockOk(t, v) {
      assert WorkerOk(s, v) && LockOk(s, v);
    }
  }

  lemma RecoverKeepsFutures(s: State, w: WorkerId)
    requires Owned(s) && CanRecover(s, w)
    ensures FuturesOk(DoRecover(s, w))
  {
    var t := DoRecover(s, w);
    forall v, k | v in t.procs && k in t.procs[v].futures ensures FutureOk(t, v, k) {
      assert FutureOk(s, v, k) && WorkerOk(s, v);
    }
  }

  lemma RecoverKeepsJobs(s: State, w: WorkerId)
    requires JobsOwned(s)
    ensures JobsOwned(DoRecover(s, w))
  {
    var t := DoRecover(s, w);
    forall j | j in t.db.jobs ensures JobOwned(t, j) {
      assert JobOwned(s, j);
    }
  }

  lemma RecoverKeepsWorkers(s: State, w: WorkerId)
    requires LocksOk(s) && WorkersOk(s)
    ensures LocksOk(DoRecover(s, w)) && WorkersOk(DoRecover(s, w))
  {
    var t := DoRecover(s, w);
    forall v | v in t.procs ensures WorkerOk(t, v) && LockOk(t, v) {
      assert WorkerOk(s, v) && LockOk(s, v);
    }
  }

  lemma RecoverKeepsOwned(s: State, w: WorkerId)
    requires Owned(s) && CanRecover(s, w)
    ensures Owned(DoRecover(s, w))
  {
    RecoverKeepsFutures(s, w);
    RecoverKeepsJobs(s, w);
    RecoverKeepsWorkers(s, w);
  }

  lemma MarkKeepsOwned(s: State)
    requires Owned(s) && s.reaper.current.Some?
    ensures Owned(DoMark(s))
  {
    var t, w := DoMark(s), s.reaper.current.value;
    forall v, k | v in t.procs && k in t.procs[v].futures ensures FutureOk(t, v, k) {
      assert FutureOk(s, v, k);
    }
    forall j | j in t.db.jobs ensures JobOwned(t, j) {
      assert JobOwned(s, j) && !ReaperService.Orphan(s.db.jobs[j], w);
    }
    forall v | v in t.procs ensures WorkerOk(t, v) && LockOk(t, v) {
      assert WorkerOk(s, v) && LockOk(s, v);
    }
  }
}
