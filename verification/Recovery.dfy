/**
 Recovery under interleaving: what a crashed worker leaves in flight stays exactly so, whatever
 everybody else does, until the reaper's commit for that worker.
 */
module Recovery {
  import opened Model
  import opened Protocol
  import opened Ownership
  import opened System
  import QueueService
  import ReaperService

  /** `w` has taken `j` and not reported; `n` retries are counted. */
  predicate InHandsOf(s: State, j: JobId, w: WorkerId, n: nat) {
    j in s.db.jobs && ReaperService.Orphan(s.db.jobs[j], w) && s.db.jobs[j].retryCount == n
  }

  predicate BackInQueue(s: State, j: JobId, n: nat) {
    j in s.db.jobs && s.db.jobs[j].status == Queued && s.db.jobs[j].worker == None && s.db.jobs[j].retryCount == n
  }

  /** `w` has crashed with `j` in its hands, and last sent a heartbeat at `beat`. */
  predicate Orphaned(s: State, j: JobId, w: WorkerId, n: nat, beat: Time) {
    && w in s.procs && s.procs[w].phase.Crashed?
    && w in s.db.workers && s.db.workers[w].heartbeat == beat
    && InHandsOf(s, j, w, n)
  }

  // ---------------------------------------------------------------- persistence

  lemma ClientKeepsOrphan(c: Config, s: State, a: ClientAct, j: JobId, w: WorkerId, n: nat, beat: Time)
    requires s.db.jobs.Keys <= s.hist.Keys && Orphaned(s, j, w, n, beat) && ClientEnabled(c, s, a)
    ensures Orphaned(ClientApply(c, s, a), j, w, n, beat)
  {
    if a.DeleteQueue? {
      assert j !in QueueService.ActiveJobs(s.db, a.q);
    }
  }

  lemma MainThreadKeepsOrphan(c: Config, s: State, v: WorkerId, a: WorkerAct, j: JobId, w: WorkerId, n: nat, beat: Time)
    requires LocksOk(s) && Orphaned(s, j, w, n, beat) && WorkerEnabled(c, s, v, a)
    ensures Orphaned(WorkerApply(c, s, v, a), j, w, n, beat)
  {
    assert v != w;
    if a.ClaimCommit? {
      assert LockOk(s, v);
      assert j !in s.procs[v].locks;
    } else {
      WorkerLeavesJobsAlone(c, s, v, a);
    }
  }

  /** No living thread holds the job of a crashed worker. */
  lemma JobThreadKeepsOrphan(s: State, v: WorkerId, k: Future, a: ThreadAct, j: JobId, w: WorkerId, n: nat, beat: Time)
    requires FuturesOk(s) && Orphaned(s, j, w, n, beat) && ThreadEnabled(s, v, k, a)
    ensures Orphaned(ThreadApply(s, v, k, a), j, w, n, beat)
  {
    assert FutureOk(s, v, k);
    assert k.job != j;
    ThreadIsLocal(s, v, k, a);
    OtherRowsStay(s, v, k, a, j);
  }

  lemma OtherRowsStay(s: State, v: WorkerId, k: Future, a: ThreadAct, j: JobId)
    requires ThreadEnabled(s, v, k, a) && j in s.db.jobs && k.job != j
    ensures j in ThreadApply(s, v, k, a).db.jobs && ThreadApply(s, v, k, a).db.jobs[j] == s.db.jobs[j]
    ensures forall u :: u in s.procs ==>
              u in ThreadApply(s, v, k, a).procs && ThreadApply(s, v, k, a).procs[u].phase == s.procs[u].phase
  {
  }

  lemma ReaperKeepsOrphan(c: Config, s: State, a: ReaperAct, j: JobId, w: WorkerId, n: nat, beat: Time)
    requires ReaperOk(s) && Orphaned(s, j, w, n, beat) && ReaperEnabled(s, a) && a != Recover(w)
    ensures Orphaned(ReaperApply(c, s, a), j, w, n, beat)
    ensures w in s.reaper.todo && !a.Stop? ==> w in ReaperApply(c, s, a).reaper.todo
  {
  }

  lemma SchedulerKeepsOrphan(c: Config, s: State, a: SchedulerAct, j: JobId, w: WorkerId, n: nat, beat: Time)
    requires s.db.jobs.Keys <= s.hist.Keys && Orphaned(s, j, w, n, beat) && SchedulerEnabled(c, s, a)
    ensures Orphaned(SchedulerApply(c, s, a), j, w, n, beat)
  {
    if a.Promote? {
      DueAreScheduled(s, a.batch, a.size);
    }
  }

  /** Every step of everybody but the recovering commit leaves the orphan as it is. */
  lemma StepKeepsOrphan(c: Config, s: State, a: Step, j: JobId, w: WorkerId, n: nat, beat: Time)
    requires Owned(s) && Orphaned(s, j, w, n, beat) && Enabled(c, s, a) && a != ByReaper(Recover(w))
    ensures Orphaned(Apply(c, s, a), j, w, n, beat)
  {
    match a
    case ByClient(act) => ClientKeepsOrphan(c, s, act, j, w, n, beat);
    case ByWorker(v, act) => MainThreadKeepsOrphan(c, s, v, act, j, w, n, beat);
    case ByThread(v, k, act) => JobThreadKeepsOrphan(s, v, k, act, j, w, n, beat);
    case ByReaper(act) => ReaperKeepsOrphan(c, s, act, j, w, n, beat);
    case ByScheduler(act) => SchedulerKeepsOrphan(c, s, act, j, w, n, beat);
    case Pass(_) =>
  }

  /** Nobody but the reaper touches the reaper's list. */
  lemma OthersLeaveReaper(c: Config, s: State, a: Step)
    requires Enabled(c, s, a) && !a.ByReaper?
    ensures Apply(c, s, a).reaper == s.reaper
  {
  }

  lemma RecoverTakesOrphan(s: State, j: JobId, w: WorkerId, n: nat)
    requires InHandsOf(s, j, w, n)
    ensures BackInQueue(DoRecover(s, w), j, n + 1)
  {
  }

  /** Either the step recovers the orphan, or it stays; and a listed worker stays listed. */
  lemma OrphanStep(c: Config, s: State, a: Step, j: JobId, w: WorkerId, n: nat, beat: Time)
    requires c.Sane() && Inv(c, s) && Enabled(c, s, a) && Orphaned(s, j, w, n, beat)
    ensures Inv(c, Apply(c, s, a))
    ensures if a == ByReaper(Recover(w)) then BackInQueue(Apply(c, s, a), j, n + 1)
            else
              && Orphaned(Apply(c, s, a), j, w, n, beat)
              && (w in s.reaper.todo && a != ByReaper(Stop) ==> w in Apply(c, s, a).reaper.todo)
  {
    StepKeepsInv(c, s, a);
    if a == ByReaper(Recover(w)) {
      RecoverTakesOrphan(s, j, w, n);
    } else {
      StepKeepsOrphan(c, s, a, j, w, n, beat);
      if a.ByReaper? {
        ReaperKeepsOrphan(c, s, a.reap, j, w, n, beat);
      } else {
        OthersLeaveReaper(c, s, a);
      }
    }
  }

  // ---------------------------------------------------------------- the cycle

  /** Somewhere along the run a commit takes `j` from the hands of `w` back to the queue. */
  ghost predicate RecoveredIn(c: Config, s: State, run: seq<Step>, j: JobId, w: WorkerId, n: nat)
    requires ValidRun(c, s, run)
    decreases |run|
  {
    && run != []
    && var t := Apply(c, s, run[0]);
       || (run[0] == ByReaper(Recover(w)) && InHandsOf(s, j, w, n) && BackInQueue(t, j, n + 1))
       || RecoveredIn(c, t, run[1..], j, w, n)
  }

  /** The reaper is not stopped in the middle of its cycle. */
  predicate NeverStops(run: seq<Step>) {
    run != [] ==> run[0] != ByReaper(Stop) && NeverStops(run[1..])
  }

  /** Until it is recovered, the orphan persists. */
  lemma {:induction false} OrphanPersists(c: Config, s: State, run: seq<Step>, j: JobId, w: WorkerId, n: nat,
                                          beat: Time)
    requires c.Sane() && Inv(c, s) && ValidRun(c, s, run) && Orphaned(s, j, w, n, beat)
    ensures RecoveredIn(c, s, run, j, w, n) || Orphaned(Final(c, s, run), j, w, n, beat)
    decreases |run|
  {
    if run != [] {
      OrphanStep(c, s, run[0], j, w, n, beat);
      if run[0] != ByReaper(Recover(w)) {
        OrphanPersists(c, Apply(c, s, run[0]), run[1..], j, w, n, beat);
      }
    }
  }

  /** And a worker on the reaper's list stays there until then, unless the reaper is stopped. */
  lemma {:induction false} ListedPersists(c: Config, s: State, run: seq<Step>, j: JobId, w: WorkerId, n: nat,
                                          beat: Time)
    requires c.Sane() && Inv(c, s) && ValidRun(c, s, run) && Orphaned(s, j, w, n, beat)
    requires w in s.reaper.todo && NeverStops(run)
    ensures RecoveredIn(c, s, run, j, w, n) || w in Final(c, s, run).reaper.todo
    decreases |run|
  {
    if run != [] {
      OrphanStep(c, s, run[0], j, w, n, beat);
      if run[0] != ByReaper(Recover(w)) {
        ListedPersists(c, Apply(c, s, run[0]), run[1..], j, w, n, beat);
      }
    }
  }

  /** Time only passes, so an expired heartbeat stays expired. */
  lemma {:induction false} TimeIsMonotone(c: Config, s: State, run: seq<Step>)
    requires ValidRun(c, s, run)
    ensures s.now <= Final(c, s, run).now
    decreases |run|
  {
    if run != [] {
      StepsKeepTime(c, s, run[0]);
      TimeIsMonotone(c, Apply(c, s, run[0]), run[1..]);
    }
  }

  lemma StepsKeepTime(c: Config, s: State, a: Step)
    requires Enabled(c, s, a)
    ensures s.now <= Apply(c, s, a).now
  {
  }
}
