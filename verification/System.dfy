/** The invariant of the whole system, and what holds in every state of every run. */
module System {
  import opened Model
  import opened Protocol
  import opened Ownership
  import opened History
  import opened Records
  import opened Lineage
  import opened Capacity
  import opened Heartbeats
  import opened Preservation
  import ReaperService
  import SchedulerService

  ghost predicate Inv(c: Config, s: State) {
    Owned(s) && Rows(s) && Recorded(s) && Slots(c, s) && Beats(c, s)
  }

  // ---------------------------------------------------------------- clients

  lemma IdleKeepsOwned(s: State, t: State)
    requires Owned(s) && t.db.jobs == s.db.jobs && t.hist == s.hist && SameProcesses(s, t)
    ensures Owned(t)
  {
    forall i ensures SameHand(s, t, i) {
      assert i in s.db.jobs ==> JobOwned(s, i);
    }
    SameHandsKeepOwned(s, t);
  }

  lemma ClientKeepsOwned(c: Config, s: State, a: ClientAct)
    requires Owned(s) && ClientEnabled(c, s, a)
    ensures Owned(ClientApply(c, s, a))
  {
    match a
    case Create(j, q, data, key) => CreateKeepsOwned(s, j, q, data, key);
    case Replay(j, clone) => ReplayKeepsOwned(s, j, clone);
    case SetQueue(_, _) => IdleKeepsOwned(s, ClientApply(c, s, a));
    case DeleteQueue(q) => DeleteQueueKeepsOwned(s, q);
  }

  lemma ClientKeepsRows(c: Config, s: State, a: ClientAct)
    requires Rows(s) && Recorded(s) && ClientEnabled(c, s, a)
    ensures Rows(ClientApply(c, s, a))
  {
    match a
    case Create(j, q, data, key) => CreateKeepsRows(s, j, q, data, key);
    case Replay(j, clone) =>
      assert LetterOk(s, j);
      ReplayKeepsRows(s, j, clone);
    case SetQueue(_, _) =>
    case DeleteQueue(q) => DeleteQueueKeepsRows(s, q);
  }

  lemma ClientKeepsRecorded(c: Config, s: State, a: ClientAct)
    requires FuturesOk(s) && Recorded(s) && ClientEnabled(c, s, a)
    ensures Recorded(ClientApply(c, s, a))
  {
    match a
    case Create(j, q, data, key) => CreateKeepsRecorded(s, j, q, data, key);
    case Replay(j, clone) => ReplayKeepsRecorded(s, j, clone);
    case SetQueue(_, _) => StillKeepsRecorded(s, ClientApply(c, s, a));
    case DeleteQueue(q) => DeleteQueueKeepsRecorded(s, q);
  }

  lemma ClientKeepsBeats(c: Config, s: State, a: ClientAct)
    requires Beats(c, s) && ClientEnabled(c, s, a)
    ensures Beats(c, ClientApply(c, s, a))
  {
    var t := ClientApply(c, s, a);
    forall w | w in s.procs ensures Clock(t, w) == Clock(s, w) {
    }
    SameClocksKeepBeats(c, s, t);
  }

  lemma ClientKeepsInv(c: Config, s: State, a: ClientAct)
    requires Inv(c, s) && ClientEnabled(c, s, a)
    ensures Inv(c, ClientApply(c, s, a))
  {
    ClientKeepsOwned(c, s, a);
    ClientKeepsRows(c, s, a);
    ClientKeepsRecorded(c, s, a);
    ClientKeepsSlots(c, s, a);
    ClientKeepsBeats(c, s, a);
  }

  lemma ClientKeepsSlots(c: Config, s: State, a: ClientAct)
    requires Slots(c, s) && ClientEnabled(c, s, a)
    ensures Slots(c, ClientApply(c, s, a))
  {
  }

  // ---------------------------------------------------------------- worker main threads

  lemma WorkerKeepsOwned(c: Config, s: State, w: WorkerId, a: WorkerAct)
    requires Owned(s) && WorkerEnabled(c, s, w, a)
    ensures Owned(WorkerApply(c, s, w, a))
  {
    match a
    case Register(queue, stamp) => RegisterKeepsOwned(c, s, w, queue, stamp);
    case Loop(tick) => LoopKeepsOwned(c, s, w, tick);
    case Clean(finished) => CleanKeepsOwned(s, w, finished);
    case ReadLimit => ReadLimitKeepsOwned(s, w);
    case ClaimLock(chosen) =>
      ClaimTakesFreeRows(s, w, chosen);
      ClaimLockKeepsOwned(s, w, chosen);
    case ClaimCommit => ClaimCommitKeepsOwned(s, w);
    case Deregister => DeregisterKeepsOwned(s, w);
    case Crash => CrashKeepsOwned(s, w);
  }

  /** Only the claiming commit touches jobs; a main thread never runs one. */
  lemma WorkerLeavesJobsAlone(c: Config, s: State, w: WorkerId, a: WorkerAct)
    requires WorkerEnabled(c, s, w, a) && !a.ClaimCommit?
    ensures var t := WorkerApply(c, s, w, a);
            && t.db.jobs == s.db.jobs && t.db.execs == s.db.execs && t.db.dlq == s.db.dlq
            && t.hist == s.hist && t.now == s.now && SameThreads(s, t)
  {
  }

  lemma WorkerKeepsRecorded(c: Config, s: State, w: WorkerId, a: WorkerAct)
    requires Owned(s) && Rows(s) && Recorded(s) && WorkerEnabled(c, s, w, a)
    ensures Rows(WorkerApply(c, s, w, a)) && Recorded(WorkerApply(c, s, w, a))
  {
    if a.ClaimCommit? {
      ClaimCommitKeepsRows(s, w);
      ClaimCommitKeepsRecorded(s, w);
    } else {
      WorkerLeavesJobsAlone(c, s, w, a);
      StillKeepsRecorded(s, WorkerApply(c, s, w, a));
    }
  }

  lemma WorkerKeepsSlots(c: Config, s: State, w: WorkerId, a: WorkerAct)
    requires c.Sane() && Slots(c, s) && WorkerEnabled(c, s, w, a)
    ensures Slots(c, WorkerApply(c, s, w, a))
  {
    match a
    case Register(_, _) =>
    case Clean(finished) => CleanKeepsSlots(c, s, w, finished);
    case ReadLimit => ReadLimitKeepsSlots(c, s, w);
    case ClaimLock(chosen) => ClaimLockKeepsSlots(c, s, w, chosen);
    case ClaimCommit => ClaimCommitKeepsSlots(c, s, w);
    case _ => SameKeysKeepsSlots(c, s, WorkerApply(c, s, w, a), w);
  }

  lemma WorkerLeavesClocks(c: Config, s: State, w: WorkerId, a: WorkerAct)
    requires WorkerEnabled(c, s, w, a) && (a.Clean? || a.ReadLimit? || a.ClaimLock? || a.ClaimCommit?)
    ensures var t := WorkerApply(c, s, w, a);
            t.procs.Keys == s.procs.Keys && forall v :: v in s.procs ==> Clock(t, v) == Clock(s, v)
  {
  }

  lemma WorkerKeepsBeats(c: Config, s: State, w: WorkerId, a: WorkerAct)
    requires c.Sane() && Owned(s) && Beats(c, s) && WorkerEnabled(c, s, w, a)
    ensures Beats(c, WorkerApply(c, s, w, a))
  {
    match a
    case Register(queue, stamp) => RegisterKeepsBeats(c, s, w, queue, stamp);
    case Loop(tick) => LoopKeepsBeats(c, s, w, tick);
    case Deregister => StopKeepsBeats(c, s, w);
    case Crash => StopKeepsBeats(c, s, w);
    case _ =>
      WorkerLeavesClocks(c, s, w, a);
      SameClocksKeepBeats(c, s, WorkerApply(c, s, w, a));
  }

  lemma WorkerKeepsInv(c: Config, s: State, w: WorkerId, a: WorkerAct)
    requires c.Sane() && Inv(c, s) && WorkerEnabled(c, s, w, a)
    ensures Inv(c, WorkerApply(c, s, w, a))
  {
    WorkerKeepsOwned(c, s, w, a);
    WorkerKeepsRecorded(c, s, w, a);
    WorkerKeepsSlots(c, s, w, a);
    WorkerKeepsBeats(c, s, w, a);
  }

  // ---------------------------------------------------------------- job threads

  lemma ThreadKeepsOwned(s: State, w: WorkerId, k: Future, a: ThreadAct)
    requires Owned(s) && ThreadEnabled(s, w, k, a)
    ensures Owned(ThreadApply(s, w, k, a))
  {
    match a
    case Start(e) => StartKeepsOwned(s, w, k, e);
    case Finish => FinishKeepsOwned(s, w, k);
    case Fail => FailKeepsOwned(s, w, k);
    case Retry(draw) => RetryKeepsOwned(s, w, k, draw);
  }

  lemma ThreadKeepsRows(s: State, w: WorkerId, k: Future, a: ThreadAct)
    requires FuturesOk(s) && Rows(s) && ThreadEnabled(s, w, k, a)
    ensures Rows(ThreadApply(s, w, k, a))
  {
    assert FutureOk(s, w, k);
    match a
    case Start(e) => StartKeepsRows(s, w, k, e);
    case Finish => FinishKeepsRows(s, w, k);
    case Fail => FailKeepsRows(s, w, k);
    case Retry(draw) => RetryKeepsRows(s, w, k, draw);
  }

  lemma ThreadKeepsRecorded(s: State, w: WorkerId, k: Future, a: ThreadAct)
    requires FuturesOk(s) && Rows(s) && Recorded(s) && ThreadEnabled(s, w, k, a)
    ensures Recorded(ThreadApply(s, w, k, a))
  {
    assert FutureOk(s, w, k);
    match a
    case Start(e) => StartKeepsRecorded(s, w, k, e);
    case Finish => FinishKeepsRecorded(s, w, k);
    case Fail => FailKeepsRecorded(s, w, k);
    case Retry(draw) => RetryKeepsRecorded(s, w, k, draw);
  }

  /** A thread's commit leaves every clock, limit and lock alone, and adds no future. */
  lemma ThreadIsLocal(s: State, w: WorkerId, k: Future, a: ThreadAct)
    requires ThreadEnabled(s, w, k, a)
    ensures var t := ThreadApply(s, w, k, a);
            && t.db.workers == s.db.workers && t.db.queues == s.db.queues && t.now == s.now
            && w in t.procs && t.procs == s.procs[w := t.procs[w]]
            && t.procs[w] == s.procs[w].(futures := t.procs[w].futures)
            && t.procs[w].futures.Keys == s.procs[w].futures.Keys
  {
  }

  lemma ThreadKeepsRest(c: Config, s: State, w: WorkerId, k: Future, a: ThreadAct)
    requires Slots(c, s) && Beats(c, s) && ThreadEnabled(s, w, k, a)
    ensures Slots(c, ThreadApply(s, w, k, a)) && Beats(c, ThreadApply(s, w, k, a))
  {
    var t := ThreadApply(s, w, k, a);
    ThreadIsLocal(s, w, k, a);
    SameKeysKeepsSlots(c, s, t, w);
    SameClocksKeepBeats(c, s, t);
  }

  lemma ThreadKeepsInv(c: Config, s: State, w: WorkerId, k: Future, a: ThreadAct)
    requires Inv(c, s) && ThreadEnabled(s, w, k, a)
    ensures Inv(c, ThreadApply(s, w, k, a))
  {
    ThreadKeepsOwned(s, w, k, a);
    ThreadKeepsRows(s, w, k, a);
    ThreadKeepsRecorded(s, w, k, a);
    ThreadKeepsRest(c, s, w, k, a);
  }

  // ---------------------------------------------------------------- reaper

  lemma ReaperKeepsOwned(c: Config, s: State, a: ReaperAct)
    requires c.Sane() && Owned(s) && Beats(c, s) && ReaperEnabled(s, a)
    ensures Owned(ReaperApply(c, s, a))
  {
    match a
    case Find =>
      forall w | w in ReaperService.StaleWorkers(s.db, s.now - c.timing.threshold)
        ensures w in s.procs && s.procs[w].phase.Crashed?
      {
        FoundMeansCrashed(c, s, w);
      }
      ReaperFindKeepsOwned(c, s);
    case Recover(w) => RecoverKeepsOwned(s, w);
    case Mark => MarkKeepsOwned(s);
    case Stop => IdleKeepsOwned(s, ReaperApply(c, s, a));
  }

  lemma ReaperKeepsRecorded(c: Config, s: State, a: ReaperAct)
    requires Rows(s) && Recorded(s) && ReaperEnabled(s, a)
    ensures Rows(ReaperApply(c, s, a)) && Recorded(ReaperApply(c, s, a))
  {
    if a.Recover? {
      RecoverKeepsRows(s, a.w);
      RecoverKeepsRecorded(s, a.w);
    } else {
      StillKeepsRecorded(s, ReaperApply(c, s, a));
    }
  }

  lemma ReaperKeepsRest(c: Config, s: State, a: ReaperAct)
    requires Slots(c, s) && Beats(c, s) && ReaperEnabled(s, a)
    ensures Slots(c, ReaperApply(c, s, a)) && Beats(c, ReaperApply(c, s, a))
  {
    SameClocksKeepBeats(c, s, ReaperApply(c, s, a));
  }

  lemma ReaperKeepsInv(c: Config, s: State, a: ReaperAct)
    requires c.Sane() && Inv(c, s) && ReaperEnabled(s, a)
    ensures Inv(c, ReaperApply(c, s, a))
  {
    ReaperKeepsOwned(c, s, a);
    ReaperKeepsRecorded(c, s, a);
    ReaperKeepsRest(c, s, a);
  }

  // ---------------------------------------------------------------- scheduler and clock

  lemma PromoteKeepsInv(c: Config, s: State, batch: set<JobId>, size: int)
    requires Inv(c, s) && CanPromote(s, batch, size)
    ensures Inv(c, DoPromote(s, batch))
  {
    DueAreScheduled(s, batch, size);
    BatchIsDue(s, batch, size);
    PromoteKeepsOwned(s, batch);
    PromoteKeepsRows(s, batch);
    PromoteKeepsRecorded(s, batch);
    SameClocksKeepBeats(c, s, DoPromote(s, batch));
  }

  /** All that firing a template depends on. */
  predicate Firable(s: State, t: JobId, child: JobId, next: Time, at: Time) {
    && t in s.db.jobs && s.db.jobs[t].status == Scheduled && s.db.jobs[t].cron.Some?
    && child !in s.hist && at <= s.now && at < next
    && (s.db.jobs[t].scheduledAt.None? || SchedulerService.Fires(s.db.jobs[t], at))
  }

  lemma FireKeepsRest(c: Config, s: State, t: JobId, child: JobId, next: Time, at: Time)
    requires Slots(c, s) && Beats(c, s) && Firable(s, t, child, next, at)
    ensures Slots(c, DoCron(s, t, child, next, at)) && Beats(c, DoCron(s, t, child, next, at))
  {
    SameClocksKeepBeats(c, s, DoCron(s, t, child, next, at));
  }

  lemma FireKeepsInv(c: Config, s: State, t: JobId, child: JobId, next: Time, at: Time)
    requires Inv(c, s) && Firable(s, t, child, next, at)
    ensures Inv(c, DoCron(s, t, child, next, at))
  {
    CronKeepsOwned(s, t, child, next, at);
    CronKeepsRows(s, t, child, next, at);
    CronKeepsRecorded(s, t, child, next, at);
    FireKeepsRest(c, s, t, child, next, at);
  }

  lemma PassKeepsInv(c: Config, s: State, until: Time)
    requires c.Sane() && Inv(c, s) && CanPass(c, s, until)
    ensures Inv(c, s.(now := until))
  {
    IdleKeepsOwned(s, s.(now := until));
    PassKeepsRows(s, until);
    StillKeepsRecorded(s, s.(now := until));
    PassKeepsBeats(c, s, until);
  }

  // ---------------------------------------------------------------- every run

  lemma StepKeepsInv(c: Config, s: State, a: Step)
    requires c.Sane() && Inv(c, s) && Enabled(c, s, a)
    ensures Inv(c, Apply(c, s, a))
  {
    match a
    case ByClient(act) => ClientKeepsInv(c, s, act);
    case ByWorker(w, act) => WorkerKeepsInv(c, s, w, act);
    case ByThread(w, k, act) => ThreadKeepsInv(c, s, w, k, act);
    case ByReaper(act) => ReaperKeepsInv(c, s, act);
    case ByScheduler(Promote(batch, size)) => PromoteKeepsInv(c, s, batch, size);
    case ByScheduler(Fire(t, child, next, at)) => FireKeepsInv(c, s, t, child, next, at);
    case Pass(until) => PassKeepsInv(c, s, until);
  }

  lemma {:induction false} RunsKeepInv(c: Config, s: State, run: seq<Step>)
    requires c.Sane() && Inv(c, s) && ValidRun(c, s, run)
    ensures Inv(c, Final(c, s, run))
    decreases |run|
  {
    if run != [] {
      StepKeepsInv(c, s, run[0]);
      RunsKeepInv(c, Apply(c, s, run[0]), run[1..]);
    }
  }

  /** `s` is a state some run of the system reaches. */
  ghost predicate Reachable(c: Config, s: State) {
    exists run :: ValidRun(c, INITIAL, run) && Final(c, INITIAL, run) == s
  }

  lemma ReachableInv(c: Config, s: State)
    requires c.Sane() && Reachable(c, s)
    ensures Inv(c, s)
  {
    var run :| ValidRun(c, INITIAL, run) && Final(c, INITIAL, run) == s;
    RunsKeepInv(c, INITIAL, run);
  }

  lemma InitialIsReachable(c: Config)
    ensures Reachable(c, INITIAL)
  {
    assert ValidRun(c, INITIAL, []) && Final(c, INITIAL, []) == INITIAL;
  }

  lemma StepStaysReachable(c: Config, s: State, a: Step)
    requires Reachable(c, s) && Enabled(c, s, a)
    ensures Reachable(c, Apply(c, s, a))
  {
    var run :| ValidRun(c, INITIAL, run) && Final(c, INITIAL, run) == s;
    RunExtends(c, INITIAL, run, a);
  }
}
