/**
 Editing a queue while its jobs are under way: what such edits can and cannot change.
 Only `max_retries` is copied into a job's row (app/services/job_service.py); the strategy and
 the delays are read from the queue at every failure (app/services/retry_service.py).
 */
module PolicyIndependence {
  import opened Model
  import opened Protocol
  import opened Ownership
  import opened Records
  import opened System
  import opened Transitions
  import DlqService
  import JobService
  import QueueService
  import ReaperService
  import RetryService
  import SchedulerService

  // ---------------------------------------------------------------- what there is to know about a job

  /** A row without its instants and its references to other jobs. */
  function Plain(job: Job): Job {
    job.(createdAt := 0, scheduledAt := if job.scheduledAt.Some? then Some(0) else None,
         parent := None, dependsOn := None)
  }

  /** An unfinished future of some worker. */
  datatype Hold = Hold(w: WorkerId, k: Future, pc: Pc)

  /** Everything about one job but when things happen: row, letter, attempts, and whose hands it is in. */
  datatype View = View(
    row: Option<Job>,
    letter: Option<Payload>,
    execs: map<ExecId, Execution>,
    claims: Option<nat>,
    holds: set<Hold>)

  function Holds(s: State, j: JobId): set<Hold> {
    set w, k | w in s.procs && k in s.procs[w].futures && k.job == j && s.procs[w].futures[k] != Done ::
      Hold(w, k, s.procs[w].futures[k])
  }

  function ViewOf(s: State, j: JobId): View {
    View(if j in s.db.jobs then Some(Plain(s.db.jobs[j])) else None,
         if j in s.db.dlq then Some(s.db.dlq[j]) else None,
         map e | e in s.db.execs && s.db.execs[e].job == j :: s.db.execs[e],
         if j in s.hist then Some(s.hist[j].claims) else None,
         Holds(s, j))
  }

  // ---------------------------------------------------------------- what can happen to a job

  /** No event carries a policy, a delay or an instant. `Born` carries the row, with its own limit. */
  datatype Event =
    | Born(row: Job)
    | Deleted
    | Replayed
    | Claimed(w: WorkerId)
    | Lost(w: WorkerId)
    | Begun(w: WorkerId, k: Future, e: ExecId)
    | Finished(w: WorkerId, k: Future, e: ExecId)
    | Failed(w: WorkerId, k: Future, e: ExecId)
    | Decided(w: WorkerId, k: Future)
    | Reaped
    | Promoted
    | Fired

  function ClientEvent(s: State, a: ClientAct, j: JobId): Option<Event> {
    match a
    case Create(i, q, data, key) =>
      if i == j && q in s.db.queues then Some(Born(Plain(JobService.NewRow(q, s.db.queues[q], data, key, s.now))))
      else None
    case Replay(dead, clone) =>
      if clone == j && dead in s.db.jobs && dead in s.db.dlq then Some(Born(Plain(DlqService.Clone(s.db, dead, s.now))))
      else if dead == j then Some(Replayed)
      else None
    case SetQueue(_, _) => None
    case DeleteQueue(q) => if j in QueueService.JobsOf(s.db, q) then Some(Deleted) else None
  }

  function WorkerEvent(s: State, w: WorkerId, a: WorkerAct, j: JobId): Option<Event> {
    if a.ClaimCommit? && w in s.procs && j in s.procs[w].locks then Some(Event.Claimed(w))
    else if a.Crash? && (exists h :: h in Holds(s, j) && h.w == w) then Some(Lost(w))
    else None
  }

  function ThreadEvent(s: State, w: WorkerId, k: Future, a: ThreadAct, j: JobId): Option<Event> {
    if k.job != j || w !in s.procs || k !in s.procs[w].futures then None
    else if a.Start? then Some(Begun(w, k, a.e))
    else if a.Retry? then Some(Decided(w, k))
    else if !s.procs[w].futures[k].Executing? then None
    else if a.Finish? then Some(Finished(w, k, s.procs[w].futures[k].e))
    else Some(Event.Failed(w, k, s.procs[w].futures[k].e))
  }

  function ReaperEvent(s: State, a: ReaperAct, j: JobId): Option<Event> {
    if a.Recover? && j in s.db.jobs && ReaperService.Orphan(s.db.jobs[j], a.w) then Some(Reaped) else None
  }

  function SchedulerEvent(s: State, a: SchedulerAct, j: JobId): Option<Event> {
    match a
    case Promote(batch, _) => if j in batch then Some(Promoted) else None
    case Fire(t, child, _, at) =>
      if t == j then Some(Fired)
      else if child == j && t in s.db.jobs && s.db.jobs[t].scheduledAt.Some?
      then Some(Born(Plain(SchedulerService.Child(t, s.db.jobs[t], at))))
      else None
  }

  /**
   What a step does to `j`. Edits of queues, polls, heartbeats, limits read, locks taken, cleaned
   futures, workers coming and going without the job, the passing of time and whatever happens to
   other jobs are nothing to it.
   */
  function EventOf(s: State, a: Step, j: JobId): Option<Event> {
    match a
    case ByClient(act) => ClientEvent(s, act, j)
    case ByWorker(w, act) => WorkerEvent(s, w, act, j)
    case ByThread(w, k, act) => ThreadEvent(s, w, k, act, j)
    case ByReaper(act) => ReaperEvent(s, act, j)
    case ByScheduler(act) => SchedulerEvent(s, act, j)
    case Pass(_) => None
  }

  // ---------------------------------------------------------------- what an event does to a job

  function Row(v: View, row: Job): View {
    v.(row := Some(row))
  }

  /** The future moves on, or is finished. */
  function Handed(v: View, w: WorkerId, k: Future, pc: Pc): View {
    v.(holds := (set h | h in v.holds && !(h.w == w && h.k == k)) + (if pc == Done then {} else {Hold(w, k, pc)}))
  }

  /** The retry decision: the job's own counter against its own limit. */
  function Settled(v: View, row: Job): View {
    if row.retryCount >= row.maxRetries then Row(v, row.(status := Dead)).(letter := Some(row.payload))
    else Row(v, row.(status := Scheduled, scheduledAt := Some(0)))
  }

  function Recorded(v: View, e: ExecId, status: ExecStatus): View {
    if e in v.execs then v.(execs := v.execs[e := v.execs[e].(status := status)]) else v
  }

  function After(v: View, j: JobId, ev: Event): View {
    if ev.Born? then v.(row := Some(ev.row), claims := Some(0))
    else if ev.Deleted? then v.(row := None, letter := None, execs := map[])
    else if ev.Replayed? then v.(letter := None)
    else if ev.Lost? then v.(holds := set h | h in v.holds && h.w != ev.w)
    else if v.row.None? then v
    else AfterRow(v, j, v.row.value, ev)
  }

  function AfterRow(v: View, j: JobId, row: Job, ev: Event): View {
    match ev
    case Claimed(w) =>
      var n := if v.claims.Some? then v.claims.value + 1 else 1;
      Handed(Row(v, row.(status := Status.Claimed, worker := Some(w))).(claims := Some(n)), w, Future(j, n), Dispatched)
    case Begun(w, k, e) =>
      Handed(Row(v, row.(status := Running)).(execs := v.execs[e := Execution(j, w, ExecRunning)]), w, k, Executing(e))
    case Finished(w, k, e) => Handed(Recorded(Row(v, row.(status := Completed)), e, ExecCompleted), w, k, Done)
    case Failed(w, k, e) =>
      Handed(Recorded(Row(v, row.(retryCount := row.retryCount + 1)), e, ExecFailed), w, k, FailureRecorded(e))
    case Decided(w, k) => Handed(Settled(v, row), w, k, Done)
    case Reaped => Row(v, row.(status := Queued, retryCount := row.retryCount + 1, worker := None))
    case Promoted => Row(v, row.(status := Queued, scheduledAt := None))
    case Fired => Row(v, row.(scheduledAt := Some(0)))
    case _ => v
  }

  function AfterAny(v: View, j: JobId, ev: Option<Event>): View {
    if ev.Some? then After(v, j, ev.value) else v
  }

  // ---------------------------------------------------------------- clients

  lemma ClientActs(c: Config, s: State, a: ClientAct, j: JobId)
    requires s.db.jobs.Keys <= s.hist.Keys && ClientEnabled(c, s, a)
    ensures ViewOf(ClientApply(c, s, a), j) == AfterAny(ViewOf(s, j), j, ClientEvent(s, a, j))
  {
    var t := ClientApply(c, s, a);
    SameProcsSameHolds(s, t, j);
    assert a.DeleteQueue? && j in QueueService.JobsOf(s.db, a.q) ==> ViewOf(t, j).execs == map[];
  }

  lemma SameProcsSameHolds(s: State, t: State, j: JobId)
    requires t.procs == s.procs
    ensures Holds(t, j) == Holds(s, j)
  {
  }

  // ---------------------------------------------------------------- workers

  lemma ClaimActs(s: State, w: WorkerId, j: JobId)
    requires Owned(s) && CanClaimCommit(s, w)
    ensures ViewOf(DoClaimCommit(s, w), j) == AfterAny(ViewOf(s, j), j, WorkerEvent(s, w, ClaimCommit, j))
  {
    ClaimTakesLocks(s, w);
    ClaimMovesHolds(s, w, j);
    ClaimMovesView(s, w, j);
  }

  lemma ClaimMovesView(s: State, w: WorkerId, j: JobId)
    requires CanClaimCommit(s, w) && s.procs[w].locks <= s.db.jobs.Keys && ClaimHolds(s, w, j)
    ensures ViewOf(DoClaimCommit(s, w), j) == AfterAny(ViewOf(s, j), j, WorkerEvent(s, w, ClaimCommit, j))
  {
    ClaimWritesRow(s, w, j);
  }

  lemma ClaimWritesRow(s: State, w: WorkerId, j: JobId)
    requires CanClaimCommit(s, w) && s.procs[w].locks <= s.db.jobs.Keys
    ensures var v, u := ViewOf(s, j), ViewOf(DoClaimCommit(s, w), j);
            && u.letter == v.letter && u.execs == v.execs
            && (j !in s.procs[w].locks ==> u.row == v.row && u.claims == v.claims)
            && (j in s.procs[w].locks ==>
                  && v.row.Some? && u.row == Some(v.row.value.(status := Status.Claimed, worker := Some(w)))
                  && v.claims == Some(s.hist[j].claims) && u.claims == Some(s.hist[j].claims + 1))
  {
    assert ViewOf(DoClaimCommit(s, w), j).execs == ViewOf(s, j).execs;
  }

  /** A claimed job gets one more future, and it is one its worker has not had. */
  predicate ClaimHolds(s: State, w: WorkerId, j: JobId)
    requires CanClaimCommit(s, w)
  {
    if j in s.procs[w].locks then
      var k := Future(j, s.hist[j].claims + 1);
      && Holds(DoClaimCommit(s, w), j) == Holds(s, j) + {Hold(w, k, Dispatched)}
      && (forall h :: h in Holds(s, j) ==> !(h.w == w && h.k == k))
    else Holds(DoClaimCommit(s, w), j) == Holds(s, j)
  }

  lemma ClaimMovesHolds(s: State, w: WorkerId, j: JobId)
    requires Owned(s) && CanClaimCommit(s, w)
    ensures ClaimHolds(s, w, j)
  {
    var t, p := DoClaimCommit(s, w), s.procs[w];
    var batch := Batch(s, p.locks);
    forall h | h in Holds(s, j) ensures h.k !in batch {
      assert FutureOk(s, h.w, h.k);
    }
    forall k | k in batch && k.job == j ensures j in p.locks && k == Future(j, s.hist[j].claims + 1) {
    }
    forall h | h in Holds(s, j) ensures h in Holds(t, j) {
      assert h.k in t.procs[h.w].futures;
    }
    forall h | h in Holds(t, j) ensures h in Holds(s, j) || (h.w == w && h.k in batch && h.pc == Dispatched) {
    }
    if j in p.locks {
      var k := Future(j, s.hist[j].claims + 1);
      assert k in batch && t.procs[w].futures[k] == Dispatched;
      assert Hold(w, k, Dispatched) in Holds(t, j);
    }
  }

  lemma MainThreadActs(c: Config, s: State, w: WorkerId, a: WorkerAct, j: JobId)
    requires Owned(s) && WorkerEnabled(c, s, w, a) && !a.ClaimCommit?
    ensures ViewOf(WorkerApply(c, s, w, a), j) == AfterAny(ViewOf(s, j), j, WorkerEvent(s, w, a, j))
  {
    var t := WorkerApply(c, s, w, a);
    WorkerLeavesJobsAlone(c, s, w, a);
    MainThreadMovesHolds(c, s, w, a, j);
  }

  lemma MainThreadMovesHolds(c: Config, s: State, w: WorkerId, a: WorkerAct, j: JobId)
    requires WorkerEnabled(c, s, w, a) && !a.ClaimCommit?
    ensures Holds(WorkerApply(c, s, w, a), j)
            == if a.Crash? then (set h | h in Holds(s, j) && h.w != w) else Holds(s, j)
  {
    var t := WorkerApply(c, s, w, a);
    WorkerEffect(c, s, w, a);
    forall h | h in Holds(t, j) ensures h in Holds(s, j) && (a.Crash? ==> h.w != w) {
    }
    forall h | h in Holds(s, j) && (a.Crash? ==> h.w != w) ensures h in Holds(t, j) {
      assert h.k in t.procs[h.w].futures;
    }
  }

  /** What a main thread's step other than a claiming commit does to its own futures. */
  lemma WorkerEffect(c: Config, s: State, w: WorkerId, a: WorkerAct)
    requires WorkerEnabled(c, s, w, a) && !a.ClaimCommit?
    ensures var t := WorkerApply(c, s, w, a);
            && w in t.procs && t.procs == s.procs[w := t.procs[w]]
            && (a.Register? ==> w !in s.procs)
            && (a.Register? || a.Crash? ==> t.procs[w].futures == map[])
            && (!a.Register? && !a.Crash? ==>
                  && w in s.procs
                  && (forall k :: k in t.procs[w].futures ==>
                        k in s.procs[w].futures && t.procs[w].futures[k] == s.procs[w].futures[k])
                  && (forall k :: k in s.procs[w].futures && s.procs[w].futures[k] != Done ==> k in t.procs[w].futures))
  {
  }

  // ---------------------------------------------------------------- run_job

  /** The heart of the matter: retry or burial looks at the job's own row only. */
  lemma BurialLooksAtTheRowOnly(db: Db, j: JobId, draw: real, now: Time)
    requires j in db.jobs
    ensures var job, db' := db.jobs[j], RetryService.Retried(db, j, draw, now);
            if job.retryCount >= job.maxRetries
            then db' == DlqService.Buried(db, j)
            else exists at :: db' == db.(jobs := db.jobs[j := job.(status := Scheduled, scheduledAt := Some(at))])
  {
    var job := db.jobs[j];
    var delay := RetryService.CalculateRetryDelay(job.retryCount, RetryService.EffectivePolicy(db, job), draw);
    if delay.Some? {
      var at := now + delay.value * SECOND;
      assert RetryService.Retried(db, j, draw, now)
             == db.(jobs := db.jobs[j := job.(status := Scheduled, scheduledAt := Some(at))]);
    }
  }

  /** A commit of `run_job` moves its own future. */
  lemma AdvanceMovesHolds(s: State, w: WorkerId, k: Future, db: Db, h: Hist, pc: Pc, j: JobId)
    requires w in s.procs && k in s.procs[w].futures
    ensures var t := Advance(s, w, k, db, h, pc);
            Holds(t, j) == if k.job != j then Holds(s, j)
                           else (set x | x in Holds(s, j) && !(x.w == w && x.k == k))
                                + (if pc == Done then {} else {Hold(w, k, pc)})
  {
    var t := Advance(s, w, k, db, h, pc);
    var moved := (set x | x in Holds(s, j) && !(x.w == w && x.k == k)) + (if pc == Done then {} else {Hold(w, k, pc)});
    forall x | x in Holds(t, j) ensures if k.job != j then x in Holds(s, j) else x in moved {
    }
    forall x | x in Holds(s, j) && (k.job == j ==> !(x.w == w && x.k == k)) ensures x in Holds(t, j) {
      assert x.k in t.procs[x.w].futures;
    }
    if k.job == j && pc != Done {
      assert k in t.procs[w].futures && t.procs[w].futures[k] == pc;
    }
  }

  /** The rows of one job: its own, its letter and its executions. */
  predicate SameRows(s: State, t: State, j: JobId) {
    && (j in s.db.jobs <==> j in t.db.jobs) && (j in s.db.jobs ==> t.db.jobs[j] == s.db.jobs[j])
    && (j in s.db.dlq <==> j in t.db.dlq) && (j in s.db.dlq ==> t.db.dlq[j] == s.db.dlq[j])
    && ViewOf(t, j).execs == ViewOf(s, j).execs
    && (j in s.hist <==> j in t.hist) && (j in s.hist ==> t.hist[j].claims == s.hist[j].claims)
  }

  lemma OtherThreads(s: State, w: WorkerId, k: Future, a: ThreadAct, j: JobId)
    requires Executions(s) && ThreadEnabled(s, w, k, a) && k.job != j
    ensures SameRows(s, ThreadApply(s, w, k, a), j)
  {
    assert (a.Finish? || a.Fail?) ==> ThreadOk(s, w, k);
    OtherExecs(s, w, k, a, j);
  }

  lemma OtherExecs(s: State, w: WorkerId, k: Future, a: ThreadAct, j: JobId)
    requires ThreadEnabled(s, w, k, a) && k.job != j
    requires a.Finish? || a.Fail? ==> s.db.execs[s.procs[w].futures[k].e].job == k.job
    ensures ViewOf(ThreadApply(s, w, k, a), j).execs == ViewOf(s, j).execs
  {
    var t := ThreadApply(s, w, k, a);
    forall e | e in t.db.execs && t.db.execs[e].job == j ensures e in s.db.execs && s.db.execs[e] == t.db.execs[e] {
    }
    forall e | e in s.db.execs && s.db.execs[e].job == j ensures e in t.db.execs && t.db.execs[e] == s.db.execs[e] {
    }
  }

  lemma StartActs(s: State, w: WorkerId, k: Future, e: ExecId)
    requires CanStart(s, w, k, e)
    ensures ViewOf(DoStart(s, w, k, e), k.job) == After(ViewOf(s, k.job), k.job, Begun(w, k, e))
  {
    var t, v := DoStart(s, w, k, e), ViewOf(s, k.job);
    AdvanceMovesHolds(s, w, k, t.db, t.hist[k.job], Executing(e), k.job);
    assert ViewOf(t, k.job).execs == v.execs[e := Execution(k.job, w, ExecRunning)];
  }

  lemma FinishActs(s: State, w: WorkerId, k: Future)
    requires CanFinish(s, w, k) && s.db.execs[s.procs[w].futures[k].e].job == k.job
    ensures ViewOf(DoFinish(s, w, k), k.job)
            == After(ViewOf(s, k.job), k.job, Finished(w, k, s.procs[w].futures[k].e))
  {
    var e, v, t := s.procs[w].futures[k].e, ViewOf(s, k.job), DoFinish(s, w, k);
    AdvanceMovesHolds(s, w, k, t.db, t.hist[k.job], Done, k.job);
    assert ViewOf(t, k.job).execs == v.execs[e := v.execs[e].(status := ExecCompleted)];
  }

  lemma FailActs(s: State, w: WorkerId, k: Future)
    requires CanFinish(s, w, k) && s.db.execs[s.procs[w].futures[k].e].job == k.job
    ensures ViewOf(DoFail(s, w, k), k.job)
            == After(ViewOf(s, k.job), k.job, Event.Failed(w, k, s.procs[w].futures[k].e))
  {
    var e, v, t := s.procs[w].futures[k].e, ViewOf(s, k.job), DoFail(s, w, k);
    AdvanceMovesHolds(s, w, k, t.db, t.hist[k.job], FailureRecorded(e), k.job);
    assert ViewOf(t, k.job).execs == v.execs[e := v.execs[e].(status := ExecFailed)];
  }

  /** Whatever the draw, the policy and the clock. */
  lemma RetryActs(s: State, w: WorkerId, k: Future, draw: real)
    requires CanRetry(s, w, k, draw)
    ensures ViewOf(DoRetry(s, w, k, draw), k.job) == After(ViewOf(s, k.job), k.job, Decided(w, k))
  {
    var t := DoRetry(s, w, k, draw);
    BurialLooksAtTheRowOnly(s.db, k.job, draw, s.now);
    AdvanceMovesHolds(s, w, k, t.db, t.hist[k.job], Done, k.job);
  }

  lemma ThreadActs(s: State, w: WorkerId, k: Future, a: ThreadAct, j: JobId)
    requires FuturesOk(s) && Executions(s) && ThreadEnabled(s, w, k, a)
    ensures ViewOf(ThreadApply(s, w, k, a), j) == AfterAny(ViewOf(s, j), j, ThreadEvent(s, w, k, a, j))
  {
    if k.job != j {
      OtherThreads(s, w, k, a, j);
      OtherHolds(s, w, k, a, j);
    } else if a.Start? {
      StartActs(s, w, k, a.e);
    } else if a.Retry? {
      RetryActs(s, w, k, a.draw);
    } else {
      assert ThreadOk(s, w, k);
      FinishActs(s, w, k);
      FailActs(s, w, k);
    }
  }

  lemma OtherHolds(s: State, w: WorkerId, k: Future, a: ThreadAct, j: JobId)
    requires ThreadEnabled(s, w, k, a) && k.job != j
    ensures Holds(ThreadApply(s, w, k, a), j) == Holds(s, j)
  {
    var t := ThreadApply(s, w, k, a);
    var pc := t.procs[w].futures[k];
    assert t.procs == Advance(s, w, k, t.db, t.hist[k.job], pc).procs;
    AdvanceMovesHolds(s, w, k, t.db, t.hist[k.job], pc, j);
  }

  // ---------------------------------------------------------------- reaper and scheduler

  lemma ReaperActs(c: Config, s: State, a: ReaperAct, j: JobId)
    requires ReaperEnabled(s, a)
    ensures ViewOf(ReaperApply(c, s, a), j) == AfterAny(ViewOf(s, j), j, ReaperEvent(s, a, j))
  {
    var t := ReaperApply(c, s, a);
    SameProcsSameHolds(s, t, j);
    assert t.db.execs == s.db.execs;
  }

  lemma PromoteActs(s: State, batch: set<JobId>, size: int, j: JobId)
    requires s.db.jobs.Keys <= s.hist.Keys && CanPromote(s, batch, size)
    ensures ViewOf(DoPromote(s, batch), j) == if j in batch then After(ViewOf(s, j), j, Promoted) else ViewOf(s, j)
  {
    var t := DoPromote(s, batch);
    SameProcsSameHolds(s, t, j);
    assert ViewOf(t, j).execs == ViewOf(s, j).execs;
  }

  lemma FireActs(c: Config, s: State, t: JobId, child: JobId, next: Time, at: Time, j: JobId)
    requires s.db.jobs.Keys <= s.hist.Keys && CanCron(c, s, t, child, next, at)
    ensures ViewOf(DoCron(s, t, child, next, at), j)
            == AfterAny(ViewOf(s, j), j, SchedulerEvent(s, Fire(t, child, next, at), j))
  {
    var u := DoCron(s, t, child, next, at);
    SameProcsSameHolds(s, u, j);
    assert ViewOf(u, j).execs == ViewOf(s, j).execs;
  }

  lemma SchedulerActs(c: Config, s: State, a: SchedulerAct, j: JobId)
    requires s.db.jobs.Keys <= s.hist.Keys && SchedulerEnabled(c, s, a)
    ensures ViewOf(SchedulerApply(c, s, a), j) == AfterAny(ViewOf(s, j), j, SchedulerEvent(s, a, j))
  {
    match a
    case Promote(batch, size) => PromoteActs(s, batch, size, j);
    case Fire(t, child, next, at) => FireActs(c, s, t, child, next, at, j);
  }

  // ---------------------------------------------------------------- whole runs

  /** A step does to the view of a job what its event says, and nothing else. */
  lemma StepActs(c: Config, s: State, a: Step, j: JobId)
    requires Inv(c, s) && Enabled(c, s, a)
    ensures ViewOf(Apply(c, s, a), j) == AfterAny(ViewOf(s, j), j, EventOf(s, a, j))
  {
    match a
    case ByClient(act) => ClientActs(c, s, act, j);
    case ByWorker(w, act) =>
      if act.ClaimCommit? {
        ClaimActs(s, w, j);
      } else {
        MainThreadActs(c, s, w, act, j);
      }
    case ByThread(w, k, act) => ThreadActs(s, w, k, act, j);
    case ByReaper(act) => ReaperActs(c, s, act, j);
    case ByScheduler(act) => SchedulerActs(c, s, act, j);
    case Pass(_) => SameProcsSameHolds(s, Apply(c, s, a), j);
  }

  /** What happened to `j` in a run, in order. */
  ghost function Events(c: Config, s: State, run: seq<Step>, j: JobId): seq<Event>
    requires ValidRun(c, s, run)
    decreases |run|
  {
    if run == [] then []
    else
      var ev := EventOf(s, run[0], j);
      (if ev.Some? then [ev.value] else []) + Events(c, Apply(c, s, run[0]), run[1..], j)
  }

  function AfterAll(v: View, j: JobId, events: seq<Event>): View
    decreases |events|
  {
    if events == [] then v else AfterAll(After(v, j, events[0]), j, events[1..])
  }

  /** Where a job stands after a run is a function of what happened to it. */
  lemma {:induction false} RunActs(c: Config, s: State, run: seq<Step>, j: JobId)
    requires c.Sane() && Inv(c, s) && ValidRun(c, s, run)
    ensures ViewOf(Final(c, s, run), j) == AfterAll(ViewOf(s, j), j, Events(c, s, run, j))
    decreases |run|
  {
    if run != [] {
      var t, ev, rest := Apply(c, s, run[0]), EventOf(s, run[0], j), Events(c, Apply(c, s, run[0]), run[1..], j);
      StepActs(c, s, run[0], j);
      StepKeepsInv(c, s, run[0]);
      RunActs(c, t, run[1..], j);
      if ev.Some? {
        assert ([ev.value] + rest)[1..] == rest;
      } else {
        assert [] + rest == rest;
      }
    }
  }

  /**
   Two runs of any lengths, under any edits of queues, with any draws, timing, polls, sweeps and
   restarts, and whatever happens to other jobs: if the same things happen to a job in the same
   order, it ends with the same status, counter, owner, attempts and letter. In particular it is
   buried at the same failure.
   */
  lemma QueueEditsNeverChangeOutcomes(c: Config, s: State, t: State, a: seq<Step>, b: seq<Step>, j: JobId)
    requires c.Sane() && Reachable(c, s) && Reachable(c, t) && ValidRun(c, s, a) && ValidRun(c, t, b)
    requires ViewOf(s, j) == ViewOf(t, j) && Events(c, s, a, j) == Events(c, t, b, j)
    ensures ViewOf(Final(c, s, a), j) == ViewOf(Final(c, t, b), j)
    ensures var x, y := Final(c, s, a).db, Final(c, t, b).db;
            && (j in x.jobs <==> j in y.jobs) && (j in x.dlq <==> j in y.dlq)
            && (j in x.jobs ==>
                  && x.jobs[j].status == y.jobs[j].status && x.jobs[j].retryCount == y.jobs[j].retryCount
                  && x.jobs[j].worker == y.jobs[j].worker && x.jobs[j].maxRetries == y.jobs[j].maxRetries)
            && (j in x.dlq ==> x.dlq[j] == y.dlq[j])
  {
    ReachableInv(c, s);
    ReachableInv(c, t);
    RunActs(c, s, a, j);
    RunActs(c, t, b, j);
    SameViewSameOutcome(Final(c, s, a), Final(c, t, b), j);
  }

  lemma SameViewSameOutcome(s: State, t: State, j: JobId)
    requires ViewOf(s, j) == ViewOf(t, j)
    ensures (j in s.db.jobs <==> j in t.db.jobs) && (j in s.db.dlq <==> j in t.db.dlq)
    ensures j in s.db.jobs ==>
              && s.db.jobs[j].status == t.db.jobs[j].status && s.db.jobs[j].retryCount == t.db.jobs[j].retryCount
              && s.db.jobs[j].worker == t.db.jobs[j].worker && s.db.jobs[j].maxRetries == t.db.jobs[j].maxRetries
    ensures j in s.db.dlq ==> s.db.dlq[j] == t.db.dlq[j]
  {
    if j in s.db.jobs {
      assert Plain(s.db.jobs[j]) == Plain(t.db.jobs[j]);
    }
  }

  /** A failed job with retries left may be put off until `at`. */
  ghost predicate MayResumeAt(db: Db, j: JobId, now: Time, at: Time)
    requires j in db.jobs
  {
    exists draw :: RetryService.Allowed(RetryService.EffectivePolicy(db, db.jobs[j]), db.jobs[j].retryCount, draw)
                   && RetryService.Retried(db, j, draw, now).jobs[j].scheduledAt == Some(at)
  }

  /** The instants are those of the delays the policy in force allows. */
  lemma ResumesAfterDelay(db: Db, j: JobId, now: Time, d: int)
    requires j in db.jobs && db.jobs[j].retryCount < db.jobs[j].maxRetries
    ensures MayResumeAt(db, j, now, now + d * SECOND) <==>
              RetryService.MayWait(RetryService.EffectivePolicy(db, db.jobs[j]), db.jobs[j].retryCount, d)
  {
    var p, n := RetryService.EffectivePolicy(db, db.jobs[j]), db.jobs[j].retryCount;
    if MayResumeAt(db, j, now, now + d * SECOND) {
      var draw :| RetryService.Allowed(p, n, draw)
                  && RetryService.Retried(db, j, draw, now).jobs[j].scheduledAt == Some(now + d * SECOND);
      ScheduledByDelay(db, j, draw, now);
    }
    if RetryService.MayWait(p, n, d) {
      var draw :| RetryService.Allowed(p, n, draw) && RetryService.CalculateRetryDelay(n, p, draw) == Some(d);
      ScheduledByDelay(db, j, draw, now);
    }
  }

  /** A retry is scheduled at its delay from now. */
  lemma ScheduledByDelay(db: Db, j: JobId, draw: real, now: Time)
    requires j in db.jobs && db.jobs[j].retryCount < db.jobs[j].maxRetries
    ensures var delay := RetryService.CalculateRetryDelay(db.jobs[j].retryCount,
                                                          RetryService.EffectivePolicy(db, db.jobs[j]), draw);
            delay.Some? &&
            RetryService.Retried(db, j, draw, now).jobs[j].scheduledAt == Some(now + delay.value * SECOND)
  {
  }

  lemma ResumesOnWholeSeconds(db: Db, j: JobId, now: Time, at: Time) returns (d: int)
    requires j in db.jobs && db.jobs[j].retryCount < db.jobs[j].maxRetries && MayResumeAt(db, j, now, at)
    ensures at == now + d * SECOND
  {
    var p, n := RetryService.EffectivePolicy(db, db.jobs[j]), db.jobs[j].retryCount;
    var draw :| RetryService.Allowed(p, n, draw)
                && RetryService.Retried(db, j, draw, now).jobs[j].scheduledAt == Some(at);
    d := RetryService.CalculateRetryDelay(n, p, draw).value;
  }

  /** An edit leaves open the same instants for the job's next attempt. */
  ghost predicate KeepsInstants(db: Db, edited: Db, j: JobId, now: Time)
    requires j in db.jobs && j in edited.jobs
  {
    forall at :: MayResumeAt(db, j, now, at) <==> MayResumeAt(edited, j, now, at)
  }

  lemma InstantsAreDelays(db: Db, edited: Db, j: JobId, now: Time)
    requires j in db.jobs && edited.jobs == db.jobs && db.jobs[j].retryCount < db.jobs[j].maxRetries
    ensures KeepsInstants(db, edited, j, now) <==>
              RetryService.SameDelays(RetryService.EffectivePolicy(db, db.jobs[j]),
                                      RetryService.EffectivePolicy(edited, db.jobs[j]), db.jobs[j].retryCount)
  {
    var job := db.jobs[j];
    var a, b := RetryService.EffectivePolicy(db, job), RetryService.EffectivePolicy(edited, job);
    if KeepsInstants(db, edited, j, now) {
      forall d ensures RetryService.MayWait(a, job.retryCount, d) <==> RetryService.MayWait(b, job.retryCount, d) {
        ResumesAfterDelay(db, j, now, d);
        ResumesAfterDelay(edited, j, now, d);
        assert MayResumeAt(db, j, now, now + d * SECOND) <==> MayResumeAt(edited, j, now, now + d * SECOND);
      }
    }
    if RetryService.SameDelays(a, b, job.retryCount) {
      forall at ensures MayResumeAt(db, j, now, at) <==> MayResumeAt(edited, j, now, at) {
        if MayResumeAt(db, j, now, at) {
          var d := ResumesOnWholeSeconds(db, j, now, at);
          ResumesAfterDelay(db, j, now, d);
          ResumesAfterDelay(edited, j, now, d);
        } else if MayResumeAt(edited, j, now, at) {
          var d := ResumesOnWholeSeconds(edited, j, now, at);
          ResumesAfterDelay(db, j, now, d);
          ResumesAfterDelay(edited, j, now, d);
        }
      }
    }
  }

  /**
   What the documentation promises for the whole policy holds of an edit, for a failed job with
   retries left, exactly when the edit keeps the job's longest delay, and keeps whether it is
   drawn from unless there is nothing to draw.
   */
  lemma EditKeepsDelaysExactly(db: Db, j: JobId, q: QueueId, u: QueueService.QueueUpdate, now: Time)
    requires j in db.jobs && q in db.queues && db.jobs[j].retryCount < db.jobs[j].maxRetries
    ensures var edited, job := QueueService.Updated(db, q, u), db.jobs[j];
            var a, b := RetryService.EffectivePolicy(db, job), RetryService.EffectivePolicy(edited, job);
            KeepsInstants(db, edited, j, now) <==>
              && RetryService.Wait(a, job.retryCount) == RetryService.Wait(b, job.retryCount)
              && (RetryService.Jitters(a) == RetryService.Jitters(b) || RetryService.Wait(a, job.retryCount) == 1)
  {
    var edited, job := QueueService.Updated(db, q, u), db.jobs[j];
    InstantsAreDelays(db, edited, j, now);
    RetryService.SameDelaysExactly(RetryService.EffectivePolicy(db, job), RetryService.EffectivePolicy(edited, job),
                                   job.retryCount);
  }

  /**
   The delay itself is not protected: the same failed job waits one minute or one hour
   depending on what the queue says when it fails.
   */
  lemma DelayFollowsTheQueue(db: Db, j: JobId, draw: real, now: Time)
    requires j in db.jobs && db.jobs[j].queue in db.queues
    requires db.jobs[j].retryCount < db.jobs[j].maxRetries
    ensures var minute := Policy(Some(Fixed), Some(60.0), None, None, None, None, Some(3));
            var hour := Policy(Some(Fixed), Some(3600.0), None, None, None, None, Some(3));
            var q := db.jobs[j].queue;
            var slow := QueueService.Updated(db, q, QueueService.QueueUpdate(None, None, Some(hour), None));
            var fast := QueueService.Updated(db, q, QueueService.QueueUpdate(None, None, Some(minute), None));
            && RetryService.Retried(fast, j, draw, now).jobs[j].scheduledAt == Some(now + 60_000_000)
            && RetryService.Retried(slow, j, draw, now).jobs[j].scheduledAt == Some(now + 3_600_000_000)
  {
  }
}
