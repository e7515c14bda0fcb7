/**
 The whole system as one state machine: clients, workers, a reaper and a scheduler over one
 database. A step is one commit, one local action of a process, a crash, or the clock; it
 carries every choice the environment makes, so a run is a sequence of steps.
 */
module Protocol {
  import opened Model
  import Timing
  import ClaimService
  import DlqService
  import ExecutorService
  import HeartbeatService
  import JobService
  import Keys
  import QueueService
  import ReaperService
  import RetryService
  import SchedulerService

  /** `slots` bounds every concurrency limit; `matches` is the meaning of cron expressions. */
  datatype Config = Config(timing: Timing.Config, slots: int, matches: (CronExpr, Time) -> bool) {
    predicate Plausible() {
      timing.Sane() && slots >= DEFAULT_CONCURRENCY
    }

    /** The failure detector is slow enough for the workers' loop. */
    predicate Sane() {
      Plausible() && timing.Timely()
    }
  }

  /** A future of one worker: the `claim`-th claim of a job. */
  datatype Future = Future(job: JobId, claim: nat)

  /** How far `run_job` has come in a future's thread. */
  datatype Pc = Dispatched | Executing(e: ExecId) | FailureRecorded(e: ExecId) | Done

  /** Local memory of one worker process. */
  datatype Proc = Proc(
    queue: Option<QueueId>,
    phase: Timing.Phase,
    last: Time,
    limit: int,
    locks: set<JobId>,
    futures: map<Future, Pc>)

  /** `todo` are the workers the current cycle found; `current` has been recovered, not retired. */
  datatype Reaper = Reaper(todo: set<WorkerId>, current: Option<WorkerId>)

  datatype Source = Submitted | ReplayOf(dead: JobId) | ChildOf(template: JobId, occurrence: Time)

  /**
   What has happened to a job so far. No process reads it.
   `recorded`: a failure is committed and the retry decision is not.
   `notBefore`: the earliest instant the job was asked to run at.
   `depth`: the number of replays behind it.
   */
  datatype Hist = Hist(
    fails: nat,
    reaps: nat,
    claims: nat,
    steps: nat,
    recorded: bool,
    notBefore: Time,
    winner: Option<ExecId>,
    replayed: bool,
    source: Source,
    depth: nat)

  datatype State = State(
    db: Db,
    now: Time,
    procs: map<WorkerId, Proc>,
    reaper: Reaper,
    hist: map<JobId, Hist>)

  /** Requests that reach the API. */
  datatype ClientAct =
    | Create(j: JobId, q: QueueId, data: JobCreate, key: Option<string>)
    | Replay(dead: JobId, clone: JobId)
    | SetQueue(q: QueueId, row: Queue)
    | DeleteQueue(q: QueueId)

  /** What a worker's main thread does. */
  datatype WorkerAct =
    | Register(queue: Option<QueueId>, stamp: Time)
    | Loop(tick: Timing.Tick)
    | Clean(finished: set<Future>)
    | ReadLimit
    | ClaimLock(chosen: set<JobId>)
    | ClaimCommit
    | Deregister
    | Crash

  /** The commits of `run_job` in one future's thread. */
  datatype ThreadAct =
    | Start(e: ExecId)
    | Finish
    | Fail
    | Retry(draw: real)

  datatype ReaperAct = Find | Recover(w: WorkerId) | Mark | Stop

  datatype SchedulerAct =
    | Promote(batch: set<JobId>, size: int)
    | Fire(t: JobId, child: JobId, next: Time, at: Time)

  datatype Step =
    | ByClient(client: ClientAct)
    | ByWorker(w: WorkerId, act: WorkerAct)
    | ByThread(w: WorkerId, k: Future, thread: ThreadAct)
    | ByReaper(reap: ReaperAct)
    | ByScheduler(sched: SchedulerAct)
    | Pass(until: Time)

  // ---------------------------------------------------------------- shared helpers

  predicate Live(s: State, w: WorkerId) {
    w in s.procs && s.procs[w].phase.Alive()
  }

  /** The row locks that open claim transactions hold. */
  function Locked(procs: map<WorkerId, Proc>): set<JobId> {
    set w, j | w in procs && j in procs[w].locks :: j
  }

  /** `w`'s clock side, as the timing model sees it. */
  function Clock(s: State, w: WorkerId): Timing.Clocked
    requires w in s.procs
  {
    Timing.Clocked(s.now, if w in s.db.workers then s.db.workers[w].heartbeat else s.now,
                   s.procs[w].last, s.procs[w].phase)
  }

  function Fresh(source: Source, depth: nat, notBefore: Time): Hist {
    Hist(0, 0, 0, 0, false, notBefore, None, false, source, depth)
  }

  /** One job row, its history and its future move together. */
  function Advance(s: State, w: WorkerId, k: Future, db: Db, h: Hist, pc: Pc): State
    requires w in s.procs
  {
    var p := s.procs[w];
    s.(db := db, hist := s.hist[k.job := h], procs := s.procs[w := p.(futures := p.futures[k := pc])])
  }

  predicate At(s: State, w: WorkerId, k: Future) {
    Live(s, w) && k in s.procs[w].futures && k.job in s.db.jobs && k.job in s.hist
  }

  // ---------------------------------------------------------------- clients and queues

  /** A dependency that does not exist is refused, and so is a key that some job has. */
  predicate CanCreate(s: State, j: JobId, q: QueueId, data: JobCreate, key: Option<string>) {
    && j !in s.hist && q in s.db.queues && (data.cron.Some? ==> data.scheduledAt.None?)
    && (data.dependsOn.Some? ==> data.dependsOn.value in s.db.jobs)
    && (key.Some? ==> Keys.Owners(JobService.KeyColumn(s.db.jobs), key.value) == {})
  }

  function DoCreate(s: State, j: JobId, q: QueueId, data: JobCreate, key: Option<string>): State
    requires CanCreate(s, j, q, data, key)
  {
    var row := JobService.NewRow(q, s.db.queues[q], data, key, s.now);
    var notBefore := if data.scheduledAt.Some? then data.scheduledAt.value else s.now;
    s.(db := s.db.(jobs := s.db.jobs[j := row]),
       hist := s.hist[j := Fresh(Submitted, 0, notBefore)])
  }

  predicate CanReplay(s: State, j: JobId, clone: JobId) {
    j in s.db.dlq && j in s.db.jobs && j in s.hist && clone !in s.hist
  }

  function DoReplay(s: State, j: JobId, clone: JobId): State
    requires CanReplay(s, j, clone)
  {
    s.(db := DlqService.Replayed(s.db, j, clone, s.now),
       hist := s.hist[j := s.hist[j].(replayed := true)]
                     [clone := Fresh(ReplayOf(j), s.hist[j].depth + 1, s.now)])
  }

  predicate CanDeleteQueue(s: State, q: QueueId) {
    q in s.db.queues && QueueService.ActiveJobs(s.db, q) == {}
  }

  // ---------------------------------------------------------------- workers

  predicate CanRegister(c: Config, s: State, w: WorkerId, stamp: Time) {
    w !in s.procs && w !in s.db.workers && stamp <= s.now <= stamp + c.timing.body
  }

  function DoRegister(s: State, w: WorkerId, queue: Option<QueueId>, stamp: Time): State {
    s.(db := HeartbeatService.Registered(s.db, w, queue, stamp),
       procs := s.procs[w := Proc(queue, Timing.Startup(stamp), stamp, 0, {}, map[])])
  }

  /** The loop's own timing, up to the start of a drain; the clock itself moves only by `Pass`. */
  predicate CanLoop(c: Config, s: State, w: WorkerId, a: Timing.Tick) {
    && w in s.procs && s.procs[w].locks == {} && !a.Pass?
    && Timing.Enabled(c.timing, Clock(s, w), a)
    && (a.SendBeat? ==> !HeartbeatService.Decommissioned(s.db, w))
  }

  function DoLoop(s: State, w: WorkerId, a: Timing.Tick): State
    requires w in s.procs && (a.SendBeat? ==> !HeartbeatService.Decommissioned(s.db, w))
  {
    var after := Timing.Apply(Clock(s, w), a);
    var p := s.procs[w].(phase := after.phase, last := after.last);
    s.(db := if a.SendBeat? then HeartbeatService.Beaten(s.db, w, |s.procs[w].futures|, a.stamp) else s.db,
       procs := s.procs[w := p])
  }

  predicate InBody(s: State, w: WorkerId) {
    w in s.procs && s.procs[w].phase.Body? && !s.procs[w].phase.checked
  }

  predicate CanClean(s: State, w: WorkerId, finished: set<Future>) {
    && InBody(s, w) && s.procs[w].locks == {}
    && (forall k :: k in finished ==> k in s.procs[w].futures && s.procs[w].futures[k] == Done)
  }

  function DoClean(s: State, w: WorkerId, finished: set<Future>): State
    requires w in s.procs
  {
    s.(procs := s.procs[w := s.procs[w].(futures := s.procs[w].futures - finished)])
  }

  /** A worker bound to no queue has a fixed number of slots. */
  const DEFAULT_CONCURRENCY := 10

  function Limit(db: Db, queue: Option<QueueId>): int {
    if queue.Some? then ClaimService.QueueConcurrency(db, queue.value) else DEFAULT_CONCURRENCY
  }

  predicate CanReadLimit(s: State, w: WorkerId) {
    InBody(s, w) && s.procs[w].locks == {}
  }

  function DoReadLimit(s: State, w: WorkerId): State
    requires w in s.procs
  {
    s.(procs := s.procs[w := s.procs[w].(limit := Limit(s.db, s.procs[w].queue))])
  }

  /** The claiming statement runs: rows are locked and updated, but nothing is visible yet. */
  predicate CanClaimLock(s: State, w: WorkerId, chosen: set<JobId>) {
    && InBody(s, w) && s.procs[w].locks == {} && chosen != {}
    && s.procs[w].limit - |s.procs[w].futures| > 0
    && ClaimService.TopK(s.db, s.procs[w].queue, s.now, Locked(s.procs),
                         s.procs[w].limit - |s.procs[w].futures|, chosen)
  }

  function DoClaimLock(s: State, w: WorkerId, chosen: set<JobId>): State
    requires w in s.procs
  {
    s.(procs := s.procs[w := s.procs[w].(locks := chosen)])
  }

  predicate CanClaimCommit(s: State, w: WorkerId) {
    InBody(s, w) && s.procs[w].locks != {} && s.procs[w].locks <= s.hist.Keys
  }

  /** The future each claimed job is dispatched under. */
  function Batch(s: State, chosen: set<JobId>): set<Future>
    requires chosen <= s.hist.Keys
  {
    set j | j in chosen :: Future(j, s.hist[j].claims + 1)
  }

  function WithBatch(futures: map<Future, Pc>, batch: set<Future>): map<Future, Pc> {
    futures + map k | k in batch :: Dispatched
  }

  function ClaimedHist(h: Hist): Hist {
    h.(claims := h.claims + 1, steps := h.steps + 1)
  }

  function DoClaimCommit(s: State, w: WorkerId): State
    requires CanClaimCommit(s, w)
  {
    var p := s.procs[w];
    s.(db := ClaimService.AfterClaim(s.db, p.locks, Some(w)),
       procs := s.procs[w := p.(locks := {}, futures := WithBatch(p.futures, Batch(s, p.locks)))],
       hist := map j | j in s.hist :: if j in p.locks then ClaimedHist(s.hist[j]) else s.hist[j])
  }

  function SetPhase(s: State, w: WorkerId, phase: Timing.Phase): State
    requires w in s.procs
  {
    s.(procs := s.procs[w := s.procs[w].(phase := phase)])
  }

  /** `thread_pool.shutdown(wait=True)` has returned: every future is done. */
  predicate CanDeregister(s: State, w: WorkerId) {
    && w in s.procs && s.procs[w].phase.Draining?
    && (forall k :: k in s.procs[w].futures ==> s.procs[w].futures[k] == Done)
  }

  function DoDeregister(s: State, w: WorkerId): State
    requires w in s.procs
  {
    SetPhase(s.(db := HeartbeatService.Deregistered(s.db, w, s.now)), w, Timing.Exited)
  }

  /** A crash loses the process: its threads stop and its open transaction rolls back. */
  function DoCrash(s: State, w: WorkerId): State
    requires w in s.procs
  {
    s.(procs := s.procs[w := s.procs[w].(phase := Timing.Crashed, locks := {}, futures := map[])])
  }

  // ---------------------------------------------------------------- run_job

  /** `run_job` reads the row by id and never asks whose it is or what state it is in. */
  predicate CanStart(s: State, w: WorkerId, k: Future, e: ExecId) {
    At(s, w, k) && s.procs[w].futures[k] == Dispatched && e !in s.db.execs
  }

  function StartedHist(h: Hist): Hist {
    h.(steps := h.steps + 1)
  }

  function FinishedHist(h: Hist, e: ExecId): Hist {
    h.(steps := h.steps + 1, winner := Some(e))
  }

  function FailedHist(h: Hist): Hist {
    h.(steps := h.steps + 1, fails := h.fails + 1, recorded := true)
  }

  function DoStart(s: State, w: WorkerId, k: Future, e: ExecId): State
    requires CanStart(s, w, k, e)
  {
    var h := s.hist[k.job];
    Advance(s, w, k, ExecutorService.Started(s.db, k.job, w, e), StartedHist(h), Executing(e))
  }

  predicate CanFinish(s: State, w: WorkerId, k: Future) {
    At(s, w, k) && s.procs[w].futures[k].Executing? && s.procs[w].futures[k].e in s.db.execs
  }

  function DoFinish(s: State, w: WorkerId, k: Future): State
    requires CanFinish(s, w, k)
  {
    var h, e := s.hist[k.job], s.procs[w].futures[k].e;
    Advance(s, w, k, ExecutorService.FinishedOk(s.db, k.job, e), FinishedHist(h, e), Done)
  }

  function DoFail(s: State, w: WorkerId, k: Future): State
    requires CanFinish(s, w, k)
  {
    var h, e := s.hist[k.job], s.procs[w].futures[k].e;
    Advance(s, w, k, ExecutorService.FailureRecorded(s.db, k.job, e),
            FailedHist(h), FailureRecorded(e))
  }

  predicate CanRetry(s: State, w: WorkerId, k: Future, draw: real) {
    && At(s, w, k) && s.procs[w].futures[k].FailureRecorded?
    && var job := s.db.jobs[k.job];
       var p := RetryService.EffectivePolicy(s.db, job);
       RetryService.Jitters(p) ==> RetryService.Drawn(draw, RetryService.DrawCap(p, job.retryCount))
  }

  function RetriedHist(h: Hist, after: Job): Hist {
    h.(steps := h.steps + 1, recorded := false,
       notBefore := if after.scheduledAt.Some? then after.scheduledAt.value else h.notBefore)
  }

  function DoRetry(s: State, w: WorkerId, k: Future, draw: real): State
    requires CanRetry(s, w, k, draw)
  {
    var db := RetryService.Retried(s.db, k.job, draw, s.now);
    Advance(s, w, k, db, RetriedHist(s.hist[k.job], db.jobs[k.job]), Done)
  }

  // ---------------------------------------------------------------- reaper

  function DoReaperFind(c: Config, s: State): State {
    s.(reaper := Reaper(ReaperService.StaleWorkers(s.db, s.now - c.timing.threshold), None))
  }

  predicate CanRecover(s: State, w: WorkerId) {
    w in s.reaper.todo && s.reaper.current.None?
  }

  function ReapedHist(h: Hist): Hist {
    h.(reaps := h.reaps + 1, recorded := false, steps := h.steps + 1)
  }

  function DoRecover(s: State, w: WorkerId): State {
    s.(db := ReaperService.Recovered(s.db, w),
       reaper := s.reaper.(current := Some(w)),
       hist := map j | j in s.hist ::
                 if j in s.db.jobs && ReaperService.Orphan(s.db.jobs[j], w) then ReapedHist(s.hist[j]) else s.hist[j])
  }

  function DoMark(s: State): State
    requires s.reaper.current.Some?
  {
    s.(db := ReaperService.MarkedDead(s.db, s.reaper.current.value),
       reaper := Reaper(s.reaper.todo - {s.reaper.current.value}, None))
  }

  // ---------------------------------------------------------------- scheduler

  /** The batch was read some time before this commit, so it need not be the best one by now. */
  predicate CanPromote(s: State, batch: set<JobId>, size: int) {
    batch <= SchedulerService.DueSet(s.db, None, s.now) && |batch| <= size
  }

  function PromotedHist(h: Hist): Hist {
    h.(steps := h.steps + 1)
  }

  function DoPromote(s: State, batch: set<JobId>): State {
    s.(db := SchedulerService.Promoted(s.db, batch),
       hist := map j | j in s.hist :: if j in batch then PromotedHist(s.hist[j]) else s.hist[j])
  }

  /**
   One template: its first instant, or a child and the next instant. The row was judged at `at`,
   when the tick read it, which may be some time before this commit.
   */
  ghost predicate CanCron(c: Config, s: State, t: JobId, child: JobId, next: Time, at: Time) {
    && t in s.db.jobs && s.db.jobs[t].status == Scheduled && s.db.jobs[t].cron.Some?
    && child !in s.hist && at <= s.now
    && SchedulerService.IsNext(c.matches, s.db.jobs[t].cron.value, at, next)
    && (s.db.jobs[t].scheduledAt.None? || SchedulerService.Fires(s.db.jobs[t], at))
  }

  function DoCron(s: State, t: JobId, child: JobId, next: Time, at: Time): State
    requires t in s.db.jobs
  {
    var template := s.db.jobs[t];
    var advanced := s.db.jobs[t := template.(scheduledAt := Some(next))];
    if template.scheduledAt.None? then s.(db := s.db.(jobs := advanced))
    else
      s.(db := s.db.(jobs := advanced[child := SchedulerService.Child(t, template, at)]),
         hist := s.hist[child := Fresh(ChildOf(t, template.scheduledAt.value), 0, at)])
  }

  // ---------------------------------------------------------------- the machine

  predicate CanPass(c: Config, s: State, t: Time) {
    && s.now <= t
    && forall w :: w in s.procs ==> Timing.MayReach(c.timing, s.procs[w].phase, t)
  }

  predicate ClientEnabled(c: Config, s: State, a: ClientAct) {
    match a
    case Create(j, q, data, key) => CanCreate(s, j, q, data, key)
    case Replay(j, clone) => CanReplay(s, j, clone)
    case SetQueue(q, row) => row.concurrencyLimit <= c.slots
    case DeleteQueue(q) => CanDeleteQueue(s, q)
  }

  function ClientApply(c: Config, s: State, a: ClientAct): State
    requires ClientEnabled(c, s, a)
  {
    match a
    case Create(j, q, data, key) => DoCreate(s, j, q, data, key)
    case Replay(j, clone) => DoReplay(s, j, clone)
    case SetQueue(q, row) => s.(db := s.db.(queues := s.db.queues[q := row]))
    case DeleteQueue(q) => s.(db := QueueService.Deleted(s.db, q))
  }

  predicate WorkerEnabled(c: Config, s: State, w: WorkerId, a: WorkerAct) {
    match a
    case Register(queue, stamp) => CanRegister(c, s, w, stamp)
    case Loop(tick) => CanLoop(c, s, w, tick)
    case Clean(finished) => CanClean(s, w, finished)
    case ReadLimit => CanReadLimit(s, w)
    case ClaimLock(chosen) => CanClaimLock(s, w, chosen)
    case ClaimCommit => CanClaimCommit(s, w)
    case Deregister => CanDeregister(s, w)
    case Crash => Live(s, w)
  }

  function WorkerApply(c: Config, s: State, w: WorkerId, a: WorkerAct): State
    requires WorkerEnabled(c, s, w, a)
  {
    match a
    case Register(queue, stamp) => DoRegister(s, w, queue, stamp)
    case Loop(tick) => DoLoop(s, w, tick)
    case Clean(finished) => DoClean(s, w, finished)
    case ReadLimit => DoReadLimit(s, w)
    case ClaimLock(chosen) => DoClaimLock(s, w, chosen)
    case ClaimCommit => DoClaimCommit(s, w)
    case Deregister => DoDeregister(s, w)
    case Crash => DoCrash(s, w)
  }

  predicate ThreadEnabled(s: State, w: WorkerId, k: Future, a: ThreadAct) {
    match a
    case Start(e) => CanStart(s, w, k, e)
    case Finish => CanFinish(s, w, k)
    case Fail => CanFinish(s, w, k)
    case Retry(draw) => CanRetry(s, w, k, draw)
  }

  function ThreadApply(s: State, w: WorkerId, k: Future, a: ThreadAct): State
    requires ThreadEnabled(s, w, k, a)
  {
    match a
    case Start(e) => DoStart(s, w, k, e)
    case Finish => DoFinish(s, w, k)
    case Fail => DoFail(s, w, k)
    case Retry(draw) => DoRetry(s, w, k, draw)
  }

  predicate ReaperEnabled(s: State, a: ReaperAct) {
    match a
    case Find => s.reaper == Reaper({}, None)
    case Recover(w) => CanRecover(s, w)
    case Mark => s.reaper.current.Some?
    case Stop => true
  }

  function ReaperApply(c: Config, s: State, a: ReaperAct): State
    requires ReaperEnabled(s, a)
  {
    match a
    case Find => DoReaperFind(c, s)
    case Recover(w) => DoRecover(s, w)
    case Mark => DoMark(s)
    case Stop => s.(reaper := Reaper({}, None))
  }

  ghost predicate SchedulerEnabled(c: Config, s: State, a: SchedulerAct) {
    match a
    case Promote(batch, size) => CanPromote(s, batch, size)
    case Fire(t, child, next, at) => CanCron(c, s, t, child, next, at)
  }

  ghost function SchedulerApply(c: Config, s: State, a: SchedulerAct): State
    requires SchedulerEnabled(c, s, a)
  {
    match a
    case Promote(batch, size) => DoPromote(s, batch)
    case Fire(t, child, next, at) => DoCron(s, t, child, next, at)
  }

  ghost predicate Enabled(c: Config, s: State, a: Step) {
    match a
    case ByClient(act) => ClientEnabled(c, s, act)
    case ByWorker(w, act) => WorkerEnabled(c, s, w, act)
    case ByThread(w, k, act) => ThreadEnabled(s, w, k, act)
    case ByReaper(act) => ReaperEnabled(s, act)
    case ByScheduler(act) => SchedulerEnabled(c, s, act)
    case Pass(until) => CanPass(c, s, until)
  }

  ghost function Apply(c: Config, s: State, a: Step): State
    requires Enabled(c, s, a)
  {
    match a
    case ByClient(act) => ClientApply(c, s, act)
    case ByWorker(w, act) => WorkerApply(c, s, w, act)
    case ByThread(w, k, act) => ThreadApply(s, w, k, act)
    case ByReaper(act) => ReaperApply(c, s, act)
    case ByScheduler(act) => SchedulerApply(c, s, act)
    case Pass(until) => s.(now := until)
  }

  const INITIAL := State(Db(map[], map[], map[], map[], map[]), 0, map[], Reaper({}, None), map[])

  ghost predicate ValidRun(c: Config, s: State, run: seq<Step>)
    decreases |run|
  {
    run == [] || (Enabled(c, s, run[0]) && ValidRun(c, Apply(c, s, run[0]), run[1..]))
  }

  ghost function Final(c: Config, s: State, run: seq<Step>): State
    requires ValidRun(c, s, run)
    decreases |run|
  {
    if run == [] then s else Final(c, Apply(c, s, run[0]), run[1..])
  }

  lemma {:induction false} RunsCompose(c: Config, s: State, a: seq<Step>, b: seq<Step>)
    requires ValidRun(c, s, a) && ValidRun(c, Final(c, s, a), b)
    ensures ValidRun(c, s, a + b) && Final(c, s, a + b) == Final(c, Final(c, s, a), b)
    decreases |a|
  {
    if a == [] {
      assert a + b == b;
    } else {
      assert (a + b)[0] == a[0] && (a + b)[1..] == a[1..] + b;
      RunsCompose(c, Apply(c, s, a[0]), a[1..], b);
    }
  }

  /** One more step at the end of a run. */
  lemma RunExtends(c: Config, s: State, run: seq<Step>, a: Step)
    requires ValidRun(c, s, run) && Enabled(c, Final(c, s, run), a)
    ensures ValidRun(c, s, run + [a]) && Final(c, s, run + [a]) == Apply(c, Final(c, s, run), a)
  {
    var t := Final(c, s, run);
    var u := Apply(c, t, a);
    assert [a][0] == a && [a][1..] == [];
    assert ValidRun(c, u, []) && Final(c, u, []) == u;
    assert ValidRun(c, t, [a]) && Final(c, t, [a]) == u;
    RunsCompose(c, s, run, [a]);
  }
}
