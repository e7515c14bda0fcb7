/**
 The guarantees' assumptions are needed, and their bounds are met: runs of the system in which
 a hasty reaper hands a job to two workers, in which a counter overruns the retry limit, and in
 which a job starts before the one it depends on.
 */
module Sharpness {
  import opened Model
  import opened Protocol
  import opened System
  import opened Guarantees
  import ClaimService
  import JobService
  import QueueLimit
  import ReaperService
  import Timing
  import WorkerProcess

  const JOB: JobCreate := JobCreate("work", None, None, None, Some(0), None)

  const QUEUE: Queue := Queue(0, 1, Policy(None, None, None, None, None, None, None), false)

  /** A system without workers and with one job waiting. */
  const WAITING: State :=
    State(Db(map[0 := QUEUE], map[0 := JobService.NewRow(0, QUEUE, JOB, None, 0)], map[], map[], map[]), 0, map[],
          Reaper({}, None), map[0 := Fresh(Submitted, 0, 0)])

  lemma JobWaits(c: Config) returns (run: seq<Step>)
    requires c.Plausible()
    ensures ValidRun(c, INITIAL, run) && Final(c, INITIAL, run) == WAITING && NoReaper(run)
  {
    run := [];
    RunExtends(c, INITIAL, run, ByClient(SetQueue(0, QUEUE))); run := run + [ByClient(SetQueue(0, QUEUE))];
    RunExtends(c, INITIAL, run, ByClient(Create(0, 0, JOB, None))); run := run + [ByClient(Create(0, 0, JOB, None))];
  }

  /** The reaper takes no part in a run. */
  predicate NoReaper(run: seq<Step>) {
    forall i :: 0 <= i < |run| ==> !run[i].ByReaper?
  }

  /** Only job 0, waiting and claimable; no claim is open. */
  predicate Offered(s: State) {
    && s.db.jobs.Keys == {0} && 0 in s.hist
    && s.db.jobs[0].status == Queued && s.db.jobs[0].scheduledAt.None?
    && s.db.queues == map[0 := QUEUE]
    && s.reaper.todo <= {0}
    && (forall w :: w in s.procs ==> s.procs[w].locks == {})
  }

  // ---------------------------------------------------------------- one worker by itself

  /** Worker 0 is all there is, with no claim open and these clocks. */
  predicate Alone(s: State, clocks: Timing.Clocked) {
    && s.procs.Keys == {0} && s.db.workers.Keys == {0} && s.db.workers[0].active
    && s.reaper == Reaper({}, None) && s.procs[0].locks == {} && Clock(s, 0) == clocks
  }

  /** The worker's clocks may differ and nothing else. */
  predicate SameWork(s: State, t: State) {
    && t.db == s.db.(workers := t.db.workers) && t.hist == s.hist && 0 in s.procs && 0 in t.procs
    && t.procs[0].futures == s.procs[0].futures && t.procs[0].queue == s.procs[0].queue
  }

  lemma WorkerStarts(c: Config) returns (run: seq<Step>)
    requires c.Plausible()
    ensures ValidRun(c, INITIAL, run) && NoReaper(run)
    ensures var s := Final(c, INITIAL, run);
            && Alone(s, Timing.REGISTERED) && Offered(s) && s.db.jobs[0].maxRetries == 0 && s.db.execs == map[]
            && s.procs[0].queue == None && s.procs[0].futures == map[]
  {
    run := JobWaits(c);
    RunExtends(c, INITIAL, run, ByWorker(0, Register(None, 0)));
    run := run + [ByWorker(0, Register(None, 0))];
  }

  /** A tick of the timing model is a step of the system. */
  lemma TickLifts(c: Config, s: State, clocks: Timing.Clocked, tick: Timing.Tick) returns (a: Step)
    requires Alone(s, clocks) && Timing.Enabled(c.timing, clocks, tick)
    ensures Enabled(c, s, a) && !a.ByReaper?
    ensures Alone(Apply(c, s, a), Timing.Apply(clocks, tick)) && SameWork(s, Apply(c, s, a))
  {
    if tick.Pass? {
      a := Pass(tick.t);
      assert Enabled(c, s, a);
    } else {
      a := ByWorker(0, Loop(tick));
      assert CanLoop(c, s, 0, tick);
      assert Apply(c, s, a) == DoLoop(s, 0, tick);
    }
  }

  /** Every run of one worker's clocks is a run of the system. */
  lemma {:induction false} ClocksLift(c: Config, run: seq<Step>, clocks: Timing.Clocked, ticks: seq<Timing.Tick>)
    returns (longer: seq<Step>)
    requires ValidRun(c, INITIAL, run) && NoReaper(run) && Alone(Final(c, INITIAL, run), clocks)
    requires Timing.ValidRun(c.timing, clocks, ticks)
    ensures ValidRun(c, INITIAL, longer) && NoReaper(longer)
    ensures Alone(Final(c, INITIAL, longer), Timing.Final(clocks, ticks))
    ensures SameWork(Final(c, INITIAL, run), Final(c, INITIAL, longer))
    decreases |ticks|
  {
    if ticks == [] {
      longer := run;
    } else {
      var a := TickLifts(c, Final(c, INITIAL, run), clocks, ticks[0]);
      RunExtends(c, INITIAL, run, a);
      longer := ClocksLift(c, run + [a], Timing.Apply(clocks, ticks[0]), ticks[1..]);
    }
  }

  // ---------------------------------------------------------------- claims

  /** What a worker bound to no queue has done to a waiting job when its pass has dispatched it. */
  predicate TakenBy(s: State, t: State, w: WorkerId) {
    && WorkerProcess.OthersAlone(s, t, w)
    && t.now == s.now && t.reaper == s.reaper && t.db == s.db.(jobs := t.db.jobs)
    && t.db.jobs.Keys == s.db.jobs.Keys == {0} && 0 in t.hist
    && t.db.jobs[0] == s.db.jobs[0].(status := Claimed, worker := Some(w))
    && (exists k :: k in t.procs[w].futures && k.job == 0 && t.procs[w].futures[k] == Dispatched)
    && t.procs[w].locks == {} && t.procs[w].phase == s.procs[w].phase && t.procs[w].last == s.procs[w].last
  }

  lemma JobIsFree(s: State, w: WorkerId)
    requires Offered(s) && InBody(s, w)
    requires s.procs[w].queue == None && s.procs[w].futures == map[] && s.procs[w].limit == 10
    ensures CanClaimLock(s, w, {0})
  {
    assert Locked(s.procs) == {};
    assert ClaimService.EligibleSet(s.db, None, s.now) - {} == {0};
  }

  /** The claim of a pass: the limit is read, the row locked, the claim committed and dispatched. */
  function Taking(w: WorkerId): seq<Step> {
    [ByWorker(w, ReadLimit), ByWorker(w, ClaimLock({0})), ByWorker(w, ClaimCommit)]
  }

  function Taken(s: State, w: WorkerId): State
    requires InBody(s, w) && 0 in s.hist
  {
    DoClaimCommit(DoClaimLock(DoReadLimit(s, w), w, {0}), w)
  }

  lemma TakeTakes(s: State, w: WorkerId)
    requires Offered(s) && InBody(s, w) && s.procs[w].futures == map[]
    ensures TakenBy(s, Taken(s, w), w)
  {
    var u := DoClaimLock(DoReadLimit(s, w), w, {0});
    var v := DoClaimCommit(u, w);
    assert Future(0, s.hist[0].claims + 1) in Batch(u, {0});
    assert v.procs[w].futures[Future(0, s.hist[0].claims + 1)] == Dispatched;
  }

  lemma LockIsEnabled(c: Config, s: State, w: WorkerId)
    requires Offered(s) && InBody(s, w) && s.procs[w].queue == None && s.procs[w].futures == map[]
    ensures CanReadLimit(s, w) && CanClaimLock(DoReadLimit(s, w), w, {0})
    ensures CanClaimCommit(DoClaimLock(DoReadLimit(s, w), w, {0}), w)
  {
    JobIsFree(DoReadLimit(s, w), w);
  }

  /** A run of one step. */
  lemma OneStep(c: Config, s: State, w: WorkerId, a: WorkerAct)
    requires WorkerEnabled(c, s, w, a)
    ensures ValidRun(c, s, [ByWorker(w, a)]) && Final(c, s, [ByWorker(w, a)]) == WorkerApply(c, s, w, a)
  {
    RunExtends(c, s, [], ByWorker(w, a));
    assert [] + [ByWorker(w, a)] == [ByWorker(w, a)];
  }

  lemma TakeIsARun(c: Config, s: State, w: WorkerId)
    requires 0 in s.hist && CanReadLimit(s, w) && CanClaimLock(DoReadLimit(s, w), w, {0})
    requires CanClaimCommit(DoClaimLock(DoReadLimit(s, w), w, {0}), w)
    ensures ValidRun(c, s, Taking(w)) && Final(c, s, Taking(w)) == Taken(s, w)
  {
    var read, lock, commit := [ByWorker(w, ReadLimit)], [ByWorker(w, ClaimLock({0}))], [ByWorker(w, ClaimCommit)];
    var t := DoReadLimit(s, w);
    var u := DoClaimLock(t, w, {0});
    OneStep(c, s, w, ReadLimit);
    OneStep(c, t, w, ClaimLock({0}));
    OneStep(c, u, w, ClaimCommit);
    RunsCompose(c, t, lock, commit);
    RunsCompose(c, s, read, lock + commit);
    assert Taking(w) == read + (lock + commit);
  }

  lemma Take(c: Config, run: seq<Step>, w: WorkerId) returns (longer: seq<Step>)
    requires ValidRun(c, INITIAL, run)
    requires var s := Final(c, INITIAL, run);
             Offered(s) && InBody(s, w) && s.procs[w].queue == None && s.procs[w].futures == map[]
    ensures ValidRun(c, INITIAL, longer) && TakenBy(Final(c, INITIAL, run), Final(c, INITIAL, longer), w)
    ensures longer == run + Taking(w)
  {
    var s := Final(c, INITIAL, run);
    LockIsEnabled(c, s, w);
    TakeIsARun(c, s, w);
    TakeTakes(s, w);
    RunsCompose(c, INITIAL, run, Taking(w));
    longer := run + Taking(w);
  }

  /** A worker that has started, slowly or at once, begins its first pass with the job waiting. */
  lemma WorkerPolls(c: Config, start: seq<Timing.Tick>, clocks: Timing.Clocked) returns (run: seq<Step>)
    requires c.Plausible() && Timing.ValidRun(c.timing, Timing.REGISTERED, start)
    requires Timing.Final(Timing.REGISTERED, start) == clocks
    ensures ValidRun(c, INITIAL, run) && NoReaper(run)
    ensures var s := Final(c, INITIAL, run);
            && Alone(s, clocks) && Offered(s) && s.db.jobs[0].maxRetries == 0 && s.db.execs == map[]
            && s.procs[0].queue == None && s.procs[0].futures == map[]
  {
    run := WorkerStarts(c);
    run := ClocksLift(c, run, Timing.REGISTERED, start);
  }

  /** A worker that has started, slowly or at once, takes the job in its first pass. */
  lemma FirstPassTakesJob(c: Config, start: seq<Timing.Tick>, clocks: Timing.Clocked) returns (run: seq<Step>)
    requires c.Plausible() && Timing.ValidRun(c.timing, Timing.REGISTERED, start)
    requires Timing.Final(Timing.REGISTERED, start) == clocks && clocks.phase == Timing.Body(clocks.now, false)
    ensures ValidRun(c, INITIAL, run) && NoReaper(run)
    ensures var s := Final(c, INITIAL, run);
            && Alone(s, clocks) && s.db.queues == map[0 := QUEUE] && s.db.execs == map[]
            && s.db.jobs.Keys == {0} && 0 in s.hist && ReaperService.Orphan(s.db.jobs[0], 0)
            && s.db.jobs[0].scheduledAt.None? && s.db.jobs[0].maxRetries == 0
            && (exists m :: m in s.procs[0].futures && m.job == 0 && s.procs[0].futures[m] == Dispatched)
  {
    run := WorkerPolls(c, start, clocks);
    run := Take(c, run, 0);
  }

  // ---------------------------------------------------------------- a hasty reaper

  /** Job 0's owner is found stale and the job goes back, whether or not the owner lives. */
  lemma Reap(c: Config, run: seq<Step>) returns (longer: seq<Step>)
    requires ValidRun(c, INITIAL, run)
    requires var s := Final(c, INITIAL, run);
             && s.reaper == Reaper({}, None) && s.db.jobs.Keys == {0} && 0 in s.hist
             && ReaperService.Orphan(s.db.jobs[0], 0) && s.db.workers.Keys == {0} && s.db.workers[0].active
             && s.db.workers[0].heartbeat < s.now - c.timing.threshold
    ensures ValidRun(c, INITIAL, longer)
    ensures var s, t := Final(c, INITIAL, run), Final(c, INITIAL, longer);
            && t.procs == s.procs && t.now == s.now && t.reaper.todo == {0}
            && t.db == s.db.(jobs := map[0 := ReaperService.Requeued(s.db.jobs[0])])
            && t.hist.Keys == s.hist.Keys
  {
    var s := Final(c, INITIAL, run);
    RunExtends(c, INITIAL, run, ByReaper(Find)); longer := run + [ByReaper(Find)];
    var t := DoReaperFind(c, s);
    assert t.reaper.todo == {0};
    RunExtends(c, INITIAL, longer, ByReaper(Recover(0))); longer := longer + [ByReaper(Recover(0))];
    assert DoRecover(t, 0).db.jobs == map[0 := ReaperService.Requeued(s.db.jobs[0])];
  }

  /** Two unfinished futures for one job. */
  predicate Clash(s: State, v: WorkerId, m: Future, w: WorkerId, k: Future) {
    Busy(s, v, m) && Busy(s, w, k) && m.job == k.job && !(v == w && m == k)
  }

  /**
   A worker that lives and holds a job, with a heartbeat older than the threshold: it took the
   job in its first pass, and its later passes, or its drain, are as slow as they may be.
   */
  lemma LateWorkerHoldsJob(c: Config) returns (run: seq<Step>)
    requires c.Plausible() && !c.timing.Timely()
    ensures ValidRun(c, INITIAL, run)
    ensures var s := Final(c, INITIAL, run);
            && s.procs.Keys == {0} && s.db.workers.Keys == {0} && s.db.workers[0].active && s.reaper == Reaper({}, None)
            && s.db.workers[0].heartbeat < s.now - c.timing.threshold
            && s.db.jobs.Keys == {0} && 0 in s.hist && ReaperService.Orphan(s.db.jobs[0], 0)
            && s.db.jobs[0].scheduledAt.None? && s.db.queues == map[0 := QUEUE]
            && s.procs[0].locks == {} && s.procs[0].phase.Alive()
            && exists m :: Busy(s, 0, m) && m.job == 0
  {
    var start := Timing.SlowStart(c.timing);
    var clocks := Timing.Started(c.timing);
    run := FirstPassTakesJob(c, start, clocks);
    var t := Final(c, INITIAL, run);
    var m :| m in t.procs[0].futures && m.job == 0 && t.procs[0].futures[m] == Dispatched;
    var slow := Timing.SlowestRun(c.timing);
    run := ClocksLift(c, run, clocks, slow);
    assert Busy(Final(c, INITIAL, run), 0, m);
  }

  /** A second worker comes up next to the first. */
  lemma SecondWorkerStarts(c: Config, run: seq<Step>) returns (longer: seq<Step>)
    requires c.Plausible() && ValidRun(c, INITIAL, run)
    requires var s := Final(c, INITIAL, run); Offered(s) && s.procs.Keys == {0} && s.db.workers.Keys == {0}
    ensures ValidRun(c, INITIAL, longer)
    ensures var s, t := Final(c, INITIAL, run), Final(c, INITIAL, longer);
            && Offered(t) && InBody(t, 1) && t.procs[1].queue == None && t.procs[1].futures == map[]
            && t.procs.Keys == {0, 1} && t.procs[0] == s.procs[0]
  {
    var s := Final(c, INITIAL, run);
    RunExtends(c, INITIAL, run, ByWorker(1, Register(None, s.now)));
    longer := run + [ByWorker(1, Register(None, s.now))];
    var t := DoRegister(s, 1, None, s.now);
    assert CanLoop(c, t, 1, Timing.EnterLoop);
    RunExtends(c, INITIAL, longer, ByWorker(1, Loop(Timing.EnterLoop)));
    longer := longer + [ByWorker(1, Loop(Timing.EnterLoop))];
  }

  /** The reaper takes the job from the late worker and a second one claims it too. */
  lemma HastyReaper(c: Config) returns (run: seq<Step>, m: Future, k: Future)
    requires c.Plausible() && !c.timing.Timely()
    ensures ValidRun(c, INITIAL, run) && Clash(Final(c, INITIAL, run), 0, m, 1, k)
  {
    run := LateWorkerHoldsJob(c);
    var s := Final(c, INITIAL, run);
    m :| Busy(s, 0, m) && m.job == 0;
    run := Reap(c, run);
    run := SecondWorkerStarts(c, run);
    run := Take(c, run, 1);
    var t := Final(c, INITIAL, run);
    k :| k in t.procs[1].futures && k.job == 0 && t.procs[1].futures[k] == Dispatched;
    assert t.procs[0] == s.procs[0];
  }

  /** No job is ever in two hands, in any state of any run. */
  ghost predicate Exclusive(c: Config) {
    forall run, v, m, w, k :: ValidRun(c, INITIAL, run) ==> !Clash(Final(c, INITIAL, run), v, m, w, k)
  }

  /**
   Single execution holds in all runs exactly when the stale-worker threshold covers the
   oldest heartbeat a living worker can have.
   */
  lemma ExclusiveExactlyWhenTimely(c: Config)
    requires c.Plausible()
    ensures Exclusive(c) <==> c.timing.Timely()
  {
    if c.timing.Timely() {
      forall run, v, m, w, k | ValidRun(c, INITIAL, run) ensures !Clash(Final(c, INITIAL, run), v, m, w, k) {
        var s := Final(c, INITIAL, run);
        if Clash(s, v, m, w, k) {
          SingleExecutor(c, s, v, m, w, k);
        }
      }
    } else {
      var run, m, k := HastyReaper(c);
      assert Clash(Final(c, INITIAL, run), 0, m, 1, k);
    }
  }

  // ---------------------------------------------------------------- the retry counter

  lemma QuickStart(c: Config) returns (start: seq<Timing.Tick>, clocks: Timing.Clocked)
    requires c.Plausible()
    ensures Timing.ValidRun(c.timing, Timing.REGISTERED, start)
    ensures Timing.Final(Timing.REGISTERED, start) == clocks == Timing.Clocked(0, 0, 0, Timing.Body(0, false))
  {
    Timing.RunExtends(c.timing, Timing.REGISTERED, [], Timing.EnterLoop);
    start := [] + [Timing.EnterLoop];
    clocks := Timing.Clocked(0, 0, 0, Timing.Body(0, false));
  }

  /** The only worker dies at time 0 and its heartbeat expires. */
  lemma CrashAndWait(c: Config, run: seq<Step>) returns (longer: seq<Step>)
    requires c.Plausible() && ValidRun(c, INITIAL, run)
    requires var s := Final(c, INITIAL, run);
             && s.procs.Keys == {0} && s.procs[0].phase.Alive() && s.now == 0
             && 0 in s.db.workers && s.db.workers[0].heartbeat == 0
    ensures ValidRun(c, INITIAL, longer)
    ensures var s, t := Final(c, INITIAL, run), Final(c, INITIAL, longer);
            t.db == s.db && t.hist == s.hist && t.reaper == s.reaper && t.now == c.timing.threshold + 1
  {
    RunExtends(c, INITIAL, run, ByWorker(0, Crash)); longer := run + [ByWorker(0, Crash)];
    var until := c.timing.threshold + 1;
    RunExtends(c, INITIAL, longer, Pass(until)); longer := longer + [Pass(until)];
  }

  /**
   `retry_count <= max_retries` is not an invariant, however generous the timing: a crash and
   a recovery count as a retry without looking at the limit.
   */
  lemma RecoveryOverrunsLimit(c: Config) returns (run: seq<Step>)
    requires c.Sane()
    ensures ValidRun(c, INITIAL, run)
    ensures var s := Final(c, INITIAL, run);
            0 in s.db.jobs && s.db.jobs[0].status == Queued && s.db.jobs[0].retryCount > s.db.jobs[0].maxRetries
  {
    var start, clocks := QuickStart(c);
    run := FirstPassTakesJob(c, start, clocks);
    run := CrashAndWait(c, run);
    run := Reap(c, run);
  }

  /** Nor does it need a recovery: the one attempt of a job that allows no retries overruns it. */
  lemma FailureOverrunsLimit(c: Config) returns (run: seq<Step>)
    requires c.Sane()
    ensures ValidRun(c, INITIAL, run) && NoReaper(run)
    ensures var s := Final(c, INITIAL, run);
            0 in s.db.jobs && s.db.jobs[0].status == Running && s.db.jobs[0].retryCount > s.db.jobs[0].maxRetries
  {
    var start, clocks := QuickStart(c);
    run := FirstPassTakesJob(c, start, clocks);
    var s := Final(c, INITIAL, run);
    var m :| m in s.procs[0].futures && m.job == 0 && s.procs[0].futures[m] == Dispatched;
    RunExtends(c, INITIAL, run, ByThread(0, m, Start(0))); run := run + [ByThread(0, m, Start(0))];
    var t := DoStart(s, 0, m, 0);
    RunExtends(c, INITIAL, run, ByThread(0, m, Fail)); run := run + [ByThread(0, m, Fail)];
  }

  // ---------------------------------------------------------------- dependencies and queue limits

  const UPSTREAM: JobCreate := JobCreate("first", Some(1), None, None, None, None)

  const DOWNSTREAM: JobCreate := JobCreate("second", Some(0), None, None, None, Some(0))

  /** Job 1 depends on job 0 and sorts before it; their queue has one slot. */
  predicate Dependent(s: State) {
    && s.db.jobs.Keys == {0, 1} && {0, 1} <= s.hist.Keys && s.db.queues == map[0 := QUEUE]
    && s.db.jobs[0] == JobService.NewRow(0, QUEUE, UPSTREAM, None, 0)
    && s.db.jobs[1] == JobService.NewRow(0, QUEUE, DOWNSTREAM, None, 0)
  }

  lemma DependentJobsWait(c: Config) returns (run: seq<Step>)
    requires c.Plausible()
    ensures ValidRun(c, INITIAL, run)
    ensures var s := Final(c, INITIAL, run); Dependent(s) && s.procs == map[] && s.db.workers == map[]
  {
    run := [];
    RunExtends(c, INITIAL, run, ByClient(SetQueue(0, QUEUE))); run := run + [ByClient(SetQueue(0, QUEUE))];
    RunExtends(c, INITIAL, run, ByClient(Create(0, 0, UPSTREAM, None)));
    run := run + [ByClient(Create(0, 0, UPSTREAM, None))];
    RunExtends(c, INITIAL, run, ByClient(Create(1, 0, DOWNSTREAM, None)));
    run := run + [ByClient(Create(1, 0, DOWNSTREAM, None))];
  }

  /** A worker has registered for queue 0 and begun its first pass; all else is as it was. */
  predicate Joined(s: State, t: State, w: WorkerId) {
    && w !in s.procs && t.procs.Keys == s.procs.Keys + {w} && t.db.workers.Keys == s.db.workers.Keys + {w}
    && (forall v :: v in s.procs ==> t.procs[v] == s.procs[v])
    && t.db.jobs == s.db.jobs && t.db.queues == s.db.queues && t.hist == s.hist && t.now == s.now
    && InBody(t, w) && t.procs[w].queue == Some(0) && t.procs[w].futures == map[] && t.procs[w].locks == {}
  }

  lemma JoinJoins(c: Config, s: State, w: WorkerId)
    requires c.Plausible() && w !in s.procs && w !in s.db.workers
    ensures CanRegister(c, s, w, s.now)
    ensures var t := DoRegister(s, w, Some(0), s.now);
            CanLoop(c, t, w, Timing.EnterLoop) && Joined(s, DoLoop(t, w, Timing.EnterLoop), w)
  {
  }

  lemma Join(c: Config, run: seq<Step>, w: WorkerId) returns (longer: seq<Step>)
    requires c.Plausible() && ValidRun(c, INITIAL, run)
    requires w !in Final(c, INITIAL, run).procs && w !in Final(c, INITIAL, run).db.workers
    ensures ValidRun(c, INITIAL, longer) && Joined(Final(c, INITIAL, run), Final(c, INITIAL, longer), w)
  {
    var s := Final(c, INITIAL, run);
    var t := DoRegister(s, w, Some(0), s.now);
    JoinJoins(c, s, w);
    OneStep(c, s, w, Register(Some(0), s.now));
    OneStep(c, t, w, Loop(Timing.EnterLoop));
    RunsCompose(c, INITIAL, run, [ByWorker(w, Register(Some(0), s.now))]);
    longer := run + [ByWorker(w, Register(Some(0), s.now))];
    RunsCompose(c, INITIAL, longer, [ByWorker(w, Loop(Timing.EnterLoop))]);
    longer := longer + [ByWorker(w, Loop(Timing.EnterLoop))];
  }

  /** `j` is the row the next claim of a worker with one slot takes from queue 0. */
  predicate NextInQueue(s: State, j: JobId) {
    && j in s.db.jobs && j in s.hist && s.db.queues == map[0 := QUEUE]
    && (forall v :: v in s.procs ==> s.procs[v].locks == {})
    && j in ClaimService.EligibleSet(s.db, Some(0), s.now)
    && (forall e :: e in ClaimService.EligibleSet(s.db, Some(0), s.now) ==>
          e in s.db.jobs && !ClaimService.SortsBefore(s.db.jobs[e], s.db.jobs[j]))
  }

  lemma NextIsFree(s: State, w: WorkerId, j: JobId)
    requires NextInQueue(s, j) && InBody(s, w)
    requires s.procs[w].queue == Some(0) && s.procs[w].futures == map[] && s.procs[w].limit == 1
    ensures CanClaimLock(s, w, {j})
  {
    assert Locked(s.procs) == {};
  }

  /** The worker has claimed `j` and holds no lock. */
  predicate HasClaimed(s: State, t: State, w: WorkerId, j: JobId) {
    && w in t.procs && t.procs.Keys == s.procs.Keys && t.procs[w].locks == {}
    && (forall v :: v in s.procs && v != w ==> t.procs[v] == s.procs[v])
    && j in s.db.jobs && t.db == s.db.(jobs := s.db.jobs[j := s.db.jobs[j].(status := Claimed, worker := Some(w))])
    && t.hist.Keys == s.hist.Keys && t.now == s.now
  }

  lemma ClaimIsARun(c: Config, s: State, w: WorkerId, j: JobId) returns (run: seq<Step>)
    requires NextInQueue(s, j) && InBody(s, w) && s.procs[w].queue == Some(0) && s.procs[w].futures == map[]
    ensures ValidRun(c, s, run) && HasClaimed(s, Final(c, s, run), w, j)
  {
    var read, lock, commit := [ByWorker(w, ReadLimit)], [ByWorker(w, ClaimLock({j}))], [ByWorker(w, ClaimCommit)];
    var t := DoReadLimit(s, w);
    NextIsFree(t, w, j);
    var u := DoClaimLock(t, w, {j});
    OneStep(c, s, w, ReadLimit);
    OneStep(c, t, w, ClaimLock({j}));
    OneStep(c, u, w, ClaimCommit);
    RunsCompose(c, t, lock, commit);
    RunsCompose(c, s, read, lock + commit);
    run := read + (lock + commit);
    ClaimIsClaimed(s, w, j);
  }

  lemma ClaimIsClaimed(s: State, w: WorkerId, j: JobId)
    requires InBody(s, w) && s.procs[w].locks == {} && j in s.db.jobs && j in s.hist
    ensures CanClaimCommit(DoClaimLock(DoReadLimit(s, w), w, {j}), w)
    ensures HasClaimed(s, DoClaimCommit(DoClaimLock(DoReadLimit(s, w), w, {j}), w), w, j)
  {
    var t := DoClaimCommit(DoClaimLock(DoReadLimit(s, w), w, {j}), w);
    assert t.db.jobs == s.db.jobs[j := s.db.jobs[j].(status := Claimed, worker := Some(w))];
  }

  lemma DownstreamIsNext(s: State, t: State)
    requires Dependent(s) && s.procs == map[] && Joined(s, t, 0)
    ensures NextInQueue(t, 1)
  {
    assert ClaimService.EligibleSet(t.db, Some(0), t.now) == {0, 1};
  }

  /** A job is claimed while the job it depends on still waits in the same queue. */
  lemma DependentRunsFirst(c: Config) returns (run: seq<Step>)
    requires c.Plausible()
    ensures ValidRun(c, INITIAL, run)
    ensures var s := Final(c, INITIAL, run);
            && s.db.jobs.Keys == {0, 1} && s.db.jobs[1].dependsOn == Some(0)
            && s.db.jobs[1].status == Claimed && s.db.jobs[1].queue == 0
            && s.db.jobs[0] == JobService.NewRow(0, QUEUE, UPSTREAM, None, 0)
            && s.procs.Keys == {0} && s.procs[0].locks == {} && s.db.workers.Keys == {0}
            && s.db.queues == map[0 := QUEUE] && 0 in s.hist
  {
    run := DependentJobsWait(c);
    var waiting := Final(c, INITIAL, run);
    run := Join(c, run, 0);
    var s := Final(c, INITIAL, run);
    DownstreamIsNext(waiting, s);
    var claim := ClaimIsARun(c, s, 0, 1);
    RunsCompose(c, INITIAL, run, claim);
    run := run + claim;
  }

  lemma UpstreamIsNext(s: State)
    requires s.db.jobs.Keys == {0, 1} && 0 in s.hist && s.db.queues == map[0 := QUEUE]
    requires s.db.jobs[0] == JobService.NewRow(0, QUEUE, UPSTREAM, None, 0) && s.db.jobs[1].status == Claimed
    requires forall v :: v in s.procs ==> s.procs[v].locks == {}
    ensures NextInQueue(s, 0)
  {
    assert ClaimService.EligibleSet(s.db, Some(0), s.now) == {0};
  }

  lemma BothAreInFlight(s: State, t: State, w: WorkerId)
    requires s.db.jobs.Keys == {0, 1} && s.db.jobs[0].queue == 0 == s.db.jobs[1].queue && s.db.jobs[1].status == Claimed
    requires HasClaimed(s, t, w, 0)
    ensures QueueLimit.InFlightOf(t.db.jobs, 0) == {0, 1} && |QueueLimit.InFlightOf(t.db.jobs, 0)| == 2
  {
    assert QueueLimit.InFlightOf(t.db.jobs, 0) == {0, 1};
  }

  /**
   Two workers of one queue: each compares the limit with its own futures only, so two jobs of a
   queue with one slot are in flight.
   */
  lemma TwoWorkersOverfill(c: Config) returns (run: seq<Step>)
    requires c.Plausible()
    ensures ValidRun(c, INITIAL, run)
    ensures var s := Final(c, INITIAL, run);
            && 0 in s.db.queues && s.db.queues[0].concurrencyLimit == 1
            && QueueLimit.InFlightOf(s.db.jobs, 0) == {0, 1} && !QueueLimit.Fits(s.db, 0)
  {
    run := DependentRunsFirst(c);
    run := Join(c, run, 1);
    var s := Final(c, INITIAL, run);
    UpstreamIsNext(s);
    var claim := ClaimIsARun(c, s, 1, 0);
    RunsCompose(c, INITIAL, run, claim);
    run := run + claim;
    BothAreInFlight(s, Final(c, INITIAL, run), 1);
  }
}
