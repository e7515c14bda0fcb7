/**
 Exactly when the jobs in flight of a queue exceed its `concurrency_limit`. The schema promises
 a bound per queue (app/schemas/queue.py); the loop compares the limit with the futures of one
 worker (app/workers/main_worker.py).
 */
module QueueLimit {
  import opened Model
  import opened Protocol
  import opened Ownership
  import opened Capacity
  import opened System
  import opened Transitions
  import ClaimService

  /** What `get_running_jobs_count` counts. */
  function InFlightOf(jobs: map<JobId, Job>, q: QueueId): set<JobId> {
    set j | j in jobs && jobs[j].queue == q && jobs[j].InFlight()
  }

  predicate Fits(db: Db, q: QueueId)
    requires q in db.queues
  {
    |InFlightOf(db.jobs, q)| <= db.queues[q].concurrencyLimit
  }

  predicate AllFit(db: Db) {
    forall q :: q in db.queues ==> Fits(db, q)
  }

  /** The rows of `q` that an open claim holds. */
  function HeldOf(s: State, w: WorkerId, q: QueueId): set<JobId>
    requires w in s.procs
  {
    set j | j in s.procs[w].locks && j in s.db.jobs && s.db.jobs[j].queue == q
  }

  /** A claiming commit that holds more rows of some queue than the queue has room for. */
  predicate Crowds(s: State, w: WorkerId)
    requires w in s.procs
  {
    exists q :: q in s.db.queues &&
      |HeldOf(s, w, q)| > s.db.queues[q].concurrencyLimit - |InFlightOf(s.db.jobs, q)|
  }

  /** Such a commit, or an edit that puts a limit below what is in flight. */
  predicate Overfills(s: State, a: Step) {
    match a
    case ByWorker(w, ClaimCommit) => w in s.procs && Crowds(s, w)
    case ByClient(SetQueue(q, row)) => |InFlightOf(s.db.jobs, q)| > row.concurrencyLimit
    case _ => false
  }

  // ---------------------------------------------------------------- one step

  lemma CalmKeepsRoom(jobs: map<JobId, Job>, after: map<JobId, Job>, q: QueueId)
    requires Calm(jobs, after)
    ensures |InFlightOf(after, q)| <= |InFlightOf(jobs, q)|
  {
    forall j | j in InFlightOf(after, q) ensures j in InFlightOf(jobs, q) {
      assert InHand(after, j);
      assert Follows(jobs[j], after[j]);
    }
    SubsetSize(InFlightOf(after, q), InFlightOf(jobs, q));
  }

  lemma ProcessesKeepQueues(c: Config, s: State, a: Step)
    requires Enabled(c, s, a) && !a.ByClient?
    ensures Apply(c, s, a).db.queues == s.db.queues
  {
    match a
    case ByWorker(w, act) => WorkersKeepQueues(c, s, w, act);
    case ByThread(w, k, act) => ThreadIsLocal(s, w, k, act);
    case ByReaper(_) =>
    case ByScheduler(_) =>
    case Pass(_) =>
  }

  lemma WorkersKeepQueues(c: Config, s: State, w: WorkerId, a: WorkerAct)
    requires WorkerEnabled(c, s, w, a)
    ensures WorkerApply(c, s, w, a).db.queues == s.db.queues
  {
  }

  lemma ClientQueuesStay(c: Config, s: State, a: ClientAct)
    requires ClientEnabled(c, s, a) && !a.SetQueue?
    ensures forall q :: q in ClientApply(c, s, a).db.queues ==>
              q in s.db.queues && ClientApply(c, s, a).db.queues[q] == s.db.queues[q]
  {
  }

  /** Only clients change queues, and only an edit changes one that stays. */
  lemma QueuesStay(c: Config, s: State, a: Step)
    requires Enabled(c, s, a) && !(a.ByClient? && a.client.SetQueue?)
    ensures var queues := Apply(c, s, a).db.queues;
            forall q :: q in queues ==> q in s.db.queues && queues[q] == s.db.queues[q]
  {
    if a.ByClient? {
      ClientQueuesStay(c, s, a.client);
    } else {
      ProcessesKeepQueues(c, s, a);
    }
  }

  lemma ClaimFills(s: State, w: WorkerId, q: QueueId)
    requires Owned(s) && CanClaimCommit(s, w)
    ensures InFlightOf(DoClaimCommit(s, w).db.jobs, q) == InFlightOf(s.db.jobs, q) + HeldOf(s, w, q)
    ensures InFlightOf(s.db.jobs, q) !! HeldOf(s, w, q)
  {
    ClaimTakesLocks(s, w);
    var jobs, after := s.db.jobs, DoClaimCommit(s, w).db.jobs;
    forall j ensures j in InFlightOf(after, q) <==> j in InFlightOf(jobs, q) + HeldOf(s, w, q) {
    }
  }

  lemma ClaimOverfills(s: State, w: WorkerId)
    requires Owned(s) && CanClaimCommit(s, w)
    ensures !AllFit(DoClaimCommit(s, w).db) <==> Crowds(s, w)
  {
    var t := DoClaimCommit(s, w);
    forall q | q in s.db.queues
      ensures Fits(t.db, q) <==> |HeldOf(s, w, q)| <= s.db.queues[q].concurrencyLimit - |InFlightOf(s.db.jobs, q)|
    {
      ClaimFills(s, w, q);
    }
  }

  lemma EditOverfills(s: State, t: State, q: QueueId, row: Queue)
    requires AllFit(s.db) && t.db == s.db.(queues := s.db.queues[q := row])
    ensures !AllFit(t.db) <==> |InFlightOf(s.db.jobs, q)| > row.concurrencyLimit
  {
    forall p | p in s.db.queues && p != q ensures Fits(t.db, p) {
      assert Fits(s.db, p);
    }
    assert Fits(t.db, q) <==> |InFlightOf(s.db.jobs, q)| <= row.concurrencyLimit;
  }

  lemma OthersFit(c: Config, s: State, a: Step)
    requires Owned(s) && AllFit(s.db) && Enabled(c, s, a) && !IsClaim(a) && !(a.ByClient? && a.client.SetQueue?)
    ensures AllFit(Apply(c, s, a).db)
  {
    var t := Apply(c, s, a);
    OthersAreCalm(c, s, a);
    QueuesStay(c, s, a);
    forall q | q in t.db.queues ensures Fits(t.db, q) {
      assert Fits(s.db, q);
      CalmKeepsRoom(s.db.jobs, t.db.jobs, q);
    }
  }

  /** Exactly the overfilling steps take queues that fit their limits out of them. */
  lemma StepOverfillsExactly(c: Config, s: State, a: Step)
    requires Owned(s) && AllFit(s.db) && Enabled(c, s, a)
    ensures !AllFit(Apply(c, s, a).db) <==> Overfills(s, a)
  {
    if IsClaim(a) {
      ClaimOverfills(s, a.w);
    } else if a.ByClient? && a.client.SetQueue? {
      EditOverfills(s, Apply(c, s, a), a.client.q, a.client.row);
    } else {
      OthersFit(c, s, a);
    }
  }

  lemma ReachableOverfillsExactly(c: Config, s: State, a: Step)
    requires c.Sane() && Reachable(c, s) && AllFit(s.db) && Enabled(c, s, a)
    ensures !AllFit(Apply(c, s, a).db) <==> Overfills(s, a)
  {
    ReachableInv(c, s);
    StepOverfillsExactly(c, s, a);
  }

  // ---------------------------------------------------------------- whole runs

  ghost predicate AlwaysFit(c: Config, s: State, run: seq<Step>)
    requires ValidRun(c, s, run)
    decreases |run|
  {
    AllFit(s.db) && (run != [] ==> AlwaysFit(c, Apply(c, s, run[0]), run[1..]))
  }

  ghost predicate NeverOverfills(c: Config, s: State, run: seq<Step>)
    requires ValidRun(c, s, run)
    decreases |run|
  {
    run != [] ==> !Overfills(s, run[0]) && NeverOverfills(c, Apply(c, s, run[0]), run[1..])
  }

  /** A run keeps every queue within its limit exactly when none of its steps overfills one. */
  lemma {:induction false} RunOverfillsExactly(c: Config, s: State, run: seq<Step>)
    requires c.Sane() && Inv(c, s) && AllFit(s.db) && ValidRun(c, s, run)
    ensures AlwaysFit(c, s, run) <==> NeverOverfills(c, s, run)
    decreases |run|
  {
    if run != [] {
      var t := Apply(c, s, run[0]);
      StepOverfillsExactly(c, s, run[0]);
      if AllFit(t.db) {
        StepKeepsInv(c, s, run[0]);
        RunOverfillsExactly(c, t, run[1..]);
      }
    }
  }

  // ---------------------------------------------------------------- a queue with one worker at a time

  /** A worker bound to a queue holds rows of that queue only. */
  predicate LocksInScope(s: State) {
    forall v, j :: v in s.procs && s.procs[v].queue.Some? && j in s.procs[v].locks && j in s.db.jobs ==>
      s.db.jobs[j].queue == s.procs[v].queue.value
  }

  /** Only its own main thread changes more of a worker's memory than where its futures stand. */
  predicate SameMemory(p: Proc, p': Proc) {
    && p'.queue == p.queue && p'.phase == p.phase && p'.limit == p.limit
    && p'.locks == p.locks && p'.futures.Keys == p.futures.Keys
  }

  lemma MainThreadMovesItself(c: Config, s: State, w: WorkerId, a: WorkerAct)
    requires WorkerEnabled(c, s, w, a)
    ensures var t := WorkerApply(c, s, w, a);
            && w in t.procs && t.procs == s.procs[w := t.procs[w]]
            && if a.Register? then
                 w !in s.procs && t.procs[w].locks == {} && t.procs[w].queue == a.queue && t.procs[w].limit == 0
               else
                 && Live(s, w) && t.procs[w].queue == s.procs[w].queue
                 && (t.procs[w].locks <= s.procs[w].locks
                     || (a == ClaimLock(t.procs[w].locks) && t.db.jobs == s.db.jobs))
  {
  }

  lemma OthersKeepMemory(c: Config, s: State, a: Step)
    requires Enabled(c, s, a) && !a.ByWorker?
    ensures Apply(c, s, a).procs.Keys == s.procs.Keys
    ensures forall v :: v in s.procs ==> SameMemory(s.procs[v], Apply(c, s, a).procs[v])
  {
    match a
    case ByThread(w, k, act) => ThreadIsLocal(s, w, k, act);
    case ByClient(_) =>
    case ByReaper(_) =>
    case ByScheduler(_) =>
    case Pass(_) =>
  }

  /** What a step can do to a worker's binding and to its open claim. */
  lemma LocksComeFromClaims(c: Config, s: State, a: Step, v: WorkerId)
    requires Enabled(c, s, a) && v in Apply(c, s, a).procs
    ensures var t := Apply(c, s, a);
            if a.ByWorker? && a.w == v && a.act.Register? then
              v !in s.procs && t.procs[v].locks == {} && t.procs[v].queue == a.act.queue && t.procs[v].limit == 0
            else
              && v in s.procs && t.procs[v].queue == s.procs[v].queue
              && (t.procs[v].locks <= s.procs[v].locks
                  || (a == ByWorker(v, ClaimLock(t.procs[v].locks)) && t.db.jobs == s.db.jobs))
  {
    if a.ByWorker? {
      MainThreadMovesItself(c, s, a.w, a.act);
    } else {
      OthersKeepMemory(c, s, a);
      assert SameMemory(s.procs[v], Apply(c, s, a).procs[v]);
    }
  }

  lemma StepKeepsScope(c: Config, s: State, a: Step)
    requires Owned(s) && LocksInScope(s) && Enabled(c, s, a)
    ensures LocksInScope(Apply(c, s, a))
  {
    var t := Apply(c, s, a);
    forall v, j | v in t.procs && t.procs[v].queue.Some? && j in t.procs[v].locks && j in t.db.jobs
      ensures t.db.jobs[j].queue == t.procs[v].queue.value
    {
      LocksComeFromClaims(c, s, a, v);
      if v in s.procs && j in s.procs[v].locks {
        assert LockOk(s, v);
        RowsKeepQueue(c, s, a, j);
      } else {
        assert ClaimService.Eligible(s.db, s.procs[v].queue, s.now, j);
      }
    }
  }

  lemma RowsKeepQueue(c: Config, s: State, a: Step, j: JobId)
    requires Owned(s) && Enabled(c, s, a) && j in s.db.jobs && j in Apply(c, s, a).db.jobs
    ensures Apply(c, s, a).db.jobs[j].queue == s.db.jobs[j].queue
  {
    if IsClaim(a) {
      ClaimKeepsQueue(s, a.w, j);
    } else {
      OthersAreCalm(c, s, a);
      CalmKeepsQueue(s.db.jobs, Apply(c, s, a).db.jobs, j);
    }
  }

  lemma ClaimKeepsQueue(s: State, w: WorkerId, j: JobId)
    requires Owned(s) && CanClaimCommit(s, w) && j in s.db.jobs
    ensures j in DoClaimCommit(s, w).db.jobs && DoClaimCommit(s, w).db.jobs[j].queue == s.db.jobs[j].queue
  {
    ClaimTakesLocks(s, w);
  }

  lemma CalmKeepsQueue(jobs: map<JobId, Job>, after: map<JobId, Job>, j: JobId)
    requires Calm(jobs, after) && j in jobs && j in after
    ensures after[j].queue == jobs[j].queue
  {
    assert Follows(jobs[j], after[j]);
  }

  lemma {:induction false} RunsKeepScope(c: Config, s: State, run: seq<Step>)
    requires c.Sane() && Inv(c, s) && LocksInScope(s) && ValidRun(c, s, run)
    ensures LocksInScope(Final(c, s, run))
    decreases |run|
  {
    if run != [] {
      StepKeepsScope(c, s, run[0]);
      StepKeepsInv(c, s, run[0]);
      RunsKeepScope(c, Apply(c, s, run[0]), run[1..]);
    }
  }

  predicate Elsewhere(p: Proc, q: QueueId) {
    p.queue.Some? && p.queue.value != q
  }

  predicate Deserted(s: State, q: QueueId) {
    InFlightOf(s.db.jobs, q) == {} && forall v :: v in s.procs ==> Elsewhere(s.procs[v], q) || !Live(s, v)
  }

  /**
   A worker takes over `q` only when no live process serves it and none of its jobs is in flight,
   as after a clean exit, or once a crashed worker's jobs were recovered. No worker serves every
   queue, and the limit of `q` is never lowered.
   */
  predicate TakesTurns(s: State, a: Step, q: QueueId) {
    match a
    case ByWorker(_, Register(queue, _)) => queue.Some? && (queue.value == q ==> Deserted(s, q))
    case ByClient(SetQueue(p, row)) =>
      p == q && q in s.db.queues ==> row.concurrencyLimit >= s.db.queues[q].concurrencyLimit
    case ByClient(DeleteQueue(p)) => p != q
    case _ => true
  }

  ghost predicate ServedInTurn(c: Config, s: State, run: seq<Step>, q: QueueId)
    requires ValidRun(c, s, run)
    decreases |run|
  {
    run != [] ==> TakesTurns(s, run[0], q) && ServedInTurn(c, Apply(c, s, run[0]), run[1..], q)
  }

  /** Nobody serves `q` now and none of its jobs is in flight. */
  predicate Unserved(s: State, q: QueueId) {
    q in s.db.queues && s.db.queues[q].concurrencyLimit >= 0 && Deserted(s, q)
  }

  /** The worker whose turn it is after `a`. */
  function Turn(a: Step, q: QueueId, cur: Option<WorkerId>): Option<WorkerId> {
    match a
    case ByWorker(w, Register(queue, _)) => if queue == Some(q) then Some(w) else cur
    case _ => cur
  }

  predicate AllOwnedBy(jobs: map<JobId, Job>, q: QueueId, cur: Option<WorkerId>) {
    forall j :: j in InFlightOf(jobs, q) ==> cur.Some? && jobs[j].worker == cur
  }

  /** A worker of `q` has not taken more than the limit allows. */
  predicate Modest(p: Proc, q: QueueId, limit: int) {
    && p.queue == Some(q)
    && p.limit <= limit
    && (p.locks != {} ==> |p.futures| + |p.locks| <= limit)
  }

  predicate Sole(s: State, q: QueueId, cur: Option<WorkerId>) {
    && q in s.db.queues && s.db.queues[q].concurrencyLimit >= 0 && Fits(s.db, q)
    && (forall v :: v in s.procs ==> Serves(s, v, q, cur))
    && AllOwnedBy(s.db.jobs, q, cur)
  }

  /** A process is bound elsewhere, or has stopped, or it is its turn. */
  predicate Serves(s: State, v: WorkerId, q: QueueId, cur: Option<WorkerId>)
    requires v in s.procs && q in s.db.queues
  {
    || Elsewhere(s.procs[v], q) || !Live(s, v)
    || (cur == Some(v) && Modest(s.procs[v], q, s.db.queues[q].concurrencyLimit))
  }

  /** A worker bound elsewhere takes nothing of `q`. */
  lemma OthersHoldNone(s: State, v: WorkerId, q: QueueId)
    requires LocksInScope(s) && v in s.procs && Elsewhere(s.procs[v], q)
    ensures HeldOf(s, v, q) == {}
  {
  }

  /** The claim of the worker whose turn it is fits, because everything in flight is among its futures. */
  lemma OwnClaimFits(c: Config, s: State, q: QueueId, w: WorkerId)
    requires c.Sane() && Owned(s) && Slots(c, s) && q in s.db.queues && CanClaimCommit(s, w)
    requires Modest(s.procs[w], q, s.db.queues[q].concurrencyLimit)
    requires AllOwnedBy(s.db.jobs, q, Some(w))
    ensures Fits(DoClaimCommit(s, w).db, q)
  {
    ClaimFills(s, w, q);
    SlotsBoundOwnership(c, s, w);
    SubsetSize(InFlightOf(s.db.jobs, q), OwnedBy(s, w));
    SubsetSize(HeldOf(s, w, q), s.procs[w].locks);
  }

  lemma ClaimKeepsSole(c: Config, s: State, q: QueueId, cur: Option<WorkerId>, v: WorkerId)
    requires c.Sane() && Owned(s) && Slots(c, s) && LocksInScope(s) && CanClaimCommit(s, v)
    requires q in s.db.queues && Fits(s.db, q) && Serves(s, v, q, cur)
    requires AllOwnedBy(s.db.jobs, q, cur)
    ensures Fits(DoClaimCommit(s, v).db, q)
    ensures AllOwnedBy(DoClaimCommit(s, v).db.jobs, q, cur)
  {
    ClaimFills(s, v, q);
    ClaimedIsOwned(s, q, cur, v);
    if Elsewhere(s.procs[v], q) {
      OthersHoldNone(s, v, q);
    } else {
      OwnClaimFits(c, s, q, v);
    }
  }

  lemma ClaimedIsOwned(s: State, q: QueueId, cur: Option<WorkerId>, v: WorkerId)
    requires Owned(s) && LocksInScope(s) && CanClaimCommit(s, v) && AllOwnedBy(s.db.jobs, q, cur)
    requires Elsewhere(s.procs[v], q) || cur == Some(v)
    ensures AllOwnedBy(DoClaimCommit(s, v).db.jobs, q, cur)
  {
    ClaimTakesLocks(s, v);
    ClaimFills(s, v, q);
    if Elsewhere(s.procs[v], q) {
      OthersHoldNone(s, v, q);
    }
  }

  lemma CalmKeepsSole(s: State, after: map<JobId, Job>, q: QueueId, cur: Option<WorkerId>)
    requires Calm(s.db.jobs, after) && Sole(s, q, cur)
    ensures |InFlightOf(after, q)| <= s.db.queues[q].concurrencyLimit
    ensures AllOwnedBy(after, q, cur)
  {
    CalmKeepsRoom(s.db.jobs, after, q);
    forall j | j in InFlightOf(after, q) ensures cur.Some? && after[j].worker == cur {
      assert InHand(after, j) && Follows(s.db.jobs[j], after[j]);
      assert j in InFlightOf(s.db.jobs, q);
    }
  }

  /** How a step moves the memory of the worker whose turn it is. */
  lemma WorkerStaysModest(c: Config, s: State, a: WorkerAct, q: QueueId, w: WorkerId)
    requires w in s.procs && q in s.db.queues && s.db.queues[q].concurrencyLimit >= 0
    requires Modest(s.procs[w], q, s.db.queues[q].concurrencyLimit) && WorkerEnabled(c, s, w, a)
    ensures w in WorkerApply(c, s, w, a).procs
    ensures Modest(WorkerApply(c, s, w, a).procs[w], q, s.db.queues[q].concurrencyLimit)
  {
  }

  /** Steps of others leave a worker's binding, phase, limit, locks and the keys of its futures alone. */
  lemma OthersLeaveMemory(c: Config, s: State, a: Step, v: WorkerId)
    requires Enabled(c, s, a) && v in s.procs && !(a.ByWorker? && a.w == v)
    ensures v in Apply(c, s, a).procs && SameMemory(s.procs[v], Apply(c, s, a).procs[v])
  {
    if a.ByWorker? {
      MainThreadMovesItself(c, s, a.w, a.act);
    } else {
      OthersKeepMemory(c, s, a);
    }
  }

  /** A process that has stopped does nothing more. */
  lemma StoppedStays(c: Config, s: State, a: Step, v: WorkerId)
    requires Enabled(c, s, a) && v in s.procs && !Live(s, v)
    ensures v in Apply(c, s, a).procs && !Live(Apply(c, s, a), v)
  {
    if a.ByWorker? {
      MainThreadMovesItself(c, s, a.w, a.act);
    }
    OthersLeaveMemory(c, s, a, v);
  }

  lemma ClientKeepsQueue(c: Config, s: State, a: ClientAct, q: QueueId)
    requires ClientEnabled(c, s, a) && q in s.db.queues && TakesTurns(s, ByClient(a), q)
    ensures var queues := ClientApply(c, s, a).db.queues;
            q in queues && queues[q].concurrencyLimit >= s.db.queues[q].concurrencyLimit
  {
  }

  lemma StepKeepsQueue(c: Config, s: State, a: Step, q: QueueId)
    requires Enabled(c, s, a) && q in s.db.queues && TakesTurns(s, a, q)
    ensures var queues := Apply(c, s, a).db.queues;
            q in queues && queues[q].concurrencyLimit >= s.db.queues[q].concurrencyLimit
  {
    if a.ByClient? {
      ClientKeepsQueue(c, s, a.client, q);
    } else {
      ProcessesKeepQueues(c, s, a);
    }
  }

  /** A higher limit leaves a worker modest, and so does a step that only moves its threads. */
  lemma ModestStays(p: Proc, p': Proc, q: QueueId, limit: int, limit': int)
    requires Modest(p, q, limit) && limit <= limit'
    requires SameMemory(p, p')
    ensures Modest(p', q, limit')
  {
    assert |p'.futures| == |p'.futures.Keys| == |p.futures.Keys| == |p.futures|;
  }

  lemma ModestServesOn(c: Config, s: State, a: Step, v: WorkerId, q: QueueId)
    requires Enabled(c, s, a) && TakesTurns(s, a, q) && q in s.db.queues && s.db.queues[q].concurrencyLimit >= 0
    requires Live(s, v) && Modest(s.procs[v], q, s.db.queues[q].concurrencyLimit)
    ensures var t := Apply(c, s, a);
            v in t.procs && q in t.db.queues && Modest(t.procs[v], q, t.db.queues[q].concurrencyLimit)
  {
    var t := Apply(c, s, a);
    StepKeepsQueue(c, s, a, q);
    if a.ByWorker? && a.w == v {
      ProcessesKeepQueues(c, s, a);
      WorkerStaysModest(c, s, a.act, q, v);
    } else {
      OthersLeaveMemory(c, s, a, v);
      ModestStays(s.procs[v], t.procs[v], q, s.db.queues[q].concurrencyLimit, t.db.queues[q].concurrencyLimit);
    }
  }

  /** A live worker of `q` keeps its turn. */
  lemma TurnIsKept(s: State, a: Step, v: WorkerId, q: QueueId)
    requires TakesTurns(s, a, q) && Live(s, v) && !Elsewhere(s.procs[v], q)
    ensures Turn(a, q, Some(v)) == Some(v)
  {
  }

  lemma OneServesOn(c: Config, s: State, a: Step, v: WorkerId, q: QueueId, cur: Option<WorkerId>)
    requires Enabled(c, s, a) && TakesTurns(s, a, q) && q in s.db.queues && s.db.queues[q].concurrencyLimit >= 0
    requires v in s.procs && Serves(s, v, q, cur) && v in Apply(c, s, a).procs && q in Apply(c, s, a).db.queues
    ensures Serves(Apply(c, s, a), v, q, Turn(a, q, cur))
  {
    if Elsewhere(s.procs[v], q) {
      LocksComeFromClaims(c, s, a, v);
    } else if !Live(s, v) {
      StoppedStays(c, s, a, v);
    } else {
      ModestServesOn(c, s, a, v, q);
      TurnIsKept(s, a, v, q);
    }
  }

  lemma FreshServes(c: Config, s: State, a: Step, v: WorkerId, q: QueueId, cur: Option<WorkerId>)
    requires Enabled(c, s, a) && TakesTurns(s, a, q) && v !in s.procs && v in Apply(c, s, a).procs
    requires q in Apply(c, s, a).db.queues && Apply(c, s, a).db.queues[q].concurrencyLimit >= 0
    ensures Serves(Apply(c, s, a), v, q, Turn(a, q, cur))
  {
    LocksComeFromClaims(c, s, a, v);
  }

  lemma ProcsStaySole(c: Config, s: State, a: Step, q: QueueId, cur: Option<WorkerId>)
    requires Sole(s, q, cur) && Enabled(c, s, a) && TakesTurns(s, a, q)
    ensures var t := Apply(c, s, a);
            q in t.db.queues && forall v :: v in t.procs ==> Serves(t, v, q, Turn(a, q, cur))
  {
    var t := Apply(c, s, a);
    StepKeepsQueue(c, s, a, q);
    forall v | v in t.procs ensures Serves(t, v, q, Turn(a, q, cur)) {
      if v in s.procs {
        OneServesOn(c, s, a, v, q, cur);
      } else {
        FreshServes(c, s, a, v, q, cur);
      }
    }
  }

  /** The turn passes only when nothing is in flight. */
  lemma TurnKeepsOwners(c: Config, s: State, a: Step, q: QueueId, cur: Option<WorkerId>)
    requires Enabled(c, s, a) && TakesTurns(s, a, q) && AllOwnedBy(Apply(c, s, a).db.jobs, q, cur)
    ensures AllOwnedBy(Apply(c, s, a).db.jobs, q, Turn(a, q, cur))
  {
    if Turn(a, q, cur) != cur {
      assert Apply(c, s, a).db.jobs == s.db.jobs;
    }
  }

  lemma StepKeepsSole(c: Config, s: State, a: Step, q: QueueId, cur: Option<WorkerId>)
    requires c.Sane() && Inv(c, s) && LocksInScope(s) && Sole(s, q, cur) && Enabled(c, s, a) && TakesTurns(s, a, q)
    ensures Sole(Apply(c, s, a), q, Turn(a, q, cur))
  {
    ProcsStaySole(c, s, a, q, cur);
    StepKeepsQueue(c, s, a, q);
    if IsClaim(a) {
      ClaimKeepsSole(c, s, q, cur, a.w);
    } else {
      OthersAreCalm(c, s, a);
      CalmKeepsSole(s, Apply(c, s, a).db.jobs, q, cur);
    }
    TurnKeepsOwners(c, s, a, q, cur);
  }

  lemma {:induction false} RunsKeepSole(c: Config, s: State, run: seq<Step>, q: QueueId, cur: Option<WorkerId>)
    requires c.Sane() && Inv(c, s) && LocksInScope(s) && Sole(s, q, cur)
    requires ValidRun(c, s, run) && ServedInTurn(c, s, run, q)
    ensures q in Final(c, s, run).db.queues && Fits(Final(c, s, run).db, q)
    decreases |run|
  {
    if run != [] {
      StepKeepsSole(c, s, run[0], q, cur);
      StepKeepsScope(c, s, run[0]);
      StepKeepsInv(c, s, run[0]);
      RunsKeepSole(c, Apply(c, s, run[0]), run[1..], q, Turn(run[0], q, cur));
    }
  }

  /**
   One worker at a time: in every run in which each worker of the queue is bound to it and takes
   over after the last one has stopped and left nothing in flight, and in which the limit is never
   lowered, the queue's jobs in flight fit its limit.
   */
  lemma SoleWorkerFits(c: Config, s: State, run: seq<Step>, q: QueueId)
    requires c.Sane() && Reachable(c, s) && Unserved(s, q)
    requires ValidRun(c, s, run) && ServedInTurn(c, s, run, q)
    ensures q in Final(c, s, run).db.queues && Fits(Final(c, s, run).db, q)
  {
    ReachableInv(c, s);
    ReachableScope(c, s);
    RunsKeepSole(c, s, run, q, None);
  }

  lemma ReachableScope(c: Config, s: State)
    requires c.Sane() && Reachable(c, s)
    ensures LocksInScope(s)
  {
    var start :| ValidRun(c, INITIAL, start) && Final(c, INITIAL, start) == s;
    InitialIsReachable(c);
    ReachableInv(c, INITIAL);
    RunsKeepScope(c, INITIAL, start);
  }
}
