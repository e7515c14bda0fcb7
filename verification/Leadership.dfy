/**
 Any number of scheduler processes starting, leading, crashing and exiting, with ticks that
 read first and commit later (app/workers/scheduler.py, app/services/scheduler_service.py).
 A tick may commit its templates one at a time: that allows every way the code groups them.
 */
module Leadership {
  import opened Model
  import opened SchedulerService
  import LockService

  type SchedulerId = nat

  /** `durable`: the connection that holds the lock lives as long as its process. */
  datatype Config = Config(durable: bool, getNext: (CronExpr, Time) -> Time)

  /** ADVISORY_LOCK_ID of the settings. */
  const LOCK: LockService.LockId := 12345

  /** What a tick has read and not yet written back. */
  datatype Tick = Tick(rows: map<JobId, Job>, todo: set<JobId>, at: Time)

  /** The due jobs a promotion has read and not yet committed. */
  datatype Promotion = Promotion(rows: map<JobId, Job>, batch: set<JobId>, at: Time)

  datatype Proc = Proc(hasLock: bool, promotion: Option<Promotion>, tick: Option<Tick>)

  datatype Occurrence = Occurrence(template: JobId, at: Time)

  /**
   `locks` is the server's table of advisory locks; a process is one session.
   `fired`, `moves` and `used` are history: which occurrence each child was spawned for, how
   often each template's instant was replaced by another, and all ids ever assigned.
   */
  datatype State = State(
    jobs: map<JobId, Job>,
    now: Time,
    locks: LockService.Locks,
    procs: map<SchedulerId, Proc>,
    used: set<JobId>,
    fired: map<JobId, Occurrence>,
    moves: map<JobId, nat>)

  datatype Step =
    | Join(p: SchedulerId)
    | TryLock(p: SchedulerId)
    | ReadDue(p: SchedulerId, batch: set<JobId>)
    | Promote(p: SchedulerId)
    | Read(p: SchedulerId, batch: set<JobId>)
    | Handle(p: SchedulerId, t: JobId, child: JobId)
    | EndTick(p: SchedulerId)
    | Exit(p: SchedulerId)
    | Crash(p: SchedulerId)
    | LoseSession(p: SchedulerId)
    | Others(after: map<JobId, Job>)
    | Pass(until: Time)

  predicate IsTemplate(job: Job) {
    job.status == Scheduled && job.cron.Some?
  }

  /** Equal but for the references to other jobs, which the deletion of a queue may clear. */
  predicate SameButLinks(a: Job, b: Job) {
    b == a.(parent := b.parent, dependsOn := b.dependsOn)
  }

  /** Everybody else creates, runs and removes jobs, but leaves those that wait for their time alone. */
  predicate LeavesWaiting(jobs: map<JobId, Job>, after: map<JobId, Job>, used: set<JobId>) {
    && (forall j :: j in jobs && jobs[j].status == Scheduled ==> j in after && SameButLinks(jobs[j], after[j]))
    && (forall j :: j in after && j in used && IsTemplate(after[j]) ==> j in jobs && SameButLinks(jobs[j], after[j]))
  }

  function OnlyJobs(jobs: map<JobId, Job>): Db {
    Db(map[], jobs, map[], map[], map[])
  }

  predicate CanPromote(s: State, p: SchedulerId) {
    p in s.procs && s.procs[p].promotion.Some? && s.procs[p].promotion.value.batch <= s.jobs.Keys
  }

  /** The commit writes the two columns of every row it read, whatever they hold by now. */
  function DoPromote(s: State, p: SchedulerId): State
    requires CanPromote(s, p)
  {
    s.(jobs := Promoted(OnlyJobs(s.jobs), s.procs[p].promotion.value.batch).jobs,
       procs := s.procs[p := s.procs[p].(promotion := None)])
  }

  predicate Ticking(s: State, p: SchedulerId) {
    p in s.procs && s.procs[p].tick.Some?
  }

  /** What a commit may write: a template read and not yet handled, whose row still exists. */
  predicate CanHandle(s: State, p: SchedulerId, t: JobId, child: JobId) {
    && Ticking(s, p) && child !in s.used && t in s.jobs
    && var tick := s.procs[p].tick.value;
       t in tick.todo && t in tick.rows && tick.rows[t].cron.Some?
  }

  predicate Enabled(c: Config, s: State, a: Step) {
    match a
    case Join(p) => p !in s.procs
    case TryLock(p) => p in s.procs && !s.procs[p].hasLock
    case ReadDue(p, batch) =>
      && p in s.procs && s.procs[p].hasLock && s.procs[p].promotion.None? && s.procs[p].tick.None?
      && DueBatch(OnlyJobs(s.jobs), None, s.now, BATCH_SIZE, batch)
    case Promote(p) => CanPromote(s, p)
    case Read(p, batch) =>
      && p in s.procs && s.procs[p].hasLock && s.procs[p].promotion.None? && s.procs[p].tick.None?
      && forall t :: t in batch ==> t in s.jobs && IsTemplate(s.jobs[t])
    case Handle(p, t, child) => CanHandle(s, p, t, child)
    case EndTick(p) => p in s.procs
    case Exit(p) => p in s.procs && s.procs[p].promotion.None? && s.procs[p].tick.None?
    case Crash(p) => p in s.procs
    case LoseSession(p) => !c.durable && LockService.Holds(s.locks, LOCK, p)
    case Others(after) => LeavesWaiting(s.jobs, after, s.used)
    case Pass(until) => s.now <= until
  }

  function Moves(s: State, t: JobId): nat {
    if t in s.moves then s.moves[t] else 0
  }

  /** The one column of the template that was changed, and the child, both from the row that was read. */
  function Written(current: Job, t: JobId, row: Job, child: JobId, getNext: (CronExpr, Time) -> Time, at: Time)
    : map<JobId, Job>
    requires row.cron.Some?
  {
    var next := current.(scheduledAt := Advanced(row, getNext, at).scheduledAt);
    if Fires(row, at) then map[t := next, child := Child(t, row, at)]
    else if row.scheduledAt.None? then map[t := next]
    else map[]
  }

  /** The commit writes back what the tick computed from the rows it read. */
  function DoHandle(c: Config, s: State, p: SchedulerId, t: JobId, child: JobId): State
    requires CanHandle(s, p, t, child)
  {
    var tick := s.procs[p].tick.value;
    var row := tick.rows[t];
    var jobs := s.jobs + Written(s.jobs[t], t, row, child, c.getNext, tick.at);
    var moved := s.jobs[t].scheduledAt.Some? && jobs[t].scheduledAt != s.jobs[t].scheduledAt;
    s.(jobs := jobs,
       used := s.used + {child},
       fired := if Fires(row, tick.at) then s.fired[child := Occurrence(t, row.scheduledAt.value)] else s.fired,
       moves := if moved then s.moves[t := Moves(s, t) + 1] else s.moves,
       procs := s.procs[p := s.procs[p].(tick := Some(tick.(todo := tick.todo - {t})))])
  }

  /** A leader releases the lock; then the connection closes. */
  function AfterExit(s: State, p: SchedulerId): LockService.Locks
    requires p in s.procs
  {
    LockService.Closed(if s.procs[p].hasLock then LockService.Released(s.locks, LOCK, p) else s.locks, p)
  }

  function Apply(c: Config, s: State, a: Step): State
    requires Enabled(c, s, a)
  {
    match a
    case Join(p) => s.(procs := s.procs[p := Proc(false, None, None)])
    case TryLock(p) =>
      if LockService.Grants(s.locks, LOCK, p)
      then s.(locks := LockService.Acquired(s.locks, LOCK, p), procs := s.procs[p := s.procs[p].(hasLock := true)])
      else s
    case ReadDue(p, batch) =>
      s.(procs := s.procs[p := s.procs[p].(promotion := Some(Promotion(s.jobs, batch, s.now)))])
    case Promote(p) => DoPromote(s, p)
    case Read(p, batch) => s.(procs := s.procs[p := s.procs[p].(tick := Some(Tick(s.jobs, batch, s.now)))])
    case Handle(p, t, child) => DoHandle(c, s, p, t, child)
    case EndTick(p) => s.(procs := s.procs[p := s.procs[p].(promotion := None, tick := None)])
    case Exit(p) => s.(procs := s.procs - {p}, locks := AfterExit(s, p))
    case Crash(p) => s.(procs := s.procs - {p}, locks := LockService.Closed(s.locks, p))
    case LoseSession(p) => s.(locks := LockService.Closed(s.locks, p))
    case Others(after) => s.(jobs := after, used := s.used + after.Keys)
    case Pass(until) => s.(now := until)
  }

  const INITIAL := State(map[], 0, map[], map[], {}, map[], map[])

  predicate ValidRun(c: Config, s: State, run: seq<Step>)
    decreases |run|
  {
    run == [] || (Enabled(c, s, run[0]) && ValidRun(c, Apply(c, s, run[0]), run[1..]))
  }

  function Final(c: Config, s: State, run: seq<Step>): State
    requires ValidRun(c, s, run)
    decreases |run|
  {
    if run == [] then s else Final(c, Apply(c, s, run[0]), run[1..])
  }

  // ---------------------------------------------------------------- invariant

  /** The lock table and the flags agree, so at most one process believes itself the leader. */
  predicate LeaderOk(s: State) {
    && (LOCK in s.locks ==> s.locks[LOCK].session in s.procs && s.procs[s.locks[LOCK].session].hasLock)
    && (forall p :: p in s.procs && s.procs[p].hasLock ==> LockService.Holds(s.locks, LOCK, p))
  }

  /** Only the leader has an open tick, and what it read of its templates is still so. */
  predicate TickOk(s: State, p: SchedulerId)
    requires p in s.procs
  {
    s.procs[p].tick.Some? ==>
      && s.procs[p].hasLock && s.procs[p].promotion.None?
      && var tick := s.procs[p].tick.value;
         && tick.at <= s.now
         && forall t :: t in tick.todo ==>
              t in tick.rows && t in s.jobs && IsTemplate(s.jobs[t]) && SameButLinks(tick.rows[t], s.jobs[t])
  }

  /** Only the leader has an open promotion, and every row it read is still as it was. */
  predicate PromotionOk(s: State, p: SchedulerId)
    requires p in s.procs
  {
    s.procs[p].promotion.Some? ==>
      && s.procs[p].hasLock
      && var promotion := s.procs[p].promotion.value;
         && promotion.at <= s.now
         && DueBatch(OnlyJobs(promotion.rows), None, promotion.at, BATCH_SIZE, promotion.batch)
         && forall j :: j in promotion.batch ==>
              && Due(OnlyJobs(promotion.rows), None, promotion.at, j)
              && j in s.jobs && SameButLinks(promotion.rows[j], s.jobs[j])
  }

  /** A template that is still there has moved past every occurrence it has fired. */
  predicate FiredOk(s: State, child: JobId)
    requires child in s.fired
  {
    var o := s.fired[child];
    && child in s.used && o.template in s.used
    && (o.template in s.jobs && IsTemplate(s.jobs[o.template]) ==>
          s.jobs[o.template].scheduledAt.Some? && o.at < s.jobs[o.template].scheduledAt.value)
  }

  predicate OnceEach(s: State) {
    forall i, j :: i in s.fired && j in s.fired && s.fired[i] == s.fired[j] ==> i == j
  }

  predicate Inv(s: State) {
    && LeaderOk(s)
    && (forall p :: p in s.procs ==> TickOk(s, p) && PromotionOk(s, p))
    && s.jobs.Keys <= s.used
    && (forall i :: i in s.fired ==> FiredOk(s, i))
    && OnceEach(s)
  }

  /** A due template of the tick moves strictly forward and stays a template. */
  lemma HandledMovesOn(c: Config, matches: (CronExpr, Time) -> bool, s: State, p: SchedulerId, t: JobId, child: JobId)
    requires Iterates(matches, c.getNext) && Inv(s) && CanHandle(s, p, t, child)
    ensures var u := DoHandle(c, s, p, t, child);
            && t in u.jobs && IsTemplate(u.jobs[t]) && t != child
            && (forall j :: j in s.jobs && j != t ==> j in u.jobs && u.jobs[j] == s.jobs[j])
            && (forall j :: j in u.jobs && j !in s.jobs ==> j == child && !IsTemplate(u.jobs[j]))
            && (s.jobs[t].scheduledAt.Some? ==>
                  u.jobs[t].scheduledAt.Some? && s.jobs[t].scheduledAt.value <= u.jobs[t].scheduledAt.value)
            && (u.fired != s.fired ==>
                  && s.jobs[t].scheduledAt.Some? && u.jobs[t].scheduledAt.Some?
                  && u.fired == s.fired[child := Occurrence(t, s.jobs[t].scheduledAt.value)]
                  && s.jobs[t].scheduledAt.value < u.jobs[t].scheduledAt.value)
  {
    assert TickOk(s, p);
    var tick := s.procs[p].tick.value;
    if Fires(tick.rows[t], tick.at) {
      FiringAdvances(matches, c.getNext, tick.rows[t], tick.at);
    }
  }

  lemma HandleKeepsFired(c: Config, matches: (CronExpr, Time) -> bool, s: State, p: SchedulerId, t: JobId, child: JobId)
    requires Iterates(matches, c.getNext) && Inv(s) && CanHandle(s, p, t, child)
    ensures var u := DoHandle(c, s, p, t, child);
            OnceEach(u) && forall i :: i in u.fired ==> FiredOk(u, i)
  {
    var u := DoHandle(c, s, p, t, child);
    HandledMovesOn(c, matches, s, p, t, child);
    forall i | i in u.fired ensures FiredOk(u, i) {
      if i in s.fired && i != child {
        assert FiredOk(s, i);
      }
    }
    forall i, j | i in u.fired && j in u.fired && u.fired[i] == u.fired[j] ensures i == j {
      assert i in s.fired ==> FiredOk(s, i);
      assert j in s.fired ==> FiredOk(s, j);
    }
  }

  lemma HandleKeepsInv(c: Config, matches: (CronExpr, Time) -> bool, s: State, p: SchedulerId, t: JobId, child: JobId)
    requires Iterates(matches, c.getNext) && Inv(s) && CanHandle(s, p, t, child)
    ensures Inv(DoHandle(c, s, p, t, child))
  {
    var u := DoHandle(c, s, p, t, child);
    HandledMovesOn(c, matches, s, p, t, child);
    HandleKeepsFired(c, matches, s, p, t, child);
    assert TickOk(s, p);
    forall q | q in u.procs ensures TickOk(u, q) && PromotionOk(u, q) {
      assert TickOk(s, q) && PromotionOk(s, q);
    }
  }

  lemma OthersKeepInv(s: State, after: map<JobId, Job>)
    requires Inv(s) && LeavesWaiting(s.jobs, after, s.used)
    ensures Inv(s.(jobs := after, used := s.used + after.Keys))
  {
    var u := s.(jobs := after, used := s.used + after.Keys);
    forall i | i in u.fired ensures FiredOk(u, i) {
      assert FiredOk(s, i);
    }
    forall p | p in u.procs ensures TickOk(u, p) && PromotionOk(u, p) {
      assert TickOk(s, p) && PromotionOk(s, p);
    }
  }

  lemma PromoteKeepsInv(s: State, p: SchedulerId)
    requires Inv(s) && CanPromote(s, p)
    ensures Inv(DoPromote(s, p))
  {
    var u := DoPromote(s, p);
    assert PromotionOk(s, p);
    forall i | i in u.fired ensures FiredOk(u, i) {
      assert FiredOk(s, i);
    }
    forall q | q in u.procs ensures TickOk(u, q) && PromotionOk(u, q) {
      assert TickOk(s, q) && PromotionOk(s, q);
    }
  }

  lemma ProcessStepKeepsInv(c: Config, s: State, a: Step)
    requires c.durable && Inv(s) && Enabled(c, s, a) && !a.Handle? && !a.Promote? && !a.Others?
    ensures Inv(Apply(c, s, a))
  {
    var u := Apply(c, s, a);
    forall i | i in u.fired ensures FiredOk(u, i) {
      assert FiredOk(s, i);
    }
    forall p | p in u.procs ensures TickOk(u, p) && PromotionOk(u, p) {
      ProcessStaysOk(c, s, a, p);
    }
  }

  lemma ProcessStaysOk(c: Config, s: State, a: Step, p: SchedulerId)
    requires c.durable && Inv(s) && Enabled(c, s, a) && !a.Handle? && !a.Promote? && !a.Others?
    requires p in Apply(c, s, a).procs
    ensures TickOk(Apply(c, s, a), p) && PromotionOk(Apply(c, s, a), p)
  {
    assert p in s.procs ==> TickOk(s, p) && PromotionOk(s, p);
  }

  lemma StepKeepsInv(c: Config, matches: (CronExpr, Time) -> bool, s: State, a: Step)
    requires c.durable && Iterates(matches, c.getNext) && Inv(s) && Enabled(c, s, a)
    ensures Inv(Apply(c, s, a))
  {
    if a.Handle? {
      HandleKeepsInv(c, matches, s, a.p, a.t, a.child);
    } else if a.Promote? {
      PromoteKeepsInv(s, a.p);
    } else if a.Others? {
      OthersKeepInv(s, a.after);
    } else {
      ProcessStepKeepsInv(c, s, a);
    }
  }

  lemma {:induction false} RunsKeepInv(c: Config, matches: (CronExpr, Time) -> bool, s: State, run: seq<Step>)
    requires c.durable && Iterates(matches, c.getNext) && Inv(s) && ValidRun(c, s, run)
    ensures Inv(Final(c, s, run))
    decreases |run|
  {
    if run != [] {
      StepKeepsInv(c, matches, s, run[0]);
      RunsKeepInv(c, matches, Apply(c, s, run[0]), run[1..]);
    }
  }

  // ---------------------------------------------------------------- what it says

  predicate SingleLeader(s: State) {
    forall p, q :: p in s.procs && q in s.procs && s.procs[p].hasLock && s.procs[q].hasLock ==> p == q
  }

  /** In every run at most one process leads, and no occurrence of a template has two children. */
  ghost predicate Safe(c: Config) {
    forall run :: ValidRun(c, INITIAL, run) ==>
      SingleLeader(Final(c, INITIAL, run)) && OnceEach(Final(c, INITIAL, run))
  }

  lemma {:induction false} RunsCompose(c: Config, s: State, a: seq<Step>, b: seq<Step>)
    requires ValidRun(c, s, a) && ValidRun(c, Final(c, s, a), b)
    ensures ValidRun(c, s, a + b) && Final(c, s, a + b) == Final(c, Final(c, s, a), b)
    decreases |a|
  {
    if a == [] {
      assert a + b == b;
    } else {
      assert (a + b)[0] == a[0] && (a + b)[1..] == a[1..] + b;
      RunsCompose(c, Apply(c, s, a[0]), a[1..], b);
    }
  }

  lemma RunExtends(c: Config, s: State, run: seq<Step>, a: Step)
    requires ValidRun(c, s, run) && Enabled(c, Final(c, s, run), a)
    ensures ValidRun(c, s, run + [a]) && Final(c, s, run + [a]) == Apply(c, Final(c, s, run), a)
  {
    var t := Final(c, s, run);
    assert [a][1..] == [];
    assert ValidRun(c, Apply(c, t, a), []);
    assert ValidRun(c, t, [a]) && Final(c, t, [a]) == Apply(c, t, a);
    RunsCompose(c, s, run, [a]);
  }

  const TEMPLATE := Job(0, Scheduled, "", 0, 0, Some(0), Some("* * * * *"), 0, 3, None, None, None, None)

  const READ := Tick(map[0 := TEMPLATE], {0}, 0)

  /** A leader reads a due template and then loses its session. */
  const DISOWNED := State(map[0 := TEMPLATE], 0, map[], map[1 := Proc(true, None, Some(READ))], {0}, map[], map[])

  /** Another takes the lock and reads the same row. */
  const SPLIT :=
    State(map[0 := TEMPLATE], 0, map[LOCK := LockService.Hold(2, 1)],
          map[1 := Proc(true, None, Some(READ)), 2 := Proc(true, None, Some(READ))], {0}, map[], map[])

  lemma LeaderLosesSession(c: Config) returns (run: seq<Step>)
    requires !c.durable
    ensures ValidRun(c, INITIAL, run) && Final(c, INITIAL, run) == DISOWNED
  {
    var jobs := map[0 := TEMPLATE];
    run := [];
    RunExtends(c, INITIAL, run, Others(jobs)); run := run + [Others(jobs)];
    RunExtends(c, INITIAL, run, Join(1)); run := run + [Join(1)];
    RunExtends(c, INITIAL, run, TryLock(1)); run := run + [TryLock(1)];
    RunExtends(c, INITIAL, run, Read(1, {0})); run := run + [Read(1, {0})];
    RunExtends(c, INITIAL, run, LoseSession(1)); run := run + [LoseSession(1)];
  }

  lemma SecondLeaderReads(c: Config) returns (run: seq<Step>)
    requires !c.durable
    ensures ValidRun(c, INITIAL, run) && Final(c, INITIAL, run) == SPLIT
  {
    run := LeaderLosesSession(c);
    RunExtends(c, INITIAL, run, Join(2)); run := run + [Join(2)];
    RunExtends(c, INITIAL, run, TryLock(2)); run := run + [TryLock(2)];
    RunExtends(c, INITIAL, run, Read(2, {0})); run := run + [Read(2, {0})];
  }

  /**
   The flag is never rechecked. If the lock's connection can drop under a running leader, a
   second one takes over while the first still writes, and one occurrence fires twice.
   */
  lemma TwoLeaders(c: Config) returns (run: seq<Step>)
    requires !c.durable
    ensures ValidRun(c, INITIAL, run)
    ensures !SingleLeader(Final(c, INITIAL, run)) && !OnceEach(Final(c, INITIAL, run))
  {
    run := SecondLeaderReads(c);
    RunExtends(c, INITIAL, run, Handle(1, 0, 1)); run := run + [Handle(1, 0, 1)];
    var s := Final(c, INITIAL, run);
    assert s.fired == map[1 := Occurrence(0, 0)] && s.used == {0, 1};
    RunExtends(c, INITIAL, run, Handle(2, 0, 2)); run := run + [Handle(2, 0, 2)];
    var t := Final(c, INITIAL, run);
    assert t.fired[1] == t.fired[2] && t.procs[1].hasLock && t.procs[2].hasLock;
  }

  /** Election is safe for every number of processes exactly when the lock lives with its holder. */
  lemma ElectionIsSafe(c: Config, matches: (CronExpr, Time) -> bool)
    requires Iterates(matches, c.getNext)
    ensures Safe(c) <==> c.durable
  {
    if c.durable {
      forall run | ValidRun(c, INITIAL, run)
        ensures SingleLeader(Final(c, INITIAL, run)) && OnceEach(Final(c, INITIAL, run))
      {
        RunsKeepInv(c, matches, INITIAL, run);
      }
    } else {
      var run := TwoLeaders(c);
      assert !SingleLeader(Final(c, INITIAL, run));
    }
  }

  predicate Leads(s: State, p: SchedulerId) {
    p in s.procs && s.procs[p].hasLock
  }

  /**
   In every run with a durable lock, whoever asks for the lock while nobody leads becomes the
   leader, and whoever asks while another leads changes nothing.
   */
  lemma CandidateLeads(c: Config, matches: (CronExpr, Time) -> bool, run: seq<Step>, p: SchedulerId)
    requires c.durable && Iterates(matches, c.getNext) && ValidRun(c, INITIAL, run)
    requires p in Final(c, INITIAL, run).procs && !Leads(Final(c, INITIAL, run), p)
    ensures var s := Final(c, INITIAL, run);
            && Enabled(c, s, TryLock(p))
            && if exists q :: Leads(s, q) then Apply(c, s, TryLock(p)) == s else Leads(Apply(c, s, TryLock(p)), p)
  {
    RunsKeepInv(c, matches, INITIAL, run);
    var s := Final(c, INITIAL, run);
    assert LOCK in s.locks ==> Leads(s, s.locks[LOCK].session);
  }

  /** When a leader exits or crashes the lock is free, so the next candidate leads. */
  lemma LeaderGivesWay(c: Config, matches: (CronExpr, Time) -> bool, run: seq<Step>, p: SchedulerId, a: Step,
                       q: SchedulerId)
    requires c.durable && Iterates(matches, c.getNext) && ValidRun(c, INITIAL, run)
    requires Leads(Final(c, INITIAL, run), p)
    requires (a == Exit(p) || a == Crash(p)) && Enabled(c, Final(c, INITIAL, run), a)
    requires q in Final(c, INITIAL, run).procs && q != p
    ensures var t := Apply(c, Final(c, INITIAL, run), a);
            && LOCK !in t.locks && (forall r :: !Leads(t, r))
            && Enabled(c, t, TryLock(q)) && Leads(Apply(c, t, TryLock(q)), q)
  {
    RunsKeepInv(c, matches, INITIAL, run);
    var s := Final(c, INITIAL, run);
    assert LockService.Holds(s.locks, LOCK, p);
  }

  // ---------------------------------------------------------------- one child per move

  function ChildrenOf(s: State, t: JobId): set<JobId> {
    set i | i in s.fired && s.fired[i].template == t
  }

  ghost predicate Counted(s: State) {
    forall t :: |ChildrenOf(s, t)| == Moves(s, t)
  }

  /** A commit adds one child to the template it moves on, and none to any other. */
  lemma HandleCounts(c: Config, matches: (CronExpr, Time) -> bool, s: State, p: SchedulerId, t: JobId, child: JobId)
    requires Iterates(matches, c.getNext) && Inv(s) && CanHandle(s, p, t, child)
    ensures var u := DoHandle(c, s, p, t, child);
            forall v :: |ChildrenOf(u, v)| - |ChildrenOf(s, v)| == Moves(u, v) - Moves(s, v)
  {
    var u := DoHandle(c, s, p, t, child);
    assert TickOk(s, p);
    assert child !in s.fired by {
      assert child in s.fired ==> FiredOk(s, child);
    }
    var tick := s.procs[p].tick.value;
    if Fires(tick.rows[t], tick.at) {
      FiringAdvances(matches, c.getNext, tick.rows[t], tick.at);
    }
    FiredOneMore(s, u, t, child);
  }

  lemma FiredOneMore(s: State, u: State, t: JobId, child: JobId)
    requires child !in s.fired
    requires u.fired == s.fired ||
               (child in u.fired && u.fired[child].template == t && u.fired == s.fired[child := u.fired[child]])
    ensures forall v :: |ChildrenOf(u, v)| == |ChildrenOf(s, v)| + (if u.fired != s.fired && v == t then 1 else 0)
  {
    forall v ensures |ChildrenOf(u, v)| == |ChildrenOf(s, v)| + (if u.fired != s.fired && v == t then 1 else 0) {
      if u.fired != s.fired && v == t {
        assert ChildrenOf(u, v) == ChildrenOf(s, v) + {child};
      } else {
        assert ChildrenOf(u, v) == ChildrenOf(s, v);
      }
    }
  }

  /** In every run a template has had exactly one child for each time its instant moved on. */
  lemma {:induction false} OneChildPerMove(c: Config, matches: (CronExpr, Time) -> bool, s: State, run: seq<Step>)
    requires c.durable && Iterates(matches, c.getNext) && Inv(s) && Counted(s) && ValidRun(c, s, run)
    ensures Counted(Final(c, s, run))
    decreases |run|
  {
    if run != [] {
      var u := Apply(c, s, run[0]);
      StepKeepsInv(c, matches, s, run[0]);
      if run[0].Handle? {
        HandleCounts(c, matches, s, run[0].p, run[0].t, run[0].child);
        forall t ensures |ChildrenOf(u, t)| == Moves(u, t) {
          assert |ChildrenOf(s, t)| == Moves(s, t);
        }
      } else {
        forall t ensures |ChildrenOf(u, t)| == Moves(u, t) {
          assert |ChildrenOf(s, t)| == Moves(s, t);
          assert ChildrenOf(u, t) == ChildrenOf(s, t);
        }
      }
      OneChildPerMove(c, matches, u, run[1..]);
    }
  }

  /** Under one leader a commit does to the table exactly what an undisturbed tick would. */
  lemma CommitIsTick(c: Config, s: State, p: SchedulerId, t: JobId, child: JobId)
    requires Inv(s) && CanHandle(s, p, t, child)
    ensures Ticked(s.jobs, DoHandle(c, s, p, t, child).jobs, {t}, map[t := child], c.getNext, s.procs[p].tick.value.at)
  {
    assert TickOk(s, p);
    var at := s.procs[p].tick.value.at;
    SessionOpens(s.jobs, map[t := child], c.getNext, at);
    assert s.jobs + map[] == s.jobs && {} + {t} == {t};
    TickOneMore(s.jobs, s.jobs, {}, t, map[t := child], c.getNext, at);
    var row := s.procs[p].tick.value.rows[t];
    assert Written(s.jobs[t], t, row, child, c.getNext, at) == Changes(t, s.jobs[t], child, c.getNext, at);
  }

  /**
   Under one leader the commit of a promotion is what an atomic promotion would do: every job it
   read is still scheduled and due, at most a batch of them, and the table it leaves is that of
   promoting them now. The batch was the best one when it was read.
   */
  lemma PromotionIsAtomic(s: State, p: SchedulerId)
    requires Inv(s) && CanPromote(s, p)
    ensures var promotion := s.procs[p].promotion.value;
            && promotion.batch <= DueSet(OnlyJobs(s.jobs), None, s.now) && |promotion.batch| <= BATCH_SIZE
            && DoPromote(s, p).jobs == Promoted(OnlyJobs(s.jobs), promotion.batch).jobs
            && DueBatch(OnlyJobs(promotion.rows), None, promotion.at, BATCH_SIZE, promotion.batch)
  {
    assert PromotionOk(s, p);
  }
}
