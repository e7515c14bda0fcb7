/**
 The services' methods, run without interruption, are runs of the protocol: the requests of a
 client, an attempt of `run_job`, a reaper cycle, and a scheduler tick. (A pass of the worker loop
 is in WorkerProcess.)
 */
module Refinement {
  import opened Model
  import opened Keys
  import opened Protocol
  import DlqService
  import ExecutorService
  import HeartbeatService
  import JobService
  import QueueService
  import ReaperService
  import RetryService
  import SchedulerService

  // ---------------------------------------------------------------- requests

  /** Whatever `create_job` answers: either a step of the protocol leaves its table, or nothing changed. */
  lemma SubmissionIsAStep(c: Config, s: State, q: QueueId, data: JobCreate, header: Option<string>, newId: JobId,
                          db': Db, r: Result<Receipt, JobService.SubmitError>)
    requires q in s.db.queues && newId !in s.hist && (data.cron.Some? ==> data.scheduledAt.None?)
    requires JobService.TableOnly(s.db, q, data, JobService.CleanKey(header), newId, s.now, db', r)
    ensures var a := ByClient(Create(newId, q, data, JobService.CleanKey(header)));
            if r.Success? && !r.value.duplicate then Enabled(c, s, a) && Apply(c, s, a).db == db' else db' == s.db
  {
  }

  /** `retry_dead_job`, when it succeeds. */
  lemma ReplayIsAStep(c: Config, s: State, j: JobId, newId: JobId)
    requires j in s.db.dlq && j in s.db.jobs && s.db.jobs.Keys <= s.hist.Keys && newId !in s.hist
    ensures var a := ByClient(Replay(j, newId));
            Enabled(c, s, a) && Apply(c, s, a).db == DlqService.Replayed(s.db, j, newId, s.now)
  {
  }

  /** Edits that keep within the bound on limits, pauses among them. */
  lemma EditIsAStep(c: Config, s: State, q: QueueId, u: QueueService.QueueUpdate)
    requires q in s.db.queues && QueueService.Updated(s.db, q, u).queues[q].concurrencyLimit <= c.slots
    ensures var after := QueueService.Updated(s.db, q, u);
            var a := ByClient(SetQueue(q, after.queues[q]));
            Enabled(c, s, a) && Apply(c, s, a).db == after
  {
  }

  /** `delete_queue`, when it does not refuse. */
  lemma DeletionIsAStep(c: Config, s: State, q: QueueId)
    requires q in s.db.queues && QueueService.ActiveJobs(s.db, q) == {}
    ensures var a := ByClient(DeleteQueue(q));
            Enabled(c, s, a) && Apply(c, s, a).db == QueueService.Deleted(s.db, q)
  {
  }

  // ---------------------------------------------------------------- workers coming and going

  lemma RegistrationIsAStep(c: Config, s: State, w: WorkerId, queue: Option<QueueId>, stamp: Time)
    requires w !in s.procs && w !in s.db.workers && stamp <= s.now <= stamp + c.timing.body
    ensures var a := ByWorker(w, Register(queue, stamp));
            Enabled(c, s, a) && Apply(c, s, a).db == HeartbeatService.Registered(s.db, w, queue, stamp)
  {
  }

  /** The way out, once every thread of a draining worker is done. */
  lemma ShutdownIsAStep(c: Config, s: State, w: WorkerId)
    requires w in s.procs && s.procs[w].phase.Draining?
    requires forall k :: k in s.procs[w].futures ==> s.procs[w].futures[k] == Done
    ensures var a := ByWorker(w, Deregister);
            Enabled(c, s, a) && Apply(c, s, a).db == HeartbeatService.Deregistered(s.db, w, s.now)
  {
  }

  // ---------------------------------------------------------------- run_job

  /** A draw the jitter of this attempt's failure may make. */
  predicate DrawAllowed(s: State, w: WorkerId, k: Future, e: ExecId, draw: real)
    requires k.job in s.db.jobs
  {
    var db := ExecutorService.FailureRecorded(ExecutorService.Started(s.db, k.job, w, e), k.job, e);
    var p := RetryService.EffectivePolicy(db, db.jobs[k.job]);
    RetryService.Jitters(p) ==> RetryService.Drawn(draw, RetryService.DrawCap(p, db.jobs[k.job].retryCount))
  }

  /** An uninterrupted `run_job` is its two or three commits in a row. */
  lemma AttemptIsARun(c: Config, s: State, w: WorkerId, k: Future, e: ExecId, failed: bool, draw: real)
    returns (run: seq<Step>)
    requires Live(s, w) && k in s.procs[w].futures && s.procs[w].futures[k] == Dispatched
    requires k.job in s.db.jobs && k.job in s.hist && e !in s.db.execs
    requires failed ==> DrawAllowed(s, w, k, e, draw)
    ensures ValidRun(c, s, run)
    ensures Final(c, s, run).db == ExecutorService.Attempted(s.db, k.job, w, e, failed, draw, s.now)
    ensures w in Final(c, s, run).procs
    ensures Final(c, s, run).procs[w] == s.procs[w].(futures := s.procs[w].futures[k := Done])
  {
    run := [];
    RunExtends(c, s, run, ByThread(w, k, Start(e))); run := run + [ByThread(w, k, Start(e))];
    var t := DoStart(s, w, k, e);
    if failed {
      RunExtends(c, s, run, ByThread(w, k, Fail)); run := run + [ByThread(w, k, Fail)];
      var u := DoFail(t, w, k);
      RunExtends(c, s, run, ByThread(w, k, Retry(draw))); run := run + [ByThread(w, k, Retry(draw))];
      assert u.procs[w].futures[k := Done] == s.procs[w].futures[k := Done];
    } else {
      RunExtends(c, s, run, ByThread(w, k, Finish)); run := run + [ByThread(w, k, Finish)];
      assert t.procs[w].futures[k := Done] == s.procs[w].futures[k := Done];
    }
  }

  /**
   The commits of `run_job` ask whether the row is there and nothing else: they are enabled whatever
   its status and owner have become in the meantime.
   */
  lemma ThreadsNeverRecheck(s: State, w: WorkerId, k: Future, a: ThreadAct, status: Status, owner: Option<WorkerId>)
    requires k.job in s.db.jobs
    ensures var row := s.db.jobs[k.job].(status := status, worker := owner);
            ThreadEnabled(s, w, k, a) <==> ThreadEnabled(s.(db := s.db.(jobs := s.db.jobs[k.job := row])), w, k, a)
  {
  }

  /** Nor does the reaper look again at a worker it has found: it recovers it whatever the tables say by then. */
  lemma RecoveryNeverRechecks(s: State, w: WorkerId, db: Db)
    ensures ReaperEnabled(s, Recover(w)) <==> ReaperEnabled(s.(db := db), Recover(w))
  {
  }

  // ---------------------------------------------------------------- reaper cycle

  /** The reaper has handled `done` of the workers it found in `before`. */
  predicate Sweeping(before: Db, s: State, done: set<WorkerId>, todo: set<WorkerId>) {
    s.db == ReaperService.Swept(before, done) && s.reaper == Reaper(todo, None) && done !! todo
  }

  lemma SweepOneWorker(c: Config, before: Db, s: State, done: set<WorkerId>, todo: set<WorkerId>, w: WorkerId)
    requires Sweeping(before, s, done, todo) && w in todo
    ensures CanRecover(s, w) && DoRecover(s, w).reaper.current.Some?
    ensures Sweeping(before, DoMark(DoRecover(s, w)), done + {w}, todo - {w})
  {
    ReaperService.SweepOneMore(before, done, w);
  }

  /** Two commits for each worker, in this order. */
  function SweepSteps(order: seq<WorkerId>): seq<Step> {
    if order == [] then []
    else [ByReaper(Recover(order[0])), ByReaper(Mark)] + SweepSteps(order[1..])
  }

  predicate Distinct(order: seq<WorkerId>) {
    forall i, k :: 0 <= i < k < |order| ==> order[i] != order[k]
  }

  function Members(order: seq<WorkerId>): set<WorkerId> {
    set w | w in order
  }

  lemma TwoCommits(c: Config, before: Db, s: State, done: set<WorkerId>, todo: set<WorkerId>, w: WorkerId)
    requires Sweeping(before, s, done, todo) && w in todo
    ensures var pair := [ByReaper(Recover(w)), ByReaper(Mark)];
            ValidRun(c, s, pair) && Sweeping(before, Final(c, s, pair), done + {w}, todo - {w})
  {
    SweepOneWorker(c, before, s, done, todo, w);
    RunExtends(c, s, [], ByReaper(Recover(w)));
    RunExtends(c, s, [] + [ByReaper(Recover(w))], ByReaper(Mark));
    assert [] + [ByReaper(Recover(w))] + [ByReaper(Mark)] == [ByReaper(Recover(w)), ByReaper(Mark)];
  }

  lemma {:induction false} SweepIsARun(c: Config, before: Db, s: State, done: set<WorkerId>, order: seq<WorkerId>)
    requires Distinct(order) && Sweeping(before, s, done, Members(order))
    ensures ValidRun(c, s, SweepSteps(order))
    ensures Sweeping(before, Final(c, s, SweepSteps(order)), done + Members(order), {})
    decreases |order|
  {
    if order == [] {
      assert done + Members(order) == done;
    } else {
      var w, rest := order[0], order[1..];
      var pair := [ByReaper(Recover(w)), ByReaper(Mark)];
      TwoCommits(c, before, s, done, Members(order), w);
      assert Members(order) - {w} == Members(rest);
      SweepIsARun(c, before, Final(c, s, pair), done + {w}, rest);
      RunsCompose(c, s, pair, SweepSteps(rest));
      assert done + {w} + Members(rest) == done + Members(order);
    }
  }

  /** `run_reaper_cycle` is a query and two commits for each worker it found, in every order. */
  lemma CycleIsARun(c: Config, s: State, order: seq<WorkerId>)
    requires s.reaper == Reaper({}, None) && Distinct(order)
    requires Members(order) == ReaperService.StaleWorkers(s.db, s.now - c.timing.threshold)
    ensures var run := [ByReaper(Find)] + SweepSteps(order);
            && ValidRun(c, s, run)
            && Final(c, s, run).db == ReaperService.Swept(s.db, Members(order))
            && Final(c, s, run).reaper == Reaper({}, None)
  {
    RunExtends(c, s, [], ByReaper(Find));
    assert [] + [ByReaper(Find)] == [ByReaper(Find)];
    ReaperService.SweepNobody(s.db);
    SweepIsARun(c, s.db, DoReaperFind(c, s), {}, order);
    RunsCompose(c, s, [ByReaper(Find)], SweepSteps(order));
    assert {} + Members(order) == Members(order);
  }

  // ---------------------------------------------------------------- scheduler tick

  lemma PromotionIsAStep(c: Config, s: State, size: int, batch: set<JobId>)
    requires size > 0 && SchedulerService.DueBatch(s.db, None, s.now, size, batch)
    ensures var a := ByScheduler(Promote(batch, size));
            Enabled(c, s, a) && Apply(c, s, a).db == SchedulerService.Promoted(s.db, batch)
  {
  }

  /** Fresh ids and the rows they belong to leave no choice: a tick has one outcome. */
  lemma TickIsUnique(jobs: map<JobId, Job>, a: map<JobId, Job>, b: map<JobId, Job>, batch: set<JobId>,
                     ids: map<JobId, JobId>, getNext: (CronExpr, Time) -> Time, now: Time)
    requires SchedulerService.Ticked(jobs, a, batch, ids, getNext, now)
    requires SchedulerService.Ticked(jobs, b, batch, ids, getNext, now)
    ensures a == b
  {
    forall j ensures j in a <==> j in b {
    }
    forall j | j in a ensures a[j] == b[j] {
      if j !in jobs {
        var t :| t in SchedulerService.Firing(jobs, batch, now) && t in ids && ids[t] == j;
      }
    }
  }

  /** Only job rows and histories have changed, and only children have been added. */
  ghost predicate Ticking(s: State, t: State, batch: set<JobId>, ids: map<JobId, JobId>,
                          getNext: (CronExpr, Time) -> Time)
  {
    && t.db == s.db.(jobs := t.db.jobs) && t.now == s.now
    && SchedulerService.Ticked(s.db.jobs, t.db.jobs, batch, ids, getNext, s.now)
    && OnlyChildren(s, t, batch, ids)
  }

  predicate FreshInHist(s: State, batch: set<JobId>, ids: map<JobId, JobId>) {
    && batch <= ids.Keys
    && forall t :: t in batch ==> ids[t] !in s.hist
  }

  /** The steps that handle one template: one, or none when it is not due. */
  lemma HandleOneTemplate(c: Config, s: State, run: seq<Step>, done: set<JobId>, t: JobId, ids: map<JobId, JobId>,
                          getNext: (CronExpr, Time) -> Time) returns (longer: seq<Step>)
    requires SchedulerService.Iterates(c.matches, getNext)
    requires SchedulerService.AllTemplates(s.db.jobs, done + {t}) && t !in done
    requires SchedulerService.FreshIds(s.db.jobs, done + {t}, ids) && FreshInHist(s, done + {t}, ids)
    requires ValidRun(c, s, run) && Ticking(s, Final(c, s, run), done, ids, getNext)
    ensures ValidRun(c, s, longer) && Ticking(s, Final(c, s, longer), done + {t}, ids, getNext)
  {
    var u, row := Final(c, s, run), s.db.jobs[t];
    assert t in done + {t};
    OneMoreTicked(s, u, done, t, ids, getNext);
    if row.scheduledAt.None? || SchedulerService.Fires(row, s.now) {
      var next := getNext(row.cron.value, s.now);
      assert SchedulerService.IsNext(c.matches, row.cron.value, s.now, next);
      assert CanCron(c, u, t, ids[t], next, s.now);
      RunExtends(c, s, run, ByScheduler(Fire(t, ids[t], next, s.now)));
      longer := run + [ByScheduler(Fire(t, ids[t], next, s.now))];
    } else {
      longer := run;
    }
  }

  /** Firing the template, or leaving it if it is not due, extends the tick by it. */
  lemma OneMoreTicked(s: State, u: State, done: set<JobId>, t: JobId, ids: map<JobId, JobId>,
                      getNext: (CronExpr, Time) -> Time)
    requires SchedulerService.AllTemplates(s.db.jobs, done + {t}) && t !in done && t in s.db.jobs
    requires SchedulerService.FreshIds(s.db.jobs, done + {t}, ids) && FreshInHist(s, done + {t}, ids)
    requires Ticking(s, u, done, ids, getNext)
    ensures t in u.db.jobs && u.db.jobs[t] == s.db.jobs[t] && t in ids && ids[t] !in u.hist && s.db.jobs[t].cron.Some?
    ensures var row := s.db.jobs[t];
            if row.scheduledAt.None? || SchedulerService.Fires(row, s.now)
            then Ticking(s, DoCron(u, t, ids[t], getNext(row.cron.value, s.now), s.now), done + {t}, ids, getNext)
            else Ticking(s, u, done + {t}, ids, getNext)
  {
    var row := s.db.jobs[t];
    assert t in done + {t};
    assert u.db.jobs[t] == row;
    SchedulerService.TickOneMore(s.db.jobs, u.db.jobs, done, t, ids, getNext, s.now);
    if row.scheduledAt.None? || SchedulerService.Fires(row, s.now) {
      FiredIsTicked(s, u, done, t, ids, getNext);
    } else {
      assert u.db.jobs + map[] == u.db.jobs;
      MoreIds(s, u, done, t, ids);
    }
  }

  /** The firing of `t` makes the changes of one more template. */
  lemma FiredIsTicked(s: State, u: State, done: set<JobId>, t: JobId, ids: map<JobId, JobId>,
                      getNext: (CronExpr, Time) -> Time)
    requires t in u.db.jobs && t in s.db.jobs && u.db.jobs[t] == s.db.jobs[t] && t in ids && ids[t] != t
    requires u.db == s.db.(jobs := u.db.jobs) && u.now == s.now && OnlyChildren(s, u, done, ids)
    requires s.db.jobs[t].cron.Some? && (s.db.jobs[t].scheduledAt.None? || SchedulerService.Fires(s.db.jobs[t], s.now))
    requires var changes := SchedulerService.Changes(t, s.db.jobs[t], ids[t], getNext, s.now);
             SchedulerService.Ticked(s.db.jobs, u.db.jobs + changes, done + {t}, ids, getNext, s.now)
    ensures Ticking(s, DoCron(u, t, ids[t], getNext(s.db.jobs[t].cron.value, s.now), s.now), done + {t}, ids, getNext)
  {
    FireMakesChanges(u, t, ids[t], getNext);
    FireAddsChild(s, u, done, t, ids, getNext(s.db.jobs[t].cron.value, s.now));
  }

  /** Every new history belongs to a child of a template of the batch. */
  ghost predicate OnlyChildren(s: State, t: State, batch: set<JobId>, ids: map<JobId, JobId>) {
    forall j :: j in t.hist ==> j in s.hist || exists u :: u in batch && u in ids && ids[u] == j
  }

  lemma MoreIds(s: State, u: State, done: set<JobId>, t: JobId, ids: map<JobId, JobId>)
    requires OnlyChildren(s, u, done, ids)
    ensures OnlyChildren(s, u, done + {t}, ids)
  {
    forall j | j in u.hist && j !in s.hist ensures exists v :: v in done + {t} && v in ids && ids[v] == j {
      var v :| v in done && v in ids && ids[v] == j;
      assert v in done + {t};
    }
  }

  lemma FireAddsChild(s: State, u: State, done: set<JobId>, t: JobId, ids: map<JobId, JobId>, next: Time)
    requires t in u.db.jobs && t in ids && OnlyChildren(s, u, done, ids)
    ensures OnlyChildren(s, DoCron(u, t, ids[t], next, s.now), done + {t}, ids)
  {
    MoreIds(s, u, done, t, ids);
    assert t in done + {t};
  }

  lemma FireMakesChanges(s: State, t: JobId, child: JobId, getNext: (CronExpr, Time) -> Time)
    requires t in s.db.jobs && s.db.jobs[t].cron.Some? && child != t
    requires s.db.jobs[t].scheduledAt.None? || SchedulerService.Fires(s.db.jobs[t], s.now)
    ensures DoCron(s, t, child, getNext(s.db.jobs[t].cron.value, s.now), s.now).db.jobs
            == s.db.jobs + SchedulerService.Changes(t, s.db.jobs[t], child, getNext, s.now)
  {
  }

  lemma {:induction false} HandleTheRest(c: Config, s: State, run: seq<Step>, done: set<JobId>, rest: set<JobId>,
                                         ids: map<JobId, JobId>, getNext: (CronExpr, Time) -> Time)
    returns (longer: seq<Step>)
    requires SchedulerService.Iterates(c.matches, getNext) && done !! rest
    requires SchedulerService.AllTemplates(s.db.jobs, done + rest)
    requires SchedulerService.FreshIds(s.db.jobs, done + rest, ids) && FreshInHist(s, done + rest, ids)
    requires ValidRun(c, s, run) && Ticking(s, Final(c, s, run), done, ids, getNext)
    ensures ValidRun(c, s, longer) && Ticking(s, Final(c, s, longer), done + rest, ids, getNext)
    decreases rest
  {
    if rest == {} {
      assert done + rest == done;
      longer := run;
    } else {
      var t :| t in rest;
      assert done + {t} <= done + rest;
      longer := HandleOneTemplate(c, s, run, done, t, ids, getNext);
      assert done + {t} + (rest - {t}) == done + rest;
      longer := HandleTheRest(c, s, longer, done + {t}, rest - {t}, ids, getNext);
    }
  }

  /**
   The cron pass of a tick is a run of firings: whatever table `process_cron_jobs` leaves, the
   protocol reaches, one template at a time.
   */
  lemma CronPassIsARun(c: Config, s: State, batch: set<JobId>, ids: map<JobId, JobId>,
                       getNext: (CronExpr, Time) -> Time, after: map<JobId, Job>) returns (run: seq<Step>)
    requires SchedulerService.Iterates(c.matches, getNext)
    requires SchedulerService.AllTemplates(s.db.jobs, batch)
    requires SchedulerService.FreshIds(s.db.jobs, batch, ids) && FreshInHist(s, batch, ids)
    requires SchedulerService.Ticked(s.db.jobs, after, batch, ids, getNext, s.now)
    ensures ValidRun(c, s, run) && Final(c, s, run).db == s.db.(jobs := after)
  {
    SchedulerService.SessionOpens(s.db.jobs, ids, getNext, s.now);
    assert s.db.jobs + map[] == s.db.jobs && {} + batch == batch;
    run := HandleTheRest(c, s, [], {}, batch, ids, getNext);
    TickIsUnique(s.db.jobs, Final(c, s, run).db.jobs, after, batch, ids, getNext, s.now);
  }
}
