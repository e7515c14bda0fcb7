/** Promotion of delayed jobs and firing of cron templates (app/services/scheduler_service.py). */
module SchedulerService {
  import opened Model
  import Selection

  /** How many rows a tick handles at most, of delayed jobs and of templates. */
  const BATCH_SIZE := 100

  // ---------------------------------------------------------------- promotion

  predicate Due(db: Db, queue: Option<QueueId>, now: Time, j: JobId) {
    && j in db.jobs
    && (queue.Some? ==> db.jobs[j].queue == queue.value)
    && db.jobs[j].status == Scheduled
    && db.jobs[j].cron.None?
    && (db.jobs[j].scheduledAt.Some? ==> db.jobs[j].scheduledAt.value <= now)
  }

  function DueSet(db: Db, queue: Option<QueueId>, now: Time): set<JobId> {
    set j | j in db.jobs && Due(db, queue, now, j)
  }

  /** ORDER BY priority, scheduled_at: a NULL instant sorts last. */
  predicate PromotesBefore(a: Job, b: Job) {
    || a.priority < b.priority
    || (a.priority == b.priority && a.scheduledAt.Some? &&
        (b.scheduledAt.Some? ==> a.scheduledAt.value < b.scheduledAt.value))
  }

  predicate DueBatch(db: Db, queue: Option<QueueId>, now: Time, size: int, batch: set<JobId>) {
    Selection.Limited(db.jobs, DueSet(db, queue, now), size, PromotesBefore, batch)
  }

  /** The WHERE clause of the promotion, column by column. */
  lemma DueIsTheFilter(db: Db, queue: Option<QueueId>, now: Time)
    ensures DueSet(db, queue, now)
            == set j | j in db.jobs && db.jobs[j].status == Scheduled && db.jobs[j].cron == None
                       && (queue == None || queue == Some(db.jobs[j].queue))
                       && (db.jobs[j].scheduledAt == None || db.jobs[j].scheduledAt.value <= now)
  {
  }

  /** Its ORDER BY and LIMIT: what the query may return, no more and no less. */
  lemma DueBatchIsTheQuery(db: Db, queue: Option<QueueId>, now: Time, size: int, batch: set<JobId>)
    requires size > 0
    ensures var due := DueSet(db, queue, now);
            DueBatch(db, queue, now, size, batch) <==>
              && batch <= due && |batch| <= size
              && (batch != due ==> |batch| == size)
              && forall c, e :: c in batch && e in due - batch ==>
                   var a, b := db.jobs[c], db.jobs[e];
                   || a.priority < b.priority
                   || (a.priority == b.priority && b.scheduledAt == None)
                   || (a.priority == b.priority && a.scheduledAt.Some? && a.scheduledAt.value <= b.scheduledAt.value)
  {
    var due := DueSet(db, queue, now);
    if batch <= due {
      forall c, e | c in batch && e in due - batch
        ensures var a, b := db.jobs[c], db.jobs[e];
                !PromotesBefore(b, a) <==>
                  || a.priority < b.priority
                  || (a.priority == b.priority && b.scheduledAt == None)
                  || (a.priority == b.priority && a.scheduledAt.Some? && a.scheduledAt.value <= b.scheduledAt.value)
      {
      }
    }
  }

  function Promoted(db: Db, batch: set<JobId>): Db {
    db.(jobs := map j | j in db.jobs ::
                  if j in batch then db.jobs[j].(status := Queued, scheduledAt := None) else db.jobs[j])
  }

  /** The UPDATE, row by row: a promoted job waits in the queue, at no instant of its own. */
  lemma PromotedRows(db: Db, batch: set<JobId>)
    ensures var after := Promoted(db, batch);
            && after == db.(jobs := after.jobs) && after.jobs.Keys == db.jobs.Keys
            && (forall j :: j in db.jobs && j !in batch ==> after.jobs[j] == db.jobs[j])
            && (forall j :: j in db.jobs && j in batch ==>
                  && after.jobs[j].status == Queued && after.jobs[j].scheduledAt == None
                  && db.jobs[j] == after.jobs[j].(status := db.jobs[j].status, scheduledAt := db.jobs[j].scheduledAt))
  {
  }

  /** `promote_due_jobs`. */
  method PromoteDueJobs(db: Database, queue: Option<QueueId>, size: int, now: Time)
    returns (count: nat, ghost batch: set<JobId>)
    requires size > 0
    modifies db
    ensures DueBatch(old(db.Value()), queue, now, size, batch) && count == |batch|
    ensures db.Value() == Promoted(old(db.Value()), batch)
  {
    var due := Selection.Select(db.jobs, DueSet(db.Value(), queue, now), size, PromotesBefore);
    batch := due;
    ghost var before := db.jobs;
    var dirty: map<JobId, Job> := map[];
    var rest := due;
    while rest != {}
      invariant rest <= due && due <= before.Keys && db.jobs == before
      invariant dirty.Keys == due - rest
      invariant forall j :: j in dirty ==> dirty[j] == before[j].(status := Queued, scheduledAt := None)
      decreases rest
    {
      var j :| j in rest;
      var job := db.jobs[j];
      job := job.(status := Queued);
      job := job.(scheduledAt := None);
      dirty := dirty[j := job];
      rest := rest - {j};
    }
    assert before + dirty == Promoted(db.Value(), due).jobs;
    db.jobs := db.jobs + dirty;
    return |due|, due;
  }

  // ---------------------------------------------------------------- cron arithmetic

  /** `u` is the first instant after `base` that the expression matches. */
  ghost predicate IsNext(matches: (CronExpr, Time) -> bool, e: CronExpr, base: Time, u: Time) {
    && base < u && matches(e, u)
    && forall v :: base < v < u ==> !matches(e, v)
  }

  /** What is assumed of croniter's get_next. */
  ghost predicate Iterates(matches: (CronExpr, Time) -> bool, getNext: (CronExpr, Time) -> Time) {
    forall e, base :: IsNext(matches, e, base, getNext(e, base))
  }

  lemma NextIsUnique(matches: (CronExpr, Time) -> bool, e: CronExpr, base: Time, u: Time, v: Time)
    requires IsNext(matches, e, base, u) && IsNext(matches, e, base, v)
    ensures u == v
  {
    assert base < u < v ==> !matches(e, u);
    assert base < v < u ==> !matches(e, v);
  }

  /**
   The catch-up loop: however many occurrences were missed since `base`, it stops, and at the
   first match strictly after `now`.
   */
  method CatchUp(ghost matches: (CronExpr, Time) -> bool, getNext: (CronExpr, Time) -> Time,
                 e: CronExpr, base: Time, now: Time)
    returns (next: Time)
    requires base <= now && Iterates(matches, getNext)
    ensures now < next && matches(e, next) && forall v :: now < v < next ==> !matches(e, v)
    ensures next == getNext(e, now)
  {
    ghost var previous := base;
    next := getNext(e, base);
    assert IsNext(matches, e, base, getNext(e, base));
    while next <= now
      invariant previous <= now && IsNext(matches, e, previous, next)
      decreases now - next
    {
      previous := next;
      next := getNext(e, next);
      assert IsNext(matches, e, previous, getNext(e, previous));
    }
    assert IsNext(matches, e, now, getNext(e, now));
    NextIsUnique(matches, e, now, next, getNext(e, now));
  }

  // ---------------------------------------------------------------- cron templates

  function Templates(db: Db, queue: Option<QueueId>): set<JobId> {
    set j | j in db.jobs && db.jobs[j].status == Scheduled && db.jobs[j].cron.Some?
            && (queue.Some? ==> db.jobs[j].queue == queue.value)
  }

  /** The WHERE clause of the cron pass, column by column. */
  lemma TemplatesAreTheFilter(db: Db, queue: Option<QueueId>, t: JobId)
    ensures t in Templates(db, queue) <==>
              && t in db.jobs && db.jobs[t].cron != None && db.jobs[t].status == Scheduled
              && (queue == None || queue == Some(db.jobs[t].queue))
  {
  }

  predicate Fires(job: Job, now: Time) {
    job.scheduledAt.Some? && job.scheduledAt.value <= now
  }

  /** The executable child of a template. */
  function Child(t: JobId, template: Job, now: Time): Job {
    Job(template.queue, Queued, template.payload, template.priority, now, None, None, 0, template.maxRetries,
        None, None, Some(t), None)
  }

  /** A template that has never been scheduled gets its first instant; a due one moves on. */
  function Advanced(template: Job, getNext: (CronExpr, Time) -> Time, now: Time): Job {
    if template.cron.Some? && (template.scheduledAt.None? || Fires(template, now))
    then template.(scheduledAt := Some(getNext(template.cron.value, now)))
    else template
  }

  function Firing(jobs: map<JobId, Job>, batch: set<JobId>, now: Time): set<JobId> {
    set t | t in batch && t in jobs && Fires(jobs[t], now)
  }

  predicate AllTemplates(jobs: map<JobId, Job>, batch: set<JobId>) {
    forall t :: t in batch ==> t in jobs && jobs[t].status == Scheduled && jobs[t].cron.Some?
  }

  /** `ids` are the keys the database gives to the children, one per template. */
  ghost predicate FreshIds(jobs: map<JobId, Job>, batch: set<JobId>, ids: map<JobId, JobId>) {
    && batch <= ids.Keys
    && (forall t :: t in batch ==> ids[t] !in jobs)
    && (forall t, u :: t in batch && u in batch && t != u ==> ids[t] != ids[u])
  }

  /**
   A tick over `batch`, described row by row: every template advanced, exactly one child for
   each one that fired however many occurrences it had missed, nothing else touched.
   */
  ghost predicate Ticked(jobs: map<JobId, Job>, jobs': map<JobId, Job>, batch: set<JobId>, ids: map<JobId, JobId>,
                         getNext: (CronExpr, Time) -> Time, now: Time)
  {
    && (forall j :: j in jobs ==>
          j in jobs' && jobs'[j] == if j in batch then Advanced(jobs[j], getNext, now) else jobs[j])
    && (forall t :: t in Firing(jobs, batch, now) ==>
          t in ids && ids[t] in jobs' && jobs'[ids[t]] == Child(t, jobs[t], now))
    && (forall c :: c in jobs' ==> c in jobs || exists t :: t in Firing(jobs, batch, now) && t in ids && ids[t] == c)
  }

  /**
   The same tick column by column: which templates move, where to, and the child each due one gets,
   with the template's work, a fresh start, and the template for a parent.
   */
  lemma TickedRows(jobs: map<JobId, Job>, after: map<JobId, Job>, batch: set<JobId>, ids: map<JobId, JobId>,
                   getNext: (CronExpr, Time) -> Time, now: Time)
    requires Ticked(jobs, after, batch, ids, getNext, now)
    requires forall t :: t in batch ==> t in jobs && jobs[t].cron.Some? && t in ids
    ensures forall j :: j in jobs ==>
              && j in after
              && after[j] == if j in batch && (jobs[j].scheduledAt == None || jobs[j].scheduledAt.value <= now)
                             then jobs[j].(scheduledAt := Some(getNext(jobs[j].cron.value, now))) else jobs[j]
    ensures forall t :: t in batch && jobs[t].scheduledAt.Some? && jobs[t].scheduledAt.value <= now ==>
              && ids[t] in after
              && var child, template := after[ids[t]], jobs[t];
                 && child.queue == template.queue && child.payload == template.payload
                 && child.priority == template.priority && child.maxRetries == template.maxRetries
                 && child.parent == Some(t) && child.status == Queued && child.createdAt == now && child.retryCount == 0
                 && child.scheduledAt == None && child.cron == None && child.key == None
                 && child.worker == None && child.dependsOn == None
    ensures forall i :: i in after && i !in jobs ==>
              exists t :: t in batch && ids[t] == i && jobs[t].scheduledAt.Some? && jobs[t].scheduledAt.value <= now
  {
    forall i | i in after && i !in jobs
      ensures exists t :: t in batch && ids[t] == i && jobs[t].scheduledAt.Some? && jobs[t].scheduledAt.value <= now
    {
      var t :| t in Firing(jobs, batch, now) && t in ids && ids[t] == i;
      assert t in batch;
    }
    forall t | t in batch && jobs[t].scheduledAt.Some? && jobs[t].scheduledAt.value <= now
      ensures ids[t] in after && after[ids[t]] == Child(t, jobs[t], now)
    {
      assert t in Firing(jobs, batch, now);
    }
  }

  lemma {:induction false} ImageSize(ts: set<JobId>, ids: map<JobId, JobId>)
    requires ts <= ids.Keys && forall t, u :: t in ts && u in ts && t != u ==> ids[t] != ids[u]
    ensures |set t | t in ts :: ids[t]| == |ts|
    decreases ts
  {
    var image := set t | t in ts :: ids[t];
    if ts == {} {
      assert image == {};
    } else {
      var u :| u in ts;
      var rest := ts - {u};
      ImageSize(rest, ids);
      assert image == (set t | t in rest :: ids[t]) + {ids[u]};
    }
  }

  /** The table grows by one row for each template that fired. */
  lemma TickCounts(jobs: map<JobId, Job>, after: map<JobId, Job>, batch: set<JobId>, ids: map<JobId, JobId>,
                   getNext: (CronExpr, Time) -> Time, now: Time)
    requires Ticked(jobs, after, batch, ids, getNext, now) && FreshIds(jobs, batch, ids)
    ensures |after| == |jobs| + |Firing(jobs, batch, now)|
  {
    var firing := Firing(jobs, batch, now);
    var children := set t | t in firing :: ids[t];
    ImageSize(firing, ids);
    TickAddsChildren(jobs, after, batch, ids, getNext, now);
    assert |after.Keys| == |jobs.Keys| + |children|;
  }

  lemma TickAddsChildren(jobs: map<JobId, Job>, after: map<JobId, Job>, batch: set<JobId>, ids: map<JobId, JobId>,
                         getNext: (CronExpr, Time) -> Time, now: Time)
    requires Ticked(jobs, after, batch, ids, getNext, now) && FreshIds(jobs, batch, ids)
    ensures var children := set t | t in Firing(jobs, batch, now) :: ids[t];
            after.Keys == jobs.Keys + children && jobs.Keys !! children
  {
    var children := set t | t in Firing(jobs, batch, now) :: ids[t];
    forall i ensures i in after <==> i in jobs || i in children {
    }
  }

  /** The rows one template adds to the session: none, itself, or itself and its child. */
  function Changes(t: JobId, template: Job, child: JobId, getNext: (CronExpr, Time) -> Time, now: Time): map<JobId, Job>
    requires template.cron.Some?
  {
    if Fires(template, now) then map[t := Advanced(template, getNext, now), child := Child(t, template, now)]
    else if template.scheduledAt.None? then map[t := Advanced(template, getNext, now)]
    else map[]
  }

  /** Handling one more template extends a tick by exactly that template. */
  lemma TickOneMore(jobs: map<JobId, Job>, mid: map<JobId, Job>, done: set<JobId>, t: JobId, ids: map<JobId, JobId>,
                    getNext: (CronExpr, Time) -> Time, now: Time)
    requires t !in done && AllTemplates(jobs, done + {t}) && FreshIds(jobs, done + {t}, ids)
    requires Ticked(jobs, mid, done, ids, getNext, now)
    ensures Ticked(jobs, mid + Changes(t, jobs[t], ids[t], getNext, now), done + {t}, ids, getNext, now)
  {
    var after := mid + Changes(t, jobs[t], ids[t], getNext, now);
    assert t in done + {t} && ids[t] != t && mid[t] == jobs[t];
    var firing, firing' := Firing(jobs, done, now), Firing(jobs, done + {t}, now);
    assert firing' == if Fires(jobs[t], now) then firing + {t} else firing;
    forall j | j in jobs
      ensures j in after && after[j] == if j in done + {t} then Advanced(jobs[j], getNext, now) else jobs[j]
    {
    }
    forall u | u in firing' ensures u in ids && ids[u] in after && after[ids[u]] == Child(u, jobs[u], now) {
      assert u in done + {t};
    }
    forall c | c in after ensures c in jobs || exists u :: u in firing' && u in ids && ids[u] == c {
      if c in mid && c !in jobs {
        var u :| u in firing && u in ids && ids[u] == c;
        assert u in firing';
      } else if c !in mid {
        assert t in firing' && ids[t] == c;
      }
    }
  }

  /** The SELECT ... LIMIT over templates, in no particular order. */
  method PickTemplates(all: set<JobId>, size: nat) returns (selected: set<JobId>)
    ensures selected <= all && |selected| <= size
    ensures |selected| < size ==> selected == all
  {
    selected := {};
    var others := all;
    while |selected| < size && others != {}
      invariant selected + others == all && selected !! others && |selected| <= size
      decreases others
    {
      var t :| t in others;
      selected, others := selected + {t}, others - {t};
    }
  }

  /** The body of the loop over templates. */
  method HandleTemplate(t: JobId, template: Job, childId: JobId, now: Time,
                        ghost matches: (CronExpr, Time) -> bool, getNext: (CronExpr, Time) -> Time)
    returns (changes: map<JobId, Job>, fired: bool)
    requires template.cron.Some? && childId != t && Iterates(matches, getNext)
    ensures changes == Changes(t, template, childId, getNext, now)
    ensures fired <==> Fires(template, now)
  {
    if template.scheduledAt.None? {
      var first := getNext(template.cron.value, now);
      return map[t := template.(scheduledAt := Some(first))], false;
    }
    if template.scheduledAt.value <= now {
      var next := CatchUp(matches, getNext, template.cron.value, template.scheduledAt.value, now);
      return map[t := template.(scheduledAt := Some(next)), childId := Child(t, template, now)], true;
    }
    return map[], false;
  }

  /**
   The session of one tick after the templates `done`: `saved` is committed, `pending` is not.
   What is committed is itself a tick over some of the templates, so a crash leaves each of
   them advanced together with its child, or neither.
   */
  ghost predicate InSession(before: map<JobId, Job>, saved: map<JobId, Job>, pending: map<JobId, Job>,
                            committed: set<JobId>, done: set<JobId>, spawned: nat, ids: map<JobId, JobId>,
                            getNext: (CronExpr, Time) -> Time, now: Time)
  {
    && committed <= done
    && Ticked(before, saved, committed, ids, getNext, now)
    && Ticked(before, saved + pending, done, ids, getNext, now)
    && spawned == |Firing(before, done, now)|
  }

  lemma SessionOpens(before: map<JobId, Job>, ids: map<JobId, JobId>, getNext: (CronExpr, Time) -> Time, now: Time)
    ensures InSession(before, before, map[], {}, {}, 0, ids, getNext, now)
  {
    assert before + map[] == before;
    assert Firing(before, {}, now) == {};
  }

  /** Handling one template keeps the session in order, whether or not it commits. */
  lemma SessionContinues(before: map<JobId, Job>, saved: map<JobId, Job>, pending: map<JobId, Job>,
                         committed: set<JobId>, done: set<JobId>, spawned: nat, t: JobId, ids: map<JobId, JobId>,
                         getNext: (CronExpr, Time) -> Time, now: Time)
    requires InSession(before, saved, pending, committed, done, spawned, ids, getNext, now)
    requires t !in done && AllTemplates(before, done + {t}) && FreshIds(before, done + {t}, ids)
    ensures var changes := Changes(t, before[t], ids[t], getNext, now);
            var spawned' := if Fires(before[t], now) then spawned + 1 else spawned;
            && InSession(before, saved, pending + changes, committed, done + {t}, spawned', ids, getNext, now)
            && InSession(before, saved + pending + changes, map[], done + {t}, done + {t}, spawned', ids, getNext, now)
  {
    assert t in done + {t};
    var changes := Changes(t, before[t], ids[t], getNext, now);
    TickOneMore(before, saved + pending, done, t, ids, getNext, now);
    FiringOneMore(before, done, t, now);
    ConcatAssociates(saved, pending, changes);
    assert saved + pending + changes + map[] == saved + pending + changes;
  }

  /** What is done and what is left make up the batch. */
  ghost predicate Parts(batch: set<JobId>, done: set<JobId>, rest: set<JobId>) {
    done + rest == batch && done !! rest
  }

  lemma MoveOne(batch: set<JobId>, done: set<JobId>, rest: set<JobId>, t: JobId)
    requires Parts(batch, done, rest) && t in rest
    ensures Parts(batch, done + {t}, rest - {t}) && t !in done && done + {t} <= batch
  {
  }

  lemma PartOfBatch(jobs: map<JobId, Job>, batch: set<JobId>, part: set<JobId>, ids: map<JobId, JobId>)
    requires AllTemplates(jobs, batch) && FreshIds(jobs, batch, ids) && part <= batch
    ensures AllTemplates(jobs, part) && FreshIds(jobs, part, ids)
  {
  }

  lemma SessionCloses(before: map<JobId, Job>, saved: map<JobId, Job>, pending: map<JobId, Job>,
                      committed: set<JobId>, done: set<JobId>, spawned: nat, ids: map<JobId, JobId>,
                      getNext: (CronExpr, Time) -> Time, now: Time)
    requires InSession(before, saved, pending, committed, done, spawned, ids, getNext, now)
    ensures Ticked(before, saved + pending, done, ids, getNext, now) && spawned == |Firing(before, done, now)|
  {
  }

  /** One turn of the loop: the rows to add to the session, and whether it commits now. */
  method NextTemplate(t: JobId, template: Job, childId: JobId, now: Time, ghost before: map<JobId, Job>,
                      ghost saved: map<JobId, Job>, pending: map<JobId, Job>, ghost committed: set<JobId>,
                      ghost done: set<JobId>, spawned: nat, ghost ids: map<JobId, JobId>,
                      ghost matches: (CronExpr, Time) -> bool, getNext: (CronExpr, Time) -> Time)
    returns (commit: bool, flushed: map<JobId, Job>, pending': map<JobId, Job>, spawned': nat,
             ghost saved': map<JobId, Job>, ghost committed': set<JobId>)
    requires Iterates(matches, getNext)
    requires InSession(before, saved, pending, committed, done, spawned, ids, getNext, now)
    requires t !in done && AllTemplates(before, done + {t}) && FreshIds(before, done + {t}, ids)
    requires t in before && template == before[t] && t in ids && childId == ids[t]
    ensures InSession(before, saved', pending', committed', done + {t}, spawned', ids, getNext, now)
    ensures saved' == if commit then saved + flushed else saved
  {
    assert t in done + {t};
    SessionContinues(before, saved, pending, committed, done, spawned, t, ids, getNext, now);
    var changes, fired := HandleTemplate(t, template, childId, now, matches, getNext);
    ConcatAssociates(saved, pending, changes);
    commit, flushed := template.scheduledAt.None?, pending + changes;
    spawned' := if fired then spawned + 1 else spawned;
    if commit {
      pending', saved', committed' := map[], saved + flushed, done + {t};
    } else {
      pending', saved', committed' := flushed, saved, committed;
    }
  }

  /** The loop over the selected templates, with its intermediate and final commits. */
  method RunTemplates(db: Database, selected: set<JobId>, now: Time, ids: map<JobId, JobId>,
                      ghost matches: (CronExpr, Time) -> bool, getNext: (CronExpr, Time) -> Time)
    returns (spawned: nat)
    requires Iterates(matches, getNext)
    requires AllTemplates(db.jobs, selected) && FreshIds(db.jobs, selected, ids)
    modifies db`jobs
    ensures Ticked(old(db.jobs), db.jobs, selected, ids, getNext, now)
    ensures spawned == |Firing(old(db.jobs), selected, now)|
  {
    var before := db.jobs;
    spawned := 0;
    var pending: map<JobId, Job> := map[];
    var rest := selected;
    ghost var saved, committed: set<JobId>, done: set<JobId> := before, {}, {};
    SessionOpens(before, ids, getNext, now);
    while rest != {}
      invariant Parts(selected, done, rest) && db.jobs == saved
      invariant InSession(before, saved, pending, committed, done, spawned, ids, getNext, now)
      decreases rest
    {
      var t :| t in rest;
      MoveOne(selected, done, rest, t);
      PartOfBatch(before, selected, done + {t}, ids);
      var commit, flushed;
      commit, flushed, pending, spawned, saved, committed :=
        NextTemplate(t, before[t], ids[t], now, before, saved, pending, committed, done, spawned, ids,
                     matches, getNext);
      done, rest := done + {t}, rest - {t};
      if commit {
        db.jobs := db.jobs + flushed;
      }
    }
    assert done == selected;
    SessionCloses(before, saved, pending, committed, done, spawned, ids, getNext, now);
    db.jobs := db.jobs + pending;
  }

  /**
   `process_cron_jobs`. Rows are collected in the session and committed when a template is
   first scheduled and at the end.
   */
  method ProcessCronJobs(db: Database, queue: Option<QueueId>, size: nat, now: Time, ids: map<JobId, JobId>,
                         ghost matches: (CronExpr, Time) -> bool, getNext: (CronExpr, Time) -> Time)
    returns (spawned: nat, ghost batch: set<JobId>)
    requires Iterates(matches, getNext) && FreshIds(db.jobs, Templates(db.Value(), queue), ids)
    modifies db`jobs
    ensures batch <= old(Templates(db.Value(), queue)) && |batch| <= size
    ensures |batch| < size ==> batch == old(Templates(db.Value(), queue))
    ensures Ticked(old(db.jobs), db.jobs, batch, ids, getNext, now)
    ensures spawned == |Firing(old(db.jobs), batch, now)|
  {
    var selected := PickTemplates(Templates(db.Value(), queue), size);
    batch := selected;
    spawned := RunTemplates(db, selected, now, ids, matches, getNext);
  }

  lemma ConcatAssociates(a: map<JobId, Job>, b: map<JobId, Job>, c: map<JobId, Job>)
    ensures a + b + c == a + (b + c)
  {
  }

  lemma FiringOneMore(jobs: map<JobId, Job>, done: set<JobId>, t: JobId, now: Time)
    requires t !in done && t in jobs
    ensures |Firing(jobs, done + {t}, now)| == |Firing(jobs, done, now)| + (if Fires(jobs[t], now) then 1 else 0)
  {
    var firing := Firing(jobs, done, now);
    assert Firing(jobs, done + {t}, now) == if Fires(jobs[t], now) then firing + {t} else firing;
  }

  /** A template that fired moves strictly past every instant up to now, to a match of its own. */
  lemma FiringAdvances(matches: (CronExpr, Time) -> bool, getNext: (CronExpr, Time) -> Time, template: Job, now: Time)
    requires Iterates(matches, getNext) && template.cron.Some? && Fires(template, now)
    ensures var at := Advanced(template, getNext, now).scheduledAt;
            && at.Some? && at.value > now >= template.scheduledAt.value
            && IsNext(matches, template.cron.value, now, at.value)
            && !Fires(Advanced(template, getNext, now), now)
  {
    assert IsNext(matches, template.cron.value, now, getNext(template.cron.value, now));
  }
}
