/** Queue edits, pausing and deletion (app/services/queue_service.py). */
module QueueService {
  import opened Model

  /** The fields of an update; an absent field is left alone. */
  datatype QueueUpdate = QueueUpdate(
    priority: Option<int>,
    concurrencyLimit: Option<int>,
    policy: Option<Policy>,
    paused: Option<bool>)

  function Patched(q: Queue, u: QueueUpdate): Queue {
    Queue(if u.priority.Some? then u.priority.value else q.priority,
          if u.concurrencyLimit.Some? then u.concurrencyLimit.value else q.concurrencyLimit,
          if u.policy.Some? then u.policy.value else q.policy,
          if u.paused.Some? then u.paused.value else q.paused)
  }

  function Updated(db: Db, q: QueueId, u: QueueUpdate): Db
    requires q in db.queues
  {
    db.(queues := db.queues[q := Patched(db.queues[q], u)])
  }

  function ActiveJobs(db: Db, q: QueueId): set<JobId> {
    set j | j in db.jobs && db.jobs[j].queue == q && db.jobs[j].Active()
  }

  function JobsOf(db: Db, q: QueueId): set<JobId> {
    set j | j in db.jobs && db.jobs[j].queue == q
  }

  /** ON DELETE SET NULL of the two self-references. */
  function Unlinked(job: Job, gone: set<JobId>): Job {
    job.(parent := if job.parent.Some? && job.parent.value in gone then None else job.parent,
         dependsOn := if job.dependsOn.Some? && job.dependsOn.value in gone then None else job.dependsOn)
  }

  /** Deleting a queue takes its jobs, their executions and their dead letters with it. */
  function Deleted(db: Db, q: QueueId): Db {
    var gone := JobsOf(db, q);
    Db(db.queues - {q},
       map j | j in db.jobs && j !in gone :: Unlinked(db.jobs[j], gone),
       map w | w in db.workers ::
         if db.workers[w].queue == Some(q) then db.workers[w].(queue := None) else db.workers[w],
       map e | e in db.execs && db.execs[e].job !in gone :: db.execs[e],
       map j | j in db.dlq && j !in gone :: db.dlq[j])
  }

  method CountActiveJobs(db: Database, q: QueueId) returns (n: nat)
    ensures n == |ActiveJobs(db.Value(), q)|
    ensures n == |set j | j in db.jobs && db.jobs[j].queue == q && db.jobs[j].status !in {Completed, Failed, Dead}|
  {
    var active := set j | j in db.jobs && db.jobs[j].queue == q
                          && db.jobs[j].status in {Queued, Scheduled, Claimed, Running};
    assert active == ActiveJobs(db.Value(), q);
    assert active == set j | j in db.jobs && db.jobs[j].queue == q && db.jobs[j].status !in {Completed, Failed, Dead};
    n := |active|;
  }

  /** `update_queue`: a column of the row is the update's if it has one, and stays otherwise. */
  method UpdateQueue(db: Database, q: QueueId, u: QueueUpdate)
    requires q in db.queues
    modifies db
    ensures db.Value() == Updated(old(db.Value()), q, u)
    ensures q in db.queues && db.Value() == old(db.Value()).(queues := old(db.queues)[q := db.queues[q]])
    ensures var row, was := db.queues[q], old(db.queues[q]);
            && (if u.priority == None then row.priority == was.priority else Some(row.priority) == u.priority)
            && (if u.concurrencyLimit == None then row.concurrencyLimit == was.concurrencyLimit
                else Some(row.concurrencyLimit) == u.concurrencyLimit)
            && (if u.policy == None then row.policy == was.policy else Some(row.policy) == u.policy)
            && (if u.paused == None then row.paused == was.paused else Some(row.paused) == u.paused)
  {
    var queue := db.queues[q];
    if u.priority.Some? { queue := queue.(priority := u.priority.value); }
    if u.concurrencyLimit.Some? { queue := queue.(concurrencyLimit := u.concurrencyLimit.value); }
    if u.policy.Some? { queue := queue.(policy := u.policy.value); }
    if u.paused.Some? { queue := queue.(paused := u.paused.value); }
    db.queues := db.queues[q := queue];
  }

  method PauseQueue(db: Database, q: QueueId)
    requires q in db.queues
    modifies db
    ensures db.Value() == Updated(old(db.Value()), q, QueueUpdate(None, None, None, Some(true)))
    ensures db.Value() == old(db.Value()).(queues := old(db.queues)[q := old(db.queues[q]).(paused := true)])
  {
    db.queues := db.queues[q := db.queues[q].(paused := true)];
  }

  method ResumeQueue(db: Database, q: QueueId)
    requires q in db.queues
    modifies db
    ensures db.Value() == Updated(old(db.Value()), q, QueueUpdate(None, None, None, Some(false)))
    ensures db.Value() == old(db.Value()).(queues := old(db.queues)[q := old(db.queues[q]).(paused := false)])
  {
    db.queues := db.queues[q := db.queues[q].(paused := false)];
  }

  /** `delete_queue`: refused while the queue has active jobs, unless forced. */
  method DeleteQueue(db: Database, q: QueueId, force: bool) returns (refused: bool)
    requires q in db.queues
    modifies db
    ensures refused <==> !force && old(ActiveJobs(db.Value(), q)) != {}
    ensures refused <==> !force && exists j :: j in old(db.jobs) && old(db.jobs[j]).queue == q
                                               && old(db.jobs[j]).status !in {Completed, Failed, Dead}
    ensures refused ==> db.Value() == old(db.Value())
    ensures !refused ==> db.Value() == Deleted(old(db.Value()), q)
  {
    assert forall j :: j in ActiveJobs(db.Value(), q) <==>
        j in db.jobs && db.jobs[j].queue == q && db.jobs[j].status !in {Completed, Failed, Dead};
    var count := CountActiveJobs(db, q);
    if count > 0 && !force {
      return true;
    }
    var after := Deleted(db.Value(), q);
    db.queues, db.jobs, db.workers, db.execs, db.dlq := after.queues, after.jobs, after.workers, after.execs, after.dlq;
    return false;
  }

  /**
   The cascade, row by row: what belongs to the queue goes, and what stays is as it was but for
   references to what went.
   */
  lemma DeletesTheQueuesOwn(db: Db, q: QueueId)
    ensures var after := Deleted(db, q);
            && after.queues == db.queues - {q}
            && (forall j :: j in after.jobs <==> j in db.jobs && db.jobs[j].queue != q)
            && (forall j :: j in after.jobs ==>
                  && after.jobs[j] == db.jobs[j].(parent := after.jobs[j].parent, dependsOn := after.jobs[j].dependsOn)
                  && (if db.jobs[j].parent.Some? && db.jobs[j].parent.value in db.jobs - after.jobs.Keys
                      then after.jobs[j].parent == None else after.jobs[j].parent == db.jobs[j].parent)
                  && (if db.jobs[j].dependsOn.Some? && db.jobs[j].dependsOn.value in db.jobs - after.jobs.Keys
                      then after.jobs[j].dependsOn == None else after.jobs[j].dependsOn == db.jobs[j].dependsOn))
            && (forall j :: j in after.dlq <==> j in db.dlq && !(j in db.jobs && db.jobs[j].queue == q))
            && (forall j :: j in after.dlq ==> after.dlq[j] == db.dlq[j])
            && (forall e :: e in after.execs <==>
                  e in db.execs && !(db.execs[e].job in db.jobs && db.jobs[db.execs[e].job].queue == q))
            && (forall e :: e in after.execs ==> after.execs[e] == db.execs[e])
            && after.workers.Keys == db.workers.Keys
            && (forall w :: w in db.workers ==>
                  after.workers[w] == if db.workers[w].queue == Some(q) then db.workers[w].(queue := None)
                                      else db.workers[w])
  {
  }
}
