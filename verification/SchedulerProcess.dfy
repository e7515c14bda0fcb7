/** The scheduler process: leader election and one tick of the loop (app/workers/scheduler.py). */
module SchedulerProcess {
  import opened Model
  import opened LockService
  import opened SchedulerService

  /** Promotion touches no template, so it changes nothing the cron pass looks at. */
  lemma PromotionLeavesTemplates(db: Db, size: int, now: Time, batch: set<JobId>)
    requires DueBatch(db, None, now, size, batch)
    ensures Promoted(db, batch).jobs.Keys == db.jobs.Keys
    ensures Templates(Promoted(db, batch), None) == Templates(db, None)
    ensures forall t :: t in Templates(db, None) ==> Promoted(db, batch).jobs[t] == db.jobs[t]
  {
    assert batch <= DueSet(db, None, now);
    assert Promoted(db, batch).jobs.Keys == db.jobs.Keys;
  }

  class Scheduler {
    const server: LockServer
    const db: Database
    const lock: LockId
    const session: SessionId
    var hasLock: bool

    constructor (server: LockServer, db: Database, lock: LockId, session: SessionId)
      requires !Holds(server.locks, lock, session)
      ensures this.server == server && this.db == db && this.lock == lock && this.session == session
      ensures Valid() && !hasLock
    {
      this.server, this.db, this.lock, this.session := server, db, lock, session;
      hasLock := false;
    }

    /** The flag is never rechecked; it is right as long as nobody else touches the session. */
    ghost predicate Valid()
      reads this, server
    {
      && (hasLock <==> Holds(server.locks, lock, session))
      && (hasLock ==> server.locks[lock].depth == 1)
    }

    /**
     One pass of the loop: become or remain leader, then promote and fire. A standby leaves the
     database alone; `ids` are the keys the database gives to children.
     */
    method Tick(now: Time, ids: map<JobId, JobId>, ghost matches: (CronExpr, Time) -> bool,
                getNext: (CronExpr, Time) -> Time)
      returns (promoted: nat, spawned: nat, ghost batch: set<JobId>, ghost templates: set<JobId>)
      requires Valid() && Iterates(matches, getNext)
      requires FreshIds(db.jobs, Templates(db.Value(), None), ids)
      modifies this`hasLock, server, db
      ensures Valid() && (hasLock <==> old(hasLock || Grants(server.locks, lock, session)))
      ensures hasLock <==> old(lock !in server.locks || server.locks[lock].session == session)
      ensures lock in server.locks && (server.locks[lock].session == session <==> hasLock)
      ensures server.locks == if hasLock && !old(hasLock) then Acquired(old(server.locks), lock, session)
                              else old(server.locks)
      ensures !hasLock ==> db.Value() == old(db.Value()) && promoted == spawned == 0
      ensures hasLock ==>
                && DueBatch(old(db.Value()), None, now, 100, batch) && promoted == |batch|
                && var mid := Promoted(old(db.Value()), batch);
                   && templates <= Templates(mid, None) && |templates| <= 100
                   && (|templates| < 100 ==> templates == Templates(mid, None))
                   && Ticked(mid.jobs, db.jobs, templates, ids, getNext, now)
                   && spawned == |Firing(mid.jobs, templates, now)|
                   && db.Value() == mid.(jobs := db.jobs)
    {
      promoted, spawned, batch, templates := 0, 0, {}, {};
      if !hasLock {
        hasLock := server.AcquireAdvisoryLock(lock, session);
      }
      if hasLock {
        ghost var before := db.Value();
        promoted, batch := PromoteDueJobs(db, None, BATCH_SIZE, now);
        PromotionLeavesTemplates(before, BATCH_SIZE, now, batch);
        spawned, templates := ProcessCronJobs(db, None, BATCH_SIZE, now, ids, matches, getNext);
      }
    }

    /** The way out of the loop: a leader gives the lock up, whatever it did before. */
    method Exit()
      requires Valid()
      modifies this`hasLock, server
      ensures Valid() && !hasLock
      ensures server.locks == if old(hasLock) then old(server.locks) - {lock} else old(server.locks)
    {
      if hasLock {
        var _ := server.ReleaseAdvisoryLock(lock, session);
        hasLock := false;
      }
    }
  }
}
