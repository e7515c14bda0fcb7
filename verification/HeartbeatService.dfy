/** Worker registration, heartbeats and deregistration (app/services/heartbeat_service.py). */
module HeartbeatService {
  import opened Model
  import ReaperService

  /** `register_worker`; the heartbeat is stamped by the inserting transaction. */
  function Registered(db: Db, w: WorkerId, queue: Option<QueueId>, stamp: Time): Db {
    db.(workers := db.workers[w := Worker(queue, true, stamp, 0)])
  }

  /** `update_heartbeat` refuses a row that is missing or dead. */
  predicate Decommissioned(db: Db, w: WorkerId) {
    w !in db.workers || !db.workers[w].active
  }

  function Beaten(db: Db, w: WorkerId, tasks: nat, stamp: Time): Db
    requires !Decommissioned(db, w)
  {
    db.(workers := db.workers[w := db.workers[w].(heartbeat := stamp, tasks := tasks, active := true)])
  }

  /** `deregister_worker`: an UPDATE that matches at most one row. */
  function Deregistered(db: Db, w: WorkerId, stamp: Time): Db {
    if w in db.workers then
      db.(workers := db.workers[w := db.workers[w].(active := false, tasks := 0, heartbeat := stamp)])
    else db
  }

  method RegisterWorker(db: Database, w: WorkerId, queue: Option<QueueId>, stamp: Time)
    requires w !in db.workers
    modifies db
    ensures db.Value() == Registered(old(db.Value()), w, queue, stamp)
    ensures db.Value() == old(db.Value()).(workers := old(db.workers)[w := Worker(queue, true, stamp, 0)])
  {
    db.workers := db.workers[w := Worker(queue, true, stamp, 0)];
  }

  method UpdateHeartbeat(db: Database, w: WorkerId, tasks: nat, stamp: Time) returns (decommissioned: bool)
    modifies db
    ensures decommissioned <==> old(Decommissioned(db.Value(), w))
    ensures decommissioned <==> !(w in old(db.workers) && old(db.workers[w]).active)
    ensures decommissioned ==> db.Value() == old(db.Value())
    ensures !decommissioned ==>
              && db.Value() == Beaten(old(db.Value()), w, tasks, stamp)
              && db.Value() == old(db.Value()).(workers := old(db.workers)[w := db.workers[w]])
              && db.workers[w] == Worker(old(db.workers[w]).queue, true, stamp, tasks)
  {
    if w !in db.workers || !db.workers[w].active {
      return true;
    }
    var worker := db.workers[w];
    worker := worker.(heartbeat := stamp);
    worker := worker.(tasks := tasks);
    worker := worker.(active := true);
    db.workers := db.workers[w := worker];
    return false;
  }

  method DeregisterWorker(db: Database, w: WorkerId, stamp: Time)
    modifies db
    ensures db.Value() == Deregistered(old(db.Value()), w, stamp)
    ensures db.Value() == old(db.Value()).(workers := db.workers)
    ensures w !in old(db.workers) ==> db.workers == old(db.workers)
    ensures w in old(db.workers) ==>
              db.workers == old(db.workers)[w := Worker(old(db.workers[w]).queue, false, stamp, 0)]
  {
    if w in db.workers {
      db.workers := db.workers[w := db.workers[w].(active := false, tasks := 0, heartbeat := stamp)];
    }
  }

  // ---------------------------------------------------------------- the life of a worker's row

  datatype Beat = Beat(tasks: nat, stamp: Time)

  /** The table after accepted heartbeats. */
  function AfterBeats(db: Db, w: WorkerId, beats: seq<Beat>): (after: Db)
    requires !Decommissioned(db, w)
    ensures !Decommissioned(after, w)
    decreases |beats|
  {
    if beats == [] then db
    else
      var last := beats[|beats| - 1];
      Beaten(AfterBeats(db, w, beats[..|beats| - 1]), w, last.tasks, last.stamp)
  }

  /**
   From registration on, through any heartbeats, a worker's next heartbeat is accepted, its row
   shows the latest stamp and task count, the reaper's query finds it exactly when it has been
   silent since before the cutoff, and no other worker is affected.
   */
  lemma {:induction false} StaleExactlyWhenSilent(db: Db, w: WorkerId, queue: Option<QueueId>, stamp: Time,
                                                  beats: seq<Beat>, cutoff: Time)
    ensures var live := AfterBeats(Registered(db, w, queue, stamp), w, beats);
            var last := if beats == [] then Beat(0, stamp) else beats[|beats| - 1];
            && live.workers[w] == Worker(queue, true, last.stamp, last.tasks)
            && (w in ReaperService.StaleWorkers(live, cutoff) <==> last.stamp < cutoff)
            && ReaperService.StaleWorkers(live, cutoff) - {w} == ReaperService.StaleWorkers(db, cutoff) - {w}
    decreases |beats|
  {
    if beats != [] {
      StaleExactlyWhenSilent(db, w, queue, stamp, beats[..|beats| - 1], cutoff);
    }
  }

  /**
   Deregistering ends that life: no later heartbeat is accepted, no cutoff makes the reaper find
   the worker, and the reaper finds whom it found before among the others.
   */
  lemma DeregisteredIsGone(db: Db, w: WorkerId, stamp: Time, cutoff: Time)
    ensures var gone := Deregistered(db, w, stamp);
            && Decommissioned(gone, w)
            && ReaperService.StaleWorkers(gone, cutoff) == ReaperService.StaleWorkers(db, cutoff) - {w}
            && Deregistered(gone, w, stamp) == gone
            && gone.jobs == db.jobs
  {
    var gone := Deregistered(db, w, stamp);
    assert w in db.workers ==> Deregistered(gone, w, stamp).workers == gone.workers;
  }
}
