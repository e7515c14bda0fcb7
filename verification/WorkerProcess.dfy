/**
 The worker process: slots, dispatch, heartbeats, drain and exit (app/workers/main_worker.py).
 The first half is the loop itself; the second shows that a pass of it is a run of the protocol.
 */
module WorkerProcess {
  import opened Model
  import opened Protocol
  import opened System
  import Capacity
  import ClaimService
  import HeartbeatService
  import Heartbeats
  import Timing

  predicate Paused(db: Db, queue: Option<QueueId>) {
    queue.Some? && ClaimService.QueuePaused(db, queue.value)
  }

  function DoneFutures(futures: map<Future, Pc>): set<Future> {
    set k | k in futures && futures[k] == Done
  }

  /** What a pass may claim: nothing when paused or full, else the best rows that fit. */
  predicate Picks(db: Db, queue: Option<QueueId>, busy: nat, locked: set<JobId>, now: Time, batch: set<JobId>) {
    var available := Limit(db, queue) - busy;
    if Paused(db, queue) || available <= 0 then batch == {}
    else ClaimService.TopK(db, queue, now, locked, available, batch)
  }

  /** One future per claimed job; `claims` counts the claims a job has had before this one. */
  function NewFutures(batch: set<JobId>, claims: map<JobId, nat>): set<Future> {
    set j | j in batch && j in claims :: Future(j, claims[j] + 1)
  }

  function AfterDispatch(futures: map<Future, Pc>, batch: set<JobId>, claims: map<JobId, nat>): map<Future, Pc> {
    WithBatch(futures - DoneFutures(futures), NewFutures(batch, claims))
  }

  /** One by one: a pass forgets what is done, keeps what is not, and starts what it claimed. */
  lemma FuturesAfterDispatch(futures: map<Future, Pc>, batch: set<JobId>, claims: map<JobId, nat>, k: Future)
    ensures var after := AfterDispatch(futures, batch, claims);
            var started := k.job in batch && k.job in claims && k.claim == claims[k.job] + 1;
            && (k in after <==> started || (k in futures && futures[k] != Done))
            && (k in after ==> after[k] == if started then Pc.Dispatched else futures[k])
  {
    var started := NewFutures(batch, claims);
    assert k in started <==> k.job in batch && k.job in claims && k.claim == claims[k.job] + 1 by {
      if k.job in batch && k.job in claims && k.claim == claims[k.job] + 1 {
        assert k == Future(k.job, claims[k.job] + 1);
      }
    }
  }

  class Worker {
    const db: Database
    const id: WorkerId
    const queue: Option<QueueId>
    const heartbeat: int
    var futures: map<Future, Pc>
    var last: Time

    /** Start-up: the row is inserted at `stamp`, the loop's own clock starts at `now`. */
    constructor (db: Database, id: WorkerId, queue: Option<QueueId>, heartbeat: int, stamp: Time, now: Time)
      requires id !in db.workers
      modifies db
      ensures this.db == db && this.id == id && this.queue == queue && this.heartbeat == heartbeat
      ensures futures == map[] && last == now
      ensures db.Value() == HeartbeatService.Registered(old(db.Value()), id, queue, stamp)
    {
      this.db, this.id, this.queue, this.heartbeat := db, id, queue, heartbeat;
      futures, last := map[], now;
      new;
      HeartbeatService.RegisterWorker(db, id, queue, stamp);
    }

    /** Section A of the loop: forget every future that has finished. */
    method CleanFinished()
      modifies this`futures
      ensures futures == old(futures) - DoneFutures(old(futures))
      ensures forall k :: k in futures <==> k in old(futures) && old(futures)[k] != Done
      ensures forall k :: k in futures ==> futures[k] == old(futures)[k]
    {
      var finished := DoneFutures(futures);
      ghost var before := futures;
      while finished != {}
        invariant finished <= DoneFutures(before)
        invariant futures == before - (DoneFutures(before) - finished)
        decreases finished
      {
        var k :| k in finished;
        futures := futures - {k};
        finished := finished - {k};
        assert futures == before - (DoneFutures(before) - finished);
      }
    }

    /** Submit one future for each claimed job. */
    method Dispatch(batch: set<JobId>, claims: map<JobId, nat>)
      requires batch <= claims.Keys
      modifies this`futures
      ensures futures == WithBatch(old(futures), NewFutures(batch, claims))
    {
      var rest := batch;
      ghost var before := futures;
      assert futures == WithBatch(before, NewFutures({}, claims));
      while rest != {}
        invariant rest <= batch
        invariant futures == WithBatch(before, NewFutures(batch - rest, claims))
        decreases rest
      {
        var j :| j in rest;
        DispatchOneMore(before, batch - rest, j, claims);
        assert batch - (rest - {j}) == batch - rest + {j};
        futures := futures[Future(j, claims[j] + 1) := Pc.Dispatched];
        rest := rest - {j};
      }
      assert batch - rest == batch;
    }

    /** Sections B and C: unless paused, claim as many jobs as there are slots, and dispatch them. */
    method FillSlots(locked: set<JobId>, claims: map<JobId, nat>, now: Time) returns (ghost batch: set<JobId>)
      requires db.jobs.Keys <= claims.Keys
      modifies this`futures, db
      ensures Picks(old(db.Value()), queue, |old(futures)|, locked, now, batch)
      ensures var open := queue == None || queue.value !in old(db.queues) || !old(db.queues)[queue.value].paused;
              var room := (if queue == None then 10
                           else if queue.value in old(db.queues) then old(db.queues)[queue.value].concurrencyLimit
                           else 5) - |old(futures)|;
              if open && room > 0 then ClaimService.TopK(old(db.Value()), queue, now, locked, room, batch)
              else batch == {}
      ensures futures == WithBatch(old(futures), NewFutures(batch, claims))
      ensures db.Value() == ClaimService.AfterClaim(old(db.Value()), batch, Some(id))
    {
      batch := {};
      ghost var before := db.Value();
      var paused := false;
      var concurrency := DEFAULT_CONCURRENCY;
      if queue.Some? {
        paused := ClaimService.QueuePaused(db.Value(), queue.value);
        concurrency := ClaimService.QueueConcurrency(db.Value(), queue.value);
      }
      var available := concurrency - |futures|;
      if paused || available <= 0 {
        NothingClaimed(before, Some(id));
        NothingDispatched(futures, claims);
      } else {
        var claimed := ClaimService.ClaimJobs(db, queue, available, Some(id), locked, now);
        batch := claimed;
        assert batch <= ClaimService.EligibleSet(before, queue, now);
        Dispatch(claimed, claims);
      }
    }

    /**
     One pass of the loop body. `locked` are the rows other claims hold, `claims` identifies
     the futures, `seen` is the clock at the heartbeat check and `stamp` the database's.
     */
    method LoopBody(locked: set<JobId>, claims: map<JobId, nat>, now: Time, seen: Time, stamp: Time)
      returns (decommissioned: bool, ghost batch: set<JobId>)
      requires db.jobs.Keys <= claims.Keys
      modifies this, db
      ensures Picks(old(db.Value()), queue, |old(futures) - DoneFutures(old(futures))|, locked, now, batch)
      ensures futures == AfterDispatch(old(futures), batch, claims)
      ensures var claimed := ClaimService.AfterClaim(old(db.Value()), batch, Some(id));
              var due := seen - old(last) >= heartbeat;
              && (decommissioned <==> due && HeartbeatService.Decommissioned(claimed, id))
              && last == (if due && !decommissioned then seen else old(last))
              && db.Value() == if due && !decommissioned
                               then HeartbeatService.Beaten(claimed, id, |futures|, stamp) else claimed
    {
      CleanFinished();
      batch := FillSlots(locked, claims, now);
      decommissioned := false;
      if seen - last >= heartbeat {
        decommissioned := HeartbeatService.UpdateHeartbeat(db, id, |futures|, stamp);
        if !decommissioned {
          last := seen;
        }
      }
    }

    /** The way out, once the thread pool has waited for every future. */
    method Shutdown(stamp: Time)
      requires forall k :: k in futures ==> futures[k] == Done
      modifies db
      ensures db.Value() == HeartbeatService.Deregistered(old(db.Value()), id, stamp)
    {
      HeartbeatService.DeregisterWorker(db, id, stamp);
    }
  }

  lemma NothingClaimed(db: Db, w: Option<WorkerId>)
    ensures ClaimService.AfterClaim(db, {}, w) == db
  {
    assert ClaimService.ClaimedRows(db.jobs, {}, w) == db.jobs;
  }

  lemma DispatchOneMore(futures: map<Future, Pc>, batch: set<JobId>, j: JobId, claims: map<JobId, nat>)
    requires j in claims
    ensures WithBatch(futures, NewFutures(batch + {j}, claims)) ==
            WithBatch(futures, NewFutures(batch, claims))[Future(j, claims[j] + 1) := Pc.Dispatched]
  {
    assert NewFutures(batch + {j}, claims) == NewFutures(batch, claims) + {Future(j, claims[j] + 1)};
  }

  lemma NothingDispatched(futures: map<Future, Pc>, claims: map<JobId, nat>)
    ensures WithBatch(futures, NewFutures({}, claims)) == futures
  {
    assert NewFutures({}, claims) == {};
  }

  // ---------------------------------------------------------------- a pass is a run of the protocol

  /** Claim numbers as the protocol keeps them. */
  function Claims(s: State): map<JobId, nat> {
    map j | j in s.hist :: s.hist[j].claims
  }

  /** A run of `w`'s main thread alone. */
  predicate OwnRun(run: seq<Step>, w: WorkerId) {
    forall i :: 0 <= i < |run| ==> run[i].ByWorker? && run[i].w == w
  }

  /** One more step of `w` at the end of a run of its own. */
  lemma OneMore(c: Config, s: State, run: seq<Step>, w: WorkerId, a: WorkerAct) returns (longer: seq<Step>)
    requires ValidRun(c, s, run) && OwnRun(run, w) && WorkerEnabled(c, Final(c, s, run), w, a)
    ensures ValidRun(c, s, longer) && OwnRun(longer, w)
    ensures Final(c, s, longer) == WorkerApply(c, Final(c, s, run), w, a)
  {
    longer := run + [ByWorker(w, a)];
    RunExtends(c, s, run, ByWorker(w, a));
  }

  /** The state after cleaning and reading the limit. */
  function Ready(s: State, w: WorkerId): State
    requires w in s.procs
  {
    DoReadLimit(DoClean(s, w, DoneFutures(s.procs[w].futures)), w)
  }

  lemma ReadyIsReached(c: Config, s: State, w: WorkerId) returns (run: seq<Step>)
    requires CanReadLimit(s, w)
    ensures ValidRun(c, s, run) && OwnRun(run, w) && Final(c, s, run) == Ready(s, w)
  {
    run := OneMore(c, s, [], w, Clean(DoneFutures(s.procs[w].futures)));
    run := OneMore(c, s, run, w, ReadLimit);
  }

  lemma ReadyIsLocal(s: State, w: WorkerId)
    requires CanReadLimit(s, w)
    ensures var t, p := Ready(s, w), s.procs[w];
            && CanReadLimit(t, w) && t.db == s.db && t.now == s.now && t.hist == s.hist
            && t.procs == s.procs[w := p.(futures := p.futures - DoneFutures(p.futures), limit := Limit(s.db, p.queue))]
            && Locked(t.procs) == Locked(s.procs)
  {
    var t := Ready(s, w);
    forall j | j in Locked(s.procs) ensures j in Locked(t.procs) {
      var v :| v in s.procs && j in s.procs[v].locks;
      assert v in t.procs && j in t.procs[v].locks;
    }
    forall j | j in Locked(t.procs) ensures j in Locked(s.procs) {
      var v :| v in t.procs && j in t.procs[v].locks;
      assert v in s.procs && j in s.procs[v].locks;
    }
  }

  /** The state after claiming `batch` and dispatching it. */
  function Taken(s: State, w: WorkerId, batch: set<JobId>): State
    requires InBody(s, w) && batch <= s.hist.Keys
  {
    if batch == {} then s else DoClaimCommit(DoClaimLock(s, w, batch), w)
  }

  lemma TakenIsReached(c: Config, s: State, run: seq<Step>, w: WorkerId, batch: set<JobId>) returns (longer: seq<Step>)
    requires ValidRun(c, s, run) && OwnRun(run, w)
    requires var t := Final(c, s, run);
             InBody(t, w) && batch <= t.hist.Keys && (batch != {} ==> CanClaimLock(t, w, batch))
    ensures ValidRun(c, s, longer) && OwnRun(longer, w) && Final(c, s, longer) == Taken(Final(c, s, run), w, batch)
  {
    if batch == {} {
      longer := run;
    } else {
      longer := OneMore(c, s, run, w, ClaimLock(batch));
      longer := OneMore(c, s, longer, w, ClaimCommit);
    }
  }

  lemma TakenIsDispatched(s: State, w: WorkerId, batch: set<JobId>)
    requires InBody(s, w) && s.procs[w].locks == {} && batch <= s.hist.Keys
    ensures var t, p := Taken(s, w, batch), s.procs[w];
            && CanReadLimit(t, w) && t.now == s.now
            && t.db == ClaimService.AfterClaim(s.db, batch, Some(w))
            && t.procs == s.procs[w := p.(futures := WithBatch(p.futures, NewFutures(batch, Claims(s))))]
  {
    if batch == {} {
      NothingClaimed(s.db, Some(w));
      NothingDispatched(s.procs[w].futures, Claims(s));
    } else {
      var t := DoClaimLock(s, w, batch);
      assert Batch(t, batch) == NewFutures(batch, Claims(s));
    }
  }

  /** Whatever a pass may pick, the claiming statement may lock. */
  lemma PicksCanBeLocked(s: State, w: WorkerId, batch: set<JobId>)
    requires CanReadLimit(s, w) && s.procs[w].limit == Limit(s.db, s.procs[w].queue)
    requires Picks(s.db, s.procs[w].queue, |s.procs[w].futures|, Locked(s.procs), s.now, batch)
    ensures batch <= s.db.jobs.Keys
    ensures batch != {} ==> CanClaimLock(s, w, batch)
  {
    if batch != {} {
      assert batch <= ClaimService.EligibleSet(s.db, s.procs[w].queue, s.now);
    }
  }

  /** The heartbeat check of a pass. */
  function Check(c: Config, s: State, w: WorkerId, seen: Time, stamp: Time): Timing.Tick
    requires w in s.procs
  {
    if seen - s.procs[w].last >= c.timing.heartbeat then Timing.SendBeat(seen, stamp) else Timing.SkipBeat(seen)
  }

  lemma CheckIsEnabled(c: Config, s: State, w: WorkerId, seen: Time, stamp: Time)
    requires CanReadLimit(s, w) && !HeartbeatService.Decommissioned(s.db, w)
    requires s.procs[w].phase.start <= seen <= s.now && s.procs[w].phase.start <= stamp <= s.now
    ensures WorkerEnabled(c, s, w, Loop(Check(c, s, w, seen, stamp)))
    ensures var p, t := s.procs[w], WorkerApply(c, s, w, Loop(Check(c, s, w, seen, stamp)));
            var due := seen - p.last >= c.timing.heartbeat;
            && t.db == (if due then HeartbeatService.Beaten(s.db, w, |p.futures|, stamp) else s.db)
            && t.procs ==
               s.procs[w := p.(phase := Timing.Body(p.phase.start, true), last := if due then seen else p.last)]
  {
  }

  /** Only `w`'s memory differs. */
  predicate OthersAlone(s: State, t: State, w: WorkerId) {
    w in s.procs && t.procs.Keys == s.procs.Keys && forall v :: v in s.procs && v != w ==> t.procs[v] == s.procs[v]
  }

  /** What a pass has done to the database and to its own memory when it reaches the heartbeat check. */
  predicate Claimed(s: State, t: State, w: WorkerId, batch: set<JobId>) {
    && OthersAlone(s, t, w) && t.now == s.now
    && t.db == ClaimService.AfterClaim(s.db, batch, Some(w))
    && t.procs[w].futures == AfterDispatch(s.procs[w].futures, batch, Claims(s))
    && t.procs[w].phase == s.procs[w].phase && t.procs[w].last == s.procs[w].last
  }

  lemma TakenIsClaimed(s: State, w: WorkerId, batch: set<JobId>)
    requires CanReadLimit(s, w) && CanReadLimit(Ready(s, w), w) && batch <= Ready(s, w).hist.Keys
    ensures CanReadLimit(Taken(Ready(s, w), w, batch), w) && Claimed(s, Taken(Ready(s, w), w, batch), w, batch)
  {
    ReadyIsLocal(s, w);
    var t := Ready(s, w);
    TakenIsDispatched(t, w, batch);
    assert Claims(t) == Claims(s);
  }

  lemma ClaimedAndDispatched(c: Config, s: State, w: WorkerId, batch: set<JobId>) returns (run: seq<Step>)
    requires CanReadLimit(s, w) && s.db.jobs.Keys <= s.hist.Keys
    requires Picks(s.db, s.procs[w].queue, |s.procs[w].futures - DoneFutures(s.procs[w].futures)|,
                   Locked(s.procs), s.now, batch)
    ensures ValidRun(c, s, run) && OwnRun(run, w)
    ensures CanReadLimit(Final(c, s, run), w) && Claimed(s, Final(c, s, run), w, batch)
  {
    run := ReadyIsReached(c, s, w);
    ReadyIsLocal(s, w);
    var t := Ready(s, w);
    PicksCanBeLocked(t, w, batch);
    run := TakenIsReached(c, s, run, w, batch);
    TakenIsClaimed(s, w, batch);
  }

  /** The state `LoopBody` promises, in the protocol's terms. */
  predicate PassDone(c: Config, s: State, t: State, w: WorkerId, batch: set<JobId>, seen: Time, stamp: Time) {
    && OthersAlone(s, t, w)
    && var p := s.procs[w];
       var due := seen - p.last >= c.timing.heartbeat;
       var claimed := ClaimService.AfterClaim(s.db, batch, Some(w));
       var futures := AfterDispatch(p.futures, batch, Claims(s));
       && !HeartbeatService.Decommissioned(claimed, w)
       && t.db == (if due then HeartbeatService.Beaten(claimed, w, |futures|, stamp) else claimed)
       && t.procs[w].futures == futures && t.procs[w].last == (if due then seen else p.last)
  }

  lemma ClaimedThenChecked(c: Config, s: State, t: State, w: WorkerId, batch: set<JobId>, seen: Time, stamp: Time)
    requires Claimed(s, t, w, batch) && CanReadLimit(t, w) && !HeartbeatService.Decommissioned(t.db, w)
    requires s.procs[w].phase.start <= seen <= s.now && s.procs[w].phase.start <= stamp <= s.now
    ensures WorkerEnabled(c, t, w, Loop(Check(c, t, w, seen, stamp)))
    ensures PassDone(c, s, WorkerApply(c, t, w, Loop(Check(c, t, w, seen, stamp))), w, batch, seen, stamp)
  {
    CheckIsEnabled(c, t, w, seen, stamp);
  }

  /**
   Refinement: from any state of any run, a pass of the loop that nothing interrupts is a run
   of the protocol's steps for this worker. It leaves the database, futures and heartbeat
   clock that `LoopBody` promises, and its heartbeat is not refused.
   */
  lemma PassIsARun(c: Config, s: State, w: WorkerId, batch: set<JobId>, seen: Time, stamp: Time)
    returns (run: seq<Step>)
    requires c.Sane() && Inv(c, s) && CanReadLimit(s, w)
    requires Picks(s.db, s.procs[w].queue, |s.procs[w].futures - DoneFutures(s.procs[w].futures)|,
                   Locked(s.procs), s.now, batch)
    requires s.procs[w].phase.start <= seen <= s.now && s.procs[w].phase.start <= stamp <= s.now
    ensures ValidRun(c, s, run) && OwnRun(run, w)
    ensures PassDone(c, s, Final(c, s, run), w, batch, seen, stamp)
  {
    Heartbeats.HeartbeatIsAccepted(s, w);
    run := ClaimedAndDispatched(c, s, w, batch);
    var t := Final(c, s, run);
    ClaimedThenChecked(c, s, t, w, batch, seen, stamp);
    run := OneMore(c, s, run, w, Loop(Check(c, t, w, seen, stamp)));
  }

  /** Slots: whatever the limit read, a pass never leaves more futures than it or than it found. */
  lemma PassFitsSlots(db: Db, queue: Option<QueueId>, futures: map<Future, Pc>, locked: set<JobId>, now: Time,
                      batch: set<JobId>, claims: map<JobId, nat>)
    requires Picks(db, queue, |futures - DoneFutures(futures)|, locked, now, batch)
    ensures var after := AfterDispatch(futures, batch, claims);
            |after| <= |futures| || |after| <= Limit(db, queue)
  {
    var kept := futures - DoneFutures(futures);
    assert kept.Keys <= futures.Keys;
    Capacity.SubsetSize(kept.Keys, futures.Keys);
    Capacity.MapUnionSize(kept, NewFutures(batch, claims));
    NewFuturesFit(batch, claims);
  }

  lemma {:induction false} NewFuturesFit(batch: set<JobId>, claims: map<JobId, nat>)
    ensures |NewFutures(batch, claims)| <= |batch|
    decreases batch
  {
    if batch == {} {
      assert NewFutures(batch, claims) == {};
    } else {
      var j :| j in batch;
      NewFuturesFit(batch - {j}, claims);
      assert NewFutures(batch, claims) ==
        NewFutures(batch - {j}, claims) + (if j in claims then {Future(j, claims[j] + 1)} else {});
    }
  }
}
