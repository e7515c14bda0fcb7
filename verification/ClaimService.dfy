/**
 Batch claiming with `SELECT ... ORDER BY priority, created_at LIMIT k FOR UPDATE SKIP LOCKED`
 (app/services/claim_service.py).
 */
module ClaimService {
  import opened Model
  import Selection

  /** The WHERE clause: queued, due, and in a queue that is not paused. */
  predicate Eligible(db: Db, queue: Option<QueueId>, now: Time, j: JobId) {
    && j in db.jobs
    && (queue.Some? ==> db.jobs[j].queue == queue.value)
    && (db.jobs[j].queue in db.queues ==> !db.queues[db.jobs[j].queue].paused)
    && db.jobs[j].status == Queued
    && (db.jobs[j].scheduledAt.Some? ==> db.jobs[j].scheduledAt.value <= now)
  }

  function EligibleSet(db: Db, queue: Option<QueueId>, now: Time): set<JobId> {
    set j | j in db.jobs && Eligible(db, queue, now, j)
  }

  /** The ORDER BY clause, strictly. */
  predicate SortsBefore(a: Job, b: Job) {
    a.priority < b.priority || (a.priority == b.priority && a.createdAt < b.createdAt)
  }

  /**
   What one statement may return: at most `limit` eligible rows that nobody holds a lock on,
   as many as there are, and none left out that sorts strictly before one taken.
   */
  predicate TopK(db: Db, queue: Option<QueueId>, now: Time, locked: set<JobId>, limit: int, chosen: set<JobId>) {
    Selection.Limited(db.jobs, EligibleSet(db, queue, now) - locked, limit, SortsBefore, chosen)
  }

  /** WHERE and SKIP LOCKED, column by column. */
  lemma EligibleIsTheFilter(db: Db, queue: Option<QueueId>, now: Time, locked: set<JobId>)
    ensures EligibleSet(db, queue, now) - locked
            == set j | j in db.jobs && j !in locked && db.jobs[j].status == Queued
                       && (queue == None || queue == Some(db.jobs[j].queue))
                       && !(db.jobs[j].queue in db.queues && db.queues[db.jobs[j].queue].paused)
                       && (db.jobs[j].scheduledAt == None || db.jobs[j].scheduledAt.value <= now)
  {
  }

  /** ORDER BY and LIMIT: what the statement may return, no more and no less. */
  lemma TopKIsTheQuery(db: Db, queue: Option<QueueId>, now: Time, locked: set<JobId>, limit: int, chosen: set<JobId>)
    requires limit > 0
    ensures var free := EligibleSet(db, queue, now) - locked;
            TopK(db, queue, now, locked, limit, chosen) <==>
              && chosen <= free && |chosen| <= limit
              && (chosen != free ==> |chosen| == limit)
              && forall c, e :: c in chosen && e in free - chosen ==>
                   || db.jobs[c].priority < db.jobs[e].priority
                   || (db.jobs[c].priority == db.jobs[e].priority && db.jobs[c].createdAt <= db.jobs[e].createdAt)
  {
    var free := EligibleSet(db, queue, now) - locked;
    if chosen <= free {
      forall c, e | c in chosen && e in free - chosen
        ensures !SortsBefore(db.jobs[e], db.jobs[c]) <==>
                  || db.jobs[c].priority < db.jobs[e].priority
                  || (db.jobs[c].priority == db.jobs[e].priority && db.jobs[c].createdAt <= db.jobs[e].createdAt)
      {
      }
    }
  }

  lemma SortIsStrict()
    ensures Selection.StrictOrder(SortsBefore)
  {
  }

  /** The UPDATE: every chosen row becomes claimed by `w`, no other row changes. */
  function ClaimedRows(jobs: map<JobId, Job>, chosen: set<JobId>, w: Option<WorkerId>): map<JobId, Job> {
    map j | j in jobs :: if j in chosen then jobs[j].(status := Claimed, worker := w) else jobs[j]
  }

  function AfterClaim(db: Db, chosen: set<JobId>, w: Option<WorkerId>): Db {
    db.(jobs := ClaimedRows(db.jobs, chosen, w))
  }

  method ClaimRows(db: Database, batch: set<JobId>, w: Option<WorkerId>)
    requires batch <= db.jobs.Keys
    modifies db
    ensures db.Value() == AfterClaim(old(db.Value()), batch, w)
  {
    var claimed := map j | j in batch :: db.jobs[j].(status := Claimed, worker := w);
    assert db.jobs + claimed == ClaimedRows(db.jobs, batch, w);
    db.jobs := db.jobs + claimed;
  }

  /**
   `claim_jobs`. `locked` are the rows other open transactions hold. The returned batch is a
   set: the closing re-query has no ORDER BY.
   */
  method ClaimJobs(db: Database, queue: Option<QueueId>, limit: int, w: Option<WorkerId>, locked: set<JobId>, now: Time)
    returns (batch: set<JobId>)
    modifies db
    ensures limit <= 0 ==> batch == {}
    ensures limit > 0 ==> TopK(old(db.Value()), queue, now, locked, limit, batch)
    ensures forall c, e :: c in batch && e in old(EligibleSet(db.Value(), queue, now)) - locked - batch ==>
              || old(db.jobs[c].priority) < old(db.jobs[e].priority)
              || (old(db.jobs[c].priority) == old(db.jobs[e].priority) &&
                  old(db.jobs[c].createdAt) <= old(db.jobs[e].createdAt))
    ensures db.Value() == AfterClaim(old(db.Value()), batch, w)
    ensures db.Value() == old(db.Value()).(jobs := db.jobs) && db.jobs.Keys == old(db.jobs).Keys
    ensures forall j :: j in db.jobs ==>
              db.jobs[j] == if j in batch then old(db.jobs[j]).(status := Claimed, worker := w) else old(db.jobs[j])
  {
    if limit <= 0 {
      assert ClaimedRows(db.jobs, {}, w) == db.jobs;
      return {};
    }
    SortIsStrict();
    batch := Selection.Select(db.jobs, EligibleSet(db.Value(), queue, now) - locked, limit, SortsBefore);
    ClaimRows(db, batch, w);
  }

  /** `get_queue_concurrency`. */
  function QueueConcurrency(db: Db, q: QueueId): int {
    if q in db.queues then db.queues[q].concurrencyLimit else 5
  }

  /** `is_queue_paused`. */
  predicate QueuePaused(db: Db, q: QueueId) {
    q in db.queues && db.queues[q].paused
  }

  // ---------------------------------------------------------------- properties

  /** A claim takes rows out of the eligible set and adds none, in every queue scope. */
  lemma ClaimShrinksEligible(db: Db, chosen: set<JobId>, w: Option<WorkerId>, queue: Option<QueueId>, now: Time)
    ensures EligibleSet(AfterClaim(db, chosen, w), queue, now) == EligibleSet(db, queue, now) - chosen
  {
  }

  /** One claim: what it asked for, at which instant, and what it got. */
  datatype Claim = Claim(limit: int, worker: Option<WorkerId>, now: Time, batch: set<JobId>)

  /** The claims follow one another and nothing else happens to the rows. */
  predicate Successive(db: Db, queue: Option<QueueId>, claims: seq<Claim>)
    decreases |claims|
  {
    claims != [] ==>
      && TopK(db, queue, claims[0].now, {}, claims[0].limit, claims[0].batch)
      && Successive(AfterClaim(db, claims[0].batch, claims[0].worker), queue, claims[1..])
  }

  function Drained(claims: seq<Claim>): set<JobId>
    decreases |claims|
  {
    if claims == [] then {} else claims[0].batch + Drained(claims[1..])
  }

  /** Nothing in a later batch was in an earlier one, or is more urgent or older at equal urgency. */
  predicate InSortOrder(jobs: map<JobId, Job>, claims: seq<Claim>) {
    forall i, k :: 0 <= i < k < |claims| ==> NotBefore(jobs, claims[i].batch, claims[k].batch)
  }

  predicate NotBefore(jobs: map<JobId, Job>, first: set<JobId>, second: set<JobId>) {
    first !! second &&
    forall a, b :: a in first && b in second && a in jobs && b in jobs ==>
      || jobs[a].priority < jobs[b].priority
      || (jobs[a].priority == jobs[b].priority && jobs[a].createdAt <= jobs[b].createdAt)
  }

  lemma {:induction false} LaterBatchesAreDrained(claims: seq<Claim>, k: nat)
    requires k < |claims|
    ensures claims[k].batch <= Drained(claims)
    decreases |claims|
  {
    if k > 0 {
      LaterBatchesAreDrained(claims[1..], k - 1);
    }
  }

  /** A claim changes no sort key. */
  lemma SameOrderAfterClaim(db: Db, claim: Claim, first: set<JobId>, second: set<JobId>)
    requires NotBefore(AfterClaim(db, claim.batch, claim.worker).jobs, first, second)
    ensures NotBefore(db.jobs, first, second)
  {
    var after := AfterClaim(db, claim.batch, claim.worker).jobs;
    assert forall j :: j in db.jobs ==>
        j in after && after[j].priority == db.jobs[j].priority && after[j].createdAt == db.jobs[j].createdAt;
  }

  lemma OrderExtends(db: Db, queue: Option<QueueId>, free: set<JobId>, claims: seq<Claim>)
    requires claims != [] && EligibleSet(db, queue, claims[0].now) == free
    requires TopK(db, queue, claims[0].now, {}, claims[0].limit, claims[0].batch)
    requires Drained(claims[1..]) <= free - claims[0].batch
    requires InSortOrder(AfterClaim(db, claims[0].batch, claims[0].worker).jobs, claims[1..])
    ensures InSortOrder(db.jobs, claims)
  {
    var first, rest := claims[0], claims[1..];
    forall i, k | 0 <= i < k < |claims| ensures NotBefore(db.jobs, claims[i].batch, claims[k].batch) {
      if i == 0 {
        LaterBatchesAreDrained(rest, k - 1);
        FirstBatchIsBest(db, queue, free, first, claims[k].batch);
      } else {
        assert NotBefore(AfterClaim(db, first.batch, first.worker).jobs, rest[i - 1].batch, rest[k - 1].batch);
        SameOrderAfterClaim(db, first, rest[i - 1].batch, rest[k - 1].batch);
      }
    }
  }

  lemma FirstBatchIsBest(db: Db, queue: Option<QueueId>, free: set<JobId>, first: Claim, later: set<JobId>)
    requires EligibleSet(db, queue, first.now) == free && later <= free - first.batch
    requires TopK(db, queue, first.now, {}, first.limit, first.batch)
    ensures NotBefore(db.jobs, first.batch, later)
  {
    assert free - {} == free;
    forall a, b | a in first.batch && b in later ensures !SortsBefore(db.jobs[b], db.jobs[a]) {
    }
  }

  /** Some claim got less than it asked for. */
  predicate ComesUpShort(claims: seq<Claim>)
    decreases |claims|
  {
    claims != [] && (|claims[0].batch| < claims[0].limit || ComesUpShort(claims[1..]))
  }

  /**
   With no arrivals, successive claims of any number, by any workers and with any limits, drain
   the queue in sort order; they take only what was there, and once one comes up short they have
   taken all of it.
   */
  lemma {:induction false} BatchesDrainInOrder(db: Db, queue: Option<QueueId>, free: set<JobId>, claims: seq<Claim>)
    requires Successive(db, queue, claims)
    requires forall i :: 0 <= i < |claims| ==> EligibleSet(db, queue, claims[i].now) == free
    ensures InSortOrder(db.jobs, claims)
    ensures Drained(claims) <= free
    ensures ComesUpShort(claims) ==> Drained(claims) == free
    decreases |claims|
  {
    if claims != [] {
      var first, rest := claims[0], claims[1..];
      var after := AfterClaim(db, first.batch, first.worker);
      forall i | 0 <= i < |rest| ensures EligibleSet(after, queue, rest[i].now) == free - first.batch {
        assert rest[i] == claims[i + 1];
        ClaimShrinksEligible(db, first.batch, first.worker, queue, rest[i].now);
      }
      BatchesDrainInOrder(after, queue, free - first.batch, rest);
      OrderExtends(db, queue, free, claims);
      assert free - {} == free;
    }
  }
}
