/** Job submission with deduplication (app/services/job_service.py). */
module JobService {
  import opened Model
  import opened Keys
  import Helpers
  import IdempotencyService

  /** The limit a job is created with: its own, else the queue policy's, else three. */
  function InheritedLimit(queue: Queue, data: JobCreate): int {
    if data.maxRetries.Some? then data.maxRetries.value
    else if queue.policy.maxRetries.Some? then queue.policy.maxRetries.value
    else 3
  }

  function InitialStatus(data: JobCreate): Status {
    if data.cron.Some? || data.scheduledAt.Some? then Scheduled else Queued
  }

  /** The row a submission inserts. */
  function NewRow(q: QueueId, queue: Queue, data: JobCreate, key: Option<string>, now: Time): Job {
    Job(q, InitialStatus(data), data.payload, if data.priority.Some? then data.priority.value else queue.priority,
        now, data.scheduledAt, data.cron, 0, InheritedLimit(queue, data), None, key, None, data.dependsOn)
  }

  /** `MissingParent` is the 400 answer; `DuplicateKey` is the database's unique constraint. */
  datatype SubmitError = MissingParent | DuplicateKey

  /** The header's key: absent and empty mean none, anything else is stripped and kept. */
  function CleanKey(header: Option<string>): Option<string> {
    if header.Some? && header.value != "" then Some(Helpers.Strip(header.value)) else None
  }

  /** A key that is looked up; a blank one is not. */
  predicate Usable(key: Option<string>) {
    key.Some? && key.value != ""
  }

  function KeyColumn(jobs: map<JobId, Job>): Column {
    map j | j in jobs :: jobs[j].key
  }

  /** What submission would do without any cache: one answer and one table. */
  ghost predicate TableOnly(db: Db, q: QueueId, data: JobCreate, key: Option<string>, newId: JobId, now: Time,
                            db': Db, r: Result<Receipt, SubmitError>)
    requires q in db.queues
  {
    if Usable(key) && Owners(KeyColumn(db.jobs), key.value) != {} then
      db' == db && r.Success? && r.value.duplicate && r.value.job in Owners(KeyColumn(db.jobs), key.value)
    else if data.dependsOn.Some? && data.dependsOn.value !in db.jobs then
      db' == db && r == Failure(MissingParent)
    else if key.Some? && Owners(KeyColumn(db.jobs), key.value) != {} then
      db' == db && r == Failure(DuplicateKey)
    else
      db' == db.(jobs := db.jobs[newId := NewRow(q, db.queues[q], data, key, now)])
      && r == Success(Receipt(newId, false))
  }

  /** What a client may expect of its row: its own options or else the queue's, and a fresh start. */
  lemma RowAsRequested(q: QueueId, queue: Queue, data: JobCreate, key: Option<string>, now: Time)
    ensures var row := NewRow(q, queue, data, key, now);
            && row.queue == q && row.payload == data.payload && row.createdAt == now && row.key == key
            && row.scheduledAt == data.scheduledAt && row.cron == data.cron && row.dependsOn == data.dependsOn
            && row.status == (if data.scheduledAt == None && data.cron == None then Queued else Scheduled)
            && (data.priority == Some(row.priority) || (data.priority == None && row.priority == queue.priority))
            && (data.maxRetries == Some(row.maxRetries)
                || (data.maxRetries == None && queue.policy.maxRetries == Some(row.maxRetries))
                || (data.maxRetries == None && queue.policy.maxRetries == None && row.maxRetries == 3))
            && row.retryCount == 0 && row.worker == None && row.parent == None
  {
  }

  /** The answers case by case, in terms of the header. */
  lemma AnswersExactly(db: Db, q: QueueId, data: JobCreate, header: Option<string>, newId: JobId, now: Time,
                       db': Db, r: Result<Receipt, SubmitError>)
    requires q in db.queues && newId !in db.jobs && TableOnly(db, q, data, CleanKey(header), newId, now, db', r)
    ensures var key := if header.None? || header == Some("") then None else Some(Helpers.Strip(header.value));
            var taken := key.Some? && exists j :: j in db.jobs && db.jobs[j].key == key;
            var orphaned := data.dependsOn.Some? && data.dependsOn.value !in db.jobs;
            && (r.Success? && r.value.duplicate <==> taken && key != Some(""))
            && (r == Failure(MissingParent) <==> orphaned && !(taken && key != Some("")))
            && (r == Failure(DuplicateKey) <==> taken && key == Some("") && !orphaned)
            && (r.Failure? || r.value.duplicate ==> db' == db)
            && (r.Success? && r.value.duplicate ==> r.value.job in db.jobs && db.jobs[r.value.job].key == key)
            && (r.Success? && !r.value.duplicate ==>
                  && r.value.job == newId && newId in db'.jobs && db'.jobs[newId].key == key
                  && db' == db.(jobs := db.jobs[newId := db'.jobs[newId]]))
  {
    var key := CleanKey(header);
    if key.Some? {
      assert Owners(KeyColumn(db.jobs), key.value) == {} <==> !exists j :: j in db.jobs && db.jobs[j].key == key by {
        forall j | j in db.jobs && db.jobs[j].key == key ensures j in Owners(KeyColumn(db.jobs), key.value) {
        }
      }
    }
  }

  /** A cached id is the right one, unless its job is gone. */
  predicate CacheAgrees(jobs: map<JobId, Job>, entries: map<string, IdempotencyService.Entry>) {
    forall k :: k in entries && entries[k].job in jobs ==> jobs[entries[k].job].key == Some(k)
  }

  /** Keys are never handed out twice, not even after a deletion the cache has not noticed. */
  predicate NeverUsed(jobs: map<JobId, Job>, entries: map<string, IdempotencyService.Entry>, id: JobId) {
    id !in jobs && forall k :: k in entries ==> entries[k].job != id
  }

  /** The insert, refused by the unique index if the key is taken. */
  method Insert(db: Database, row: Job, newId: JobId) returns (ok: bool)
    requires newId !in db.jobs
    modifies db
    ensures ok <==> row.key.None? || old(Owners(KeyColumn(db.jobs), row.key.value)) == {}
    ensures db.Value() == if ok then old(db.Value()).(jobs := old(db.jobs)[newId := row]) else old(db.Value())
  {
    if row.key.Some? && Owners(KeyColumn(db.jobs), row.key.value) != {} {
      return false;
    }
    db.jobs := db.jobs[newId := row];
    return true;
  }

  /** The two lookups: by cached id first, then by key. */
  method FindExisting(db: Database, cache: IdempotencyService.Cache, key: string, ttl: int,
                      readLink: IdempotencyService.Link, storeLink: IdempotencyService.Link, now: Time)
    returns (found: Option<JobId>)
    requires CacheAgrees(db.jobs, cache.entries)
    modifies cache
    ensures CacheAgrees(db.jobs, cache.entries)
    ensures forall id :: old(NeverUsed(db.jobs, cache.entries, id)) ==> NeverUsed(db.jobs, cache.entries, id)
    ensures found.None? <==> Owners(KeyColumn(db.jobs), key) == {}
    ensures found.Some? ==> found.value in Owners(KeyColumn(db.jobs), key)
    ensures var kept := key in old(cache.entries) && old(cache.entries)[key].expires > now;
            cache.entries == if found.Some? && storeLink.reached && !kept
                             then old(cache.entries)[key := IdempotencyService.Entry(found.value, now + ttl)]
                             else old(cache.entries)
  {
    var cachedId := IdempotencyService.GetIdempotencyKey(cache, key, readLink, now);
    if cachedId.Some? && cachedId.value in db.jobs {
      assert cachedId.value in Owners(KeyColumn(db.jobs), key);
      return cachedId;
    }
    var existing := Owners(KeyColumn(db.jobs), key);
    if existing == {} {
      return None;
    }
    var first :| first in existing;
    var _ := IdempotencyService.StoreIdempotencyKey(cache, key, first, ttl, storeLink, now);
    return Some(first);
  }

  /**
   `create_job`. Whatever the cache holds, has lost or fails to answer, the table and the
   answer are those of the table-only submission. A new job's row holds what the request asked
   for, or what its queue says, and a fresh start. The answer is cached under a usable key unless
   the cache has one or cannot be reached.
   */
  method CreateJob(db: Database, cache: IdempotencyService.Cache, q: QueueId, data: JobCreate, header: Option<string>,
                   newId: JobId, ttl: int, readLink: IdempotencyService.Link,
                   storeLink: IdempotencyService.Link, now: Time)
    returns (r: Result<Receipt, SubmitError>)
    requires q in db.queues && UniqueKeys(KeyColumn(db.jobs))
    requires CacheAgrees(db.jobs, cache.entries) && NeverUsed(db.jobs, cache.entries, newId)
    modifies db, cache
    ensures TableOnly(old(db.Value()), q, data, CleanKey(header), newId, now, db.Value(), r)
    ensures r.Success? && !r.value.duplicate ==>
              && r.value.job == newId && newId in db.jobs
              && db.Value() == old(db.Value()).(jobs := old(db.jobs)[newId := db.jobs[newId]])
              && var row, queue := db.jobs[newId], old(db.queues[q]);
                 && row.queue == q && row.payload == data.payload && row.createdAt == now
                 && row.key == (if header == None || header == Some("") then None
                                else Some(Helpers.Strip(header.value)))
                 && row.scheduledAt == data.scheduledAt && row.cron == data.cron && row.dependsOn == data.dependsOn
                 && row.status == (if data.scheduledAt == None && data.cron == None then Queued else Scheduled)
                 && (data.priority == Some(row.priority) || (data.priority == None && row.priority == queue.priority))
                 && (data.maxRetries == Some(row.maxRetries)
                     || (data.maxRetries == None && queue.policy.maxRetries == Some(row.maxRetries))
                     || (data.maxRetries == None && queue.policy.maxRetries == None && row.maxRetries == 3))
                 && row.retryCount == 0 && row.worker == None && row.parent == None
    ensures UniqueKeys(KeyColumn(db.jobs)) && CacheAgrees(db.jobs, cache.entries)
    ensures var key, was := CleanKey(header), old(cache.entries);
            var kept := key.Some? && key.value in was && was[key.value].expires > now;
            cache.entries == if Usable(key) && r.Success? && storeLink.reached && !kept
                             then was[key.value := IdempotencyService.Entry(r.value.job, now + ttl)] else was
  {
    var key := CleanKey(header);
    if key.Some? && key.value != "" {
      var found := FindExisting(db, cache, key.value, ttl, readLink, storeLink, now);
      if found.Some? {
        return Success(Receipt(found.value, true));
      }
    }
    if data.dependsOn.Some? && data.dependsOn.value !in db.jobs {
      return Failure(MissingParent);
    }
    var row := NewRow(q, db.queues[q], data, key, now);
    RowAsRequested(q, db.queues[q], data, key, now);
    var ok := Insert(db, row, newId);
    if !ok {
      return Failure(DuplicateKey);
    }
    InsertKeepsKeys(old(db.jobs), newId, row);
    InsertKeepsCache(old(db.jobs), cache.entries, newId, row);
    if key.Some? && key.value != "" {
      StoreKeepsCache(db.jobs, cache.entries, key.value, newId, ttl, storeLink, now);
      var _ := IdempotencyService.StoreIdempotencyKey(cache, key.value, newId, ttl, storeLink, now);
    }
    return Success(Receipt(newId, false));
  }

  lemma InsertKeepsKeys(jobs: map<JobId, Job>, newId: JobId, row: Job)
    requires UniqueKeys(KeyColumn(jobs)) && newId !in jobs
    requires row.key.None? || Owners(KeyColumn(jobs), row.key.value) == {}
    ensures UniqueKeys(KeyColumn(jobs[newId := row]))
  {
    forall i | i in jobs && row.key.Some? ensures jobs[i].key != row.key {
      assert i !in Owners(KeyColumn(jobs), row.key.value);
    }
    assert KeyColumn(jobs[newId := row]) == KeyColumn(jobs)[newId := row.key];
  }

  lemma InsertKeepsCache(jobs: map<JobId, Job>, entries: map<string, IdempotencyService.Entry>, newId: JobId, row: Job)
    requires CacheAgrees(jobs, entries) && NeverUsed(jobs, entries, newId)
    ensures CacheAgrees(jobs[newId := row], entries)
  {
  }

  lemma StoreKeepsCache(jobs: map<JobId, Job>, entries: map<string, IdempotencyService.Entry>, key: string, id: JobId,
                        ttl: int, link: IdempotencyService.Link, now: Time)
    requires CacheAgrees(jobs, entries) && id in jobs && jobs[id].key == Some(key)
    ensures CacheAgrees(jobs, IdempotencyService.Stored(entries, key, id, ttl, link, now))
  {
  }

  // ---------------------------------------------------------------- properties

  /** Leaving an option out is the same as asking for what the queue says, and three retries at worst. */
  lemma OmittedMeansTheQueues(q: QueueId, queue: Queue, other: Queue, data: JobCreate, key: Option<string>, now: Time)
    ensures var limit := if queue.policy.maxRetries.Some? then queue.policy.maxRetries.value else 3;
            NewRow(q, queue, data.(priority := None, maxRetries := None), key, now)
            == NewRow(q, other, data.(priority := Some(queue.priority), maxRetries := Some(limit)), key, now)
    ensures data.priority.Some? && data.maxRetries.Some? ==>
              NewRow(q, queue, data, key, now) == NewRow(q, other, data, key, now)
  {
  }

  /** Asking twice with one usable key: the second answer is the first job, and the table stays. */
  lemma ResubmissionIsIdempotent(db: Db, q: QueueId, data: JobCreate, key: Option<string>, newId: JobId, now: Time,
                                 db1: Db, r1: Result<Receipt, SubmitError>,
                                 q': QueueId, data': JobCreate, newId': JobId, now': Time,
                                 db2: Db, r2: Result<Receipt, SubmitError>)
    requires q in db.queues && UniqueKeys(KeyColumn(db.jobs)) && newId !in db.jobs && Usable(key)
    requires TableOnly(db, q, data, key, newId, now, db1, r1) && r1.Success?
    requires q' in db1.queues && TableOnly(db1, q', data', key, newId', now', db2, r2)
    ensures db2 == db1 && r2 == Success(Receipt(r1.value.job, true))
  {
    assert r1.value.job in Owners(KeyColumn(db1.jobs), key.value);
    assert UniqueKeys(KeyColumn(db1.jobs)) by {
      if !r1.value.duplicate {
        InsertKeepsKeys(db.jobs, newId, NewRow(q, db.queues[q], data, key, now));
      }
    }
  }

  /**
   A submission without a usable key ought never to be refused as a duplicate. It is, exactly
   when its header is blank but not empty and some earlier job was stored under the empty key.
   */
  lemma UnkeyedSubmissionRefused(db: Db, q: QueueId, data: JobCreate, header: Option<string>, newId: JobId, now: Time,
                                 db': Db, r: Result<Receipt, SubmitError>)
    requires q in db.queues && !Usable(CleanKey(header))
    requires data.dependsOn.Some? ==> data.dependsOn.value in db.jobs
    requires TableOnly(db, q, data, CleanKey(header), newId, now, db', r)
    ensures r == Failure(DuplicateKey) <==> header.Some? && header.value != "" && Owners(KeyColumn(db.jobs), "") != {}
    ensures r.Failure? || r == Success(Receipt(newId, false))
  {
    assert header.Some? && header.value != "" ==> CleanKey(header) == Some("");
  }

  /** Two requests with a blank header: the first creates a job, the second fails. */
  lemma SecondBlankKeyFails(db: Db, q: QueueId, data: JobCreate, first: JobId, second: JobId, now: Time,
                            db1: Db, r1: Result<Receipt, SubmitError>, db2: Db, r2: Result<Receipt, SubmitError>)
    requires q in db.queues && data.dependsOn.None? && first !in db.jobs && Owners(KeyColumn(db.jobs), "") == {}
    requires TableOnly(db, q, data, CleanKey(Some(" ")), first, now, db1, r1)
    requires q in db1.queues && TableOnly(db1, q, data, CleanKey(Some(" ")), second, now, db2, r2)
    ensures r1.Success? && r2 == Failure(DuplicateKey)
  {
    BlankStrips();
    assert first in Owners(KeyColumn(db1.jobs), "");
  }

  lemma BlankStrips()
    ensures Helpers.Strip(" ") == ""
  {
    assert " "[1..] == "";
    assert Helpers.StripLeft(" ") == Helpers.StripLeft("") == "";
  }
}
