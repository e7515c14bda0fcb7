/**
 Concurrent submissions with usable keys, one commit or cache request at a time, against the
 same submissions with no cache (app/services/job_service.py, app/services/idempotency_service.py).
 */
module Submission {
  import opened Model
  import opened Keys
  import JobService

  type ClientId = nat

  /** Where a request is inside `create_job`; `Publishing` has its answer but not yet cached it. */
  datatype Pc =
    | Begin
    | Cached(id: JobId)
    | Missed
    | Inserting
    | Publishing(receipt: Receipt)
    | Returned(result: Option<Receipt>)

  datatype Request = Request(key: string, pc: Pc)

  /** `used` are all ids ever assigned; a deleted job's id is used and no longer in the table. */
  datatype State = State(
    table: Column,
    used: set<JobId>,
    creator: map<JobId, ClientId>,
    cache: map<string, JobId>,
    requests: map<ClientId, Request>)

  /** `hit`, `stored`: what Redis did. A loss, an expiry and an outage all look like a miss. */
  datatype Step =
    | Arrive(c: ClientId, key: string)
    | ReadCache(c: ClientId, hit: bool)
    | Fetch(c: ClientId)
    | LookUp(c: ClientId)
    | Refuse(c: ClientId)
    | Commit(c: ClientId, id: JobId)
    | Publish(c: ClientId, stored: bool)
    | Evict(key: string)
    | InsertOther(id: JobId, column: Option<string>)
    | Delete(id: JobId)

  predicate AtPc(s: State, c: ClientId, pc: Pc) {
    c in s.requests && s.requests[c].pc == pc
  }

  function Move(s: State, c: ClientId, pc: Pc): State
    requires c in s.requests
  {
    s.(requests := s.requests[c := s.requests[c].(pc := pc)])
  }

  predicate Enabled(s: State, a: Step) {
    match a
    case Arrive(c, key) => c !in s.requests && key != ""
    case ReadCache(c, hit) => AtPc(s, c, Begin) && (hit ==> s.requests[c].key in s.cache)
    case Fetch(c) => c in s.requests && s.requests[c].pc.Cached?
    case LookUp(c) => AtPc(s, c, Missed)
    case Refuse(c) => AtPc(s, c, Inserting)
    case Commit(c, id) => AtPc(s, c, Inserting) && id !in s.used
    case Publish(c, _) => c in s.requests && s.requests[c].pc.Publishing?
    case Evict(key) => true
    case InsertOther(id, column) => id !in s.used && (column.Some? ==> Owners(s.table, column.value) == {})
    case Delete(id) => true
  }

  /** The `.first()` of a lookup by key. */
  ghost function First(table: Column, key: string): JobId
    requires Owners(table, key) != {}
  {
    var j :| j in Owners(table, key); j
  }

  ghost function Apply(s: State, a: Step): State
    requires Enabled(s, a)
  {
    match a
    case Arrive(c, key) => s.(requests := s.requests[c := Request(key, Begin)])
    case ReadCache(c, hit) => Move(s, c, if hit then Cached(s.cache[s.requests[c].key]) else Missed)
    case Fetch(c) =>
      var id := s.requests[c].pc.id;
      Move(s, c, if id in s.table then Returned(Some(Receipt(id, true))) else Missed)
    case LookUp(c) =>
      var key := s.requests[c].key;
      Move(s, c, if Owners(s.table, key) != {} then Publishing(Receipt(First(s.table, key), true)) else Inserting)
    case Refuse(c) => Move(s, c, Returned(None))
    case Commit(c, id) =>
      var key := s.requests[c].key;
      if Owners(s.table, key) != {} then Move(s, c, Returned(None))
      else
        Move(s, c, Publishing(Receipt(id, false)))
          .(table := s.table[id := Some(key)], used := s.used + {id}, creator := s.creator[id := c])
    case Publish(c, stored) =>
      var key, receipt := s.requests[c].key, s.requests[c].pc.receipt;
      Move(s, c, Returned(Some(receipt)))
        .(cache := if stored && key !in s.cache then s.cache[key := receipt.job] else s.cache)
    case Evict(key) => s.(cache := s.cache - {key})
    case InsertOther(id, column) => s.(table := s.table[id := column], used := s.used + {id})
    case Delete(id) => s.(table := s.table - {id})
  }

  // ---------------------------------------------------------------- the table-only system

  /** A request without a cache: it looks the key up, inserts, and returns. */
  datatype PlainPc = PBegin | PInserting | PReturned(result: Option<Receipt>)

  datatype PlainRequest = PlainRequest(key: string, pc: PlainPc)

  datatype Plain = Plain(
    table: Column,
    used: set<JobId>,
    creator: map<JobId, ClientId>,
    requests: map<ClientId, PlainRequest>)

  datatype PlainStep =
    | PArrive(c: ClientId, key: string)
    | PLookUp(c: ClientId)
    | PRefuse(c: ClientId)
    | PCommit(c: ClientId, id: JobId)
    | PInsertOther(id: JobId, column: Option<string>)
    | PDelete(id: JobId)

  predicate PlainAt(p: Plain, c: ClientId, pc: PlainPc) {
    c in p.requests && p.requests[c].pc == pc
  }

  function PlainMove(p: Plain, c: ClientId, pc: PlainPc): Plain
    requires c in p.requests
  {
    p.(requests := p.requests[c := p.requests[c].(pc := pc)])
  }

  predicate PlainEnabled(p: Plain, a: PlainStep) {
    match a
    case PArrive(c, key) => c !in p.requests && key != ""
    case PLookUp(c) => PlainAt(p, c, PBegin)
    case PRefuse(c) => PlainAt(p, c, PInserting)
    case PCommit(c, id) => PlainAt(p, c, PInserting) && id !in p.used
    case PInsertOther(id, column) => id !in p.used && (column.Some? ==> Owners(p.table, column.value) == {})
    case PDelete(id) => true
  }

  ghost function PlainApply(p: Plain, a: PlainStep): Plain
    requires PlainEnabled(p, a)
  {
    match a
    case PArrive(c, key) => p.(requests := p.requests[c := PlainRequest(key, PBegin)])
    case PLookUp(c) =>
      var key := p.requests[c].key;
      PlainMove(p, c, if Owners(p.table, key) != {} then PReturned(Some(Receipt(First(p.table, key), true)))
                      else PInserting)
    case PRefuse(c) => PlainMove(p, c, PReturned(None))
    case PCommit(c, id) =>
      var key := p.requests[c].key;
      if Owners(p.table, key) != {} then PlainMove(p, c, PReturned(None))
      else
        PlainMove(p, c, PReturned(Some(Receipt(id, false))))
          .(table := p.table[id := Some(key)], used := p.used + {id}, creator := p.creator[id := c])
    case PInsertOther(id, column) => p.(table := p.table[id := column], used := p.used + {id})
    case PDelete(id) => p.(table := p.table - {id})
  }

  /**
   A request that nothing interrupts is answered as `create_job` answers it, and leaves the key
   column that `create_job` leaves: it creates a job if nobody has the key and is told whose it is
   if somebody has.
   */
  lemma RequestIsSubmission(p: Plain, c: ClientId, id: JobId, db: Db, q: QueueId, data: JobCreate, now: Time,
                            db': Db, r: Result<Receipt, JobService.SubmitError>)
    requires PlainAt(p, c, PBegin) && p.requests[c].key != "" && id !in p.used && id !in db.jobs
    requires JobService.KeyColumn(db.jobs) == p.table && UniqueKeys(p.table)
    requires q in db.queues && JobService.TableOnly(db, q, data, Some(p.requests[c].key), id, now, db', r)
    ensures PlainEnabled(p, PLookUp(c)) && r != Failure(JobService.DuplicateKey)
    ensures var looked := PlainApply(p, PLookUp(c));
            if r.Success? && r.value.duplicate then
              looked.requests[c].pc == PReturned(Some(r.value)) && looked.table == JobService.KeyColumn(db'.jobs)
            else
              var a := if r.Success? then PCommit(c, id) else PRefuse(c);
              && PlainEnabled(looked, a)
              && var done := PlainApply(looked, a);
                 && c in done.requests && done.table == JobService.KeyColumn(db'.jobs)
                 && done.requests[c].pc == PReturned(if r.Success? then Some(r.value) else None)
  {
    var key := p.requests[c].key;
    if Owners(p.table, key) != {} {
      assert First(p.table, key) in Owners(p.table, key);
    }
  }

  // ---------------------------------------------------------------- invariant

  /** `id` was once the job of `key`, and still is unless it was deleted. */
  predicate Names(s: State, id: JobId, key: string) {
    id in s.used && (id in s.table ==> s.table[id] == Some(key))
  }

  predicate RequestOk(s: State, c: ClientId)
    requires c in s.requests
  {
    var r := s.requests[c];
    match r.pc
    case Cached(id) => Names(s, id, r.key)
    case Publishing(receipt) => Names(s, receipt.job, r.key) && CreatedBy(s, receipt, c)
    case Returned(Some(receipt)) => Names(s, receipt.job, r.key) && CreatedBy(s, receipt, c)
    case _ => true
  }

  /** Only the request that inserted a job is told so. */
  predicate CreatedBy(s: State, receipt: Receipt, c: ClientId) {
    !receipt.duplicate ==> receipt.job in s.creator && s.creator[receipt.job] == c
  }

  predicate Inv(s: State) {
    && s.table.Keys <= s.used && s.creator.Keys <= s.used
    && UniqueKeys(s.table)
    && (forall k :: k in s.cache ==> Names(s, s.cache[k], k))
    && (forall c :: c in s.requests ==> RequestOk(s, c))
  }

  /** Steps of other requests and of the environment never spoil what an id names. */
  predicate KeepsNames(s: State, t: State) {
    && s.used <= t.used
    && (forall id :: id in s.used ==> id in t.table ==> id in s.table && t.table[id] == s.table[id])
    && (forall id :: id in s.creator ==> id in t.creator && t.creator[id] == s.creator[id])
  }

  lemma OthersStayOk(s: State, t: State, c: ClientId)
    requires Inv(s) && KeepsNames(s, t)
    requires forall d :: d in t.requests && d != c ==> d in s.requests && t.requests[d] == s.requests[d]
    ensures forall d :: d in t.requests && d != c ==> RequestOk(t, d)
    ensures forall k :: k in s.cache ==> Names(t, s.cache[k], k)
  {
    forall d | d in t.requests && d != c ensures RequestOk(t, d) {
      assert RequestOk(s, d);
    }
    forall k | k in s.cache ensures Names(t, s.cache[k], k) {
      assert Names(s, s.cache[k], k);
    }
  }

  lemma RequestStepKeepsInv(s: State, a: Step)
    requires Inv(s) && Enabled(s, a) && (a.ReadCache? || a.Fetch? || a.LookUp? || a.Refuse? || a.Publish?)
    ensures Inv(Apply(s, a))
  {
    var t := Apply(s, a);
    assert RequestOk(s, a.c);
    OthersStayOk(s, t, a.c);
  }

  lemma TableStepKeepsInv(s: State, a: Step)
    requires Inv(s) && Enabled(s, a) && (a.Commit? || a.InsertOther?)
    ensures Inv(Apply(s, a))
  {
    var t := Apply(s, a);
    var key := if a.Commit? then Some(s.requests[a.c].key) else a.column;
    var c := if a.Commit? then a.c else 0;
    forall i | i in s.table && key.Some? && Owners(s.table, key.value) == {} ensures s.table[i] != key {
      assert i !in Owners(s.table, key.value);
    }
    assert KeepsNames(s, t);
    if a.Commit? {
      OthersStayOk(s, t, a.c);
    } else {
      forall d | d in t.requests ensures RequestOk(t, d) {
        assert RequestOk(s, d);
      }
    }
  }

  lemma StepKeepsInv(s: State, a: Step)
    requires Inv(s) && Enabled(s, a)
    ensures Inv(Apply(s, a))
  {
    if a.Commit? || a.InsertOther? {
      TableStepKeepsInv(s, a);
    } else if a.Arrive? {
      OthersStayOk(s, Apply(s, a), a.c);
    } else if a.Evict? || a.Delete? {
      forall d | d in s.requests ensures RequestOk(Apply(s, a), d) {
        assert RequestOk(s, d);
      }
    } else {
      RequestStepKeepsInv(s, a);
    }
  }

  /**
   What the cache is for: after an answer was stored, a later request with the key that finds the
   cache gets the job in two requests to the stores, and without a lookup by key.
   */
  lemma CachedAnswerIsFound(s: State, c: ClientId, d: ClientId)
    requires Inv(s) && Enabled(s, Publish(c, true)) && s.requests[c].key !in s.cache
    requires AtPc(s, d, Begin) && s.requests[d].key == s.requests[c].key
    ensures var job := s.requests[c].pc.receipt.job;
            var t := Apply(s, Publish(c, true));
            && Enabled(t, ReadCache(d, true))
            && var u := Apply(t, ReadCache(d, true));
               && Enabled(u, Fetch(d))
               && (job in s.table ==> AtPc(Apply(u, Fetch(d)), d, Returned(Some(Receipt(job, true)))))
               && (job !in s.table ==> AtPc(Apply(u, Fetch(d)), d, Missed))
  {
  }

  // ---------------------------------------------------------------- refinement

  function PlainPcOf(pc: Pc): PlainPc {
    match pc
    case Begin => PBegin
    case Cached(_) => PBegin
    case Missed => PBegin
    case Inserting => PInserting
    case Publishing(receipt) => PReturned(Some(receipt))
    case Returned(result) => PReturned(result)
  }

  /** The table-only system that a state stands for: same table, same answers. */
  function View(s: State): Plain {
    Plain(s.table, s.used, s.creator,
          map c | c in s.requests :: PlainRequest(s.requests[c].key, PlainPcOf(s.requests[c].pc)))
  }

  /** The table-only step a step performs, if any. */
  function Matching(s: State, a: Step): Option<PlainStep> {
    match a
    case Arrive(c, key) => Some(PArrive(c, key))
    case ReadCache(_, _) => None
    case Fetch(c) =>
      if c in s.requests && s.requests[c].pc.Cached? && s.requests[c].pc.id in s.table then Some(PLookUp(c)) else None
    case LookUp(c) => Some(PLookUp(c))
    case Refuse(c) => Some(PRefuse(c))
    case Commit(c, id) => Some(PCommit(c, id))
    case Publish(_, _) => None
    case Evict(_) => None
    case InsertOther(id, key) => Some(PInsertOther(id, key))
    case Delete(id) => Some(PDelete(id))
  }

  /** A cache hit is a table lookup: the cached id is the one the lookup would have found. */
  lemma HitIsLookUp(s: State, c: ClientId)
    requires Inv(s) && c in s.requests && s.requests[c].pc.Cached? && s.requests[c].pc.id in s.table
    ensures Owners(s.table, s.requests[c].key) != {}
    ensures First(s.table, s.requests[c].key) == s.requests[c].pc.id
  {
    assert RequestOk(s, c);
    assert s.requests[c].pc.id in Owners(s.table, s.requests[c].key);
    assert First(s.table, s.requests[c].key) in Owners(s.table, s.requests[c].key);
  }

  lemma MoveRefines(s: State, c: ClientId, pc: Pc)
    requires c in s.requests
    ensures View(Move(s, c, pc)) == PlainMove(View(s), c, PlainPcOf(pc))
  {
    assert View(Move(s, c, pc)).requests == PlainMove(View(s), c, PlainPcOf(pc)).requests;
  }

  /** Reading or filling the cache shows in no answer and in no row. */
  lemma CacheTrafficIsHidden(s: State, a: Step)
    requires Enabled(s, a) && (a.ReadCache? || a.Publish?)
    ensures View(Apply(s, a)) == View(s)
  {
    MoveRefines(s, a.c, Apply(s, a).requests[a.c].pc);
    assert View(Apply(s, a)).requests == View(s).requests;
  }

  lemma FetchRefines(s: State, c: ClientId)
    requires Inv(s) && Enabled(s, Fetch(c))
    ensures var t := Apply(s, Fetch(c));
            if s.requests[c].pc.id in s.table
            then PlainEnabled(View(s), PLookUp(c)) && View(t) == PlainApply(View(s), PLookUp(c))
            else View(t) == View(s)
  {
    MoveRefines(s, c, Apply(s, Fetch(c)).requests[c].pc);
    if s.requests[c].pc.id in s.table {
      HitIsLookUp(s, c);
    } else {
      assert View(Apply(s, Fetch(c))).requests == View(s).requests;
    }
  }

  lemma CommitRefines(s: State, c: ClientId, id: JobId)
    requires Enabled(s, Commit(c, id))
    ensures PlainEnabled(View(s), PCommit(c, id))
    ensures View(Apply(s, Commit(c, id))) == PlainApply(View(s), PCommit(c, id))
  {
    MoveRefines(s, c, Apply(s, Commit(c, id)).requests[c].pc);
  }

  /** Every step of the cached system is one step, or none, of the table-only system. */
  lemma StepRefines(s: State, a: Step)
    requires Inv(s) && Enabled(s, a)
    ensures match Matching(s, a)
            case None => View(Apply(s, a)) == View(s)
            case Some(p) => PlainEnabled(View(s), p) && View(Apply(s, a)) == PlainApply(View(s), p)
  {
    match a
    case Arrive(c, key) =>
      assert View(Apply(s, a)).requests == PlainApply(View(s), PArrive(c, key)).requests;
    case ReadCache(c, hit) => CacheTrafficIsHidden(s, a);
    case Fetch(c) => FetchRefines(s, c);
    case LookUp(c) => MoveRefines(s, c, Apply(s, a).requests[c].pc);
    case Refuse(c) => MoveRefines(s, c, Returned(None));
    case Commit(c, id) => CommitRefines(s, c, id);
    case Publish(c, stored) => CacheTrafficIsHidden(s, a);
    case Evict(_) =>
    case InsertOther(_, _) =>
    case Delete(_) =>
  }

  ghost predicate ValidRun(s: State, run: seq<Step>)
    decreases |run|
  {
    run == [] || (Enabled(s, run[0]) && ValidRun(Apply(s, run[0]), run[1..]))
  }

  ghost function Final(s: State, run: seq<Step>): State
    requires ValidRun(s, run)
    decreases |run|
  {
    if run == [] then s else Final(Apply(s, run[0]), run[1..])
  }

  ghost predicate PlainValidRun(p: Plain, run: seq<PlainStep>)
    decreases |run|
  {
    run == [] || (PlainEnabled(p, run[0]) && PlainValidRun(PlainApply(p, run[0]), run[1..]))
  }

  ghost function PlainFinal(p: Plain, run: seq<PlainStep>): Plain
    requires PlainValidRun(p, run)
    decreases |run|
  {
    if run == [] then p else PlainFinal(PlainApply(p, run[0]), run[1..])
  }

  const EMPTY := State(map[], {}, map[], map[], map[])

  /**
   Transparency: for every interleaving of requests and every pattern of cache loss, there is a
   run of the table-only system with the same table and the same answers.
   */
  lemma {:induction false} CacheIsTransparent(s: State, run: seq<Step>) returns (plain: seq<PlainStep>)
    requires Inv(s) && ValidRun(s, run)
    ensures Inv(Final(s, run))
    ensures PlainValidRun(View(s), plain)
    ensures PlainFinal(View(s), plain) == View(Final(s, run))
    decreases |run|
  {
    if run == [] {
      plain := [];
    } else {
      StepKeepsInv(s, run[0]);
      StepRefines(s, run[0]);
      var rest := CacheIsTransparent(Apply(s, run[0]), run[1..]);
      match Matching(s, run[0])
      case None => plain := rest;
      case Some(p) =>
        plain := [p] + rest;
        assert plain[1..] == rest;
    }
  }

  /** The job a request was answered with. */
  predicate Answered(s: State, c: ClientId, receipt: Receipt) {
    AtPc(s, c, Publishing(receipt)) || AtPc(s, c, Returned(Some(receipt)))
  }

  /**
   At any time at most one job has a key; two requests with one key whose jobs have not been
   deleted were answered with the same job; and at most one request is told it created it.
   */
  lemma SameKeySameJob(run: seq<Step>, c: ClientId, d: ClientId, r: Receipt, q: Receipt)
    requires ValidRun(EMPTY, run)
    requires var s := Final(EMPTY, run);
             && Answered(s, c, r) && Answered(s, d, q) && s.requests[c].key == s.requests[d].key
             && r.job in s.table && q.job in s.table
    ensures r.job == q.job
    ensures !r.duplicate && !q.duplicate ==> c == d
  {
    var s := Final(EMPTY, run);
    var _ := CacheIsTransparent(EMPTY, run);
    assert RequestOk(s, c) && RequestOk(s, d);
  }
}
