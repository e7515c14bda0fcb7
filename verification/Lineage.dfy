/** Where jobs come from: chains of dead-letter replays and children of cron templates. */
module Lineage {
  import opened Model
  import opened Protocol
  import QueueService
  import SchedulerService

  /** What a replay, or a template, hands down unchanged. */
  predicate SameWork(a: Job, b: Job) {
    a.queue == b.queue && a.payload == b.payload && a.priority == b.priority && a.maxRetries == b.maxRetries
  }

  predicate OriginOk(s: State, j: JobId)
    requires j in s.hist
  {
    match s.hist[j].source
    case Submitted => s.hist[j].depth == 0
    case ReplayOf(d) =>
      && d in s.hist && s.hist[d].replayed && s.hist[j].depth == s.hist[d].depth + 1
      && (j in s.db.jobs ==> d in s.db.jobs && SameWork(s.db.jobs[j], s.db.jobs[d]))
    case ChildOf(t, occurrence) =>
      && s.hist[j].depth == 0
      && t in s.db.jobs && s.db.jobs[t].cron.Some? && s.db.jobs[t].status == Scheduled
      && s.db.jobs[t].scheduledAt.Some? && occurrence < s.db.jobs[t].scheduledAt.value
      && (j in s.db.jobs ==> SameWork(s.db.jobs[j], s.db.jobs[t]))
  }

  /** A dead job is replayed at most once, and an occurrence fires at most once. */
  predicate NoTwins(hist: map<JobId, Hist>) {
    forall i, j :: i in hist && j in hist && i != j && hist[i].source == hist[j].source ==> hist[i].source == Submitted
  }

  predicate Origins(s: State) {
    && (forall j :: j in s.hist ==> OriginOk(s, j))
    && NoTwins(s.hist)
  }

  // ---------------------------------------------------------------- every step

  /** Rows may change, but not the work they ask for, nor any template. */
  predicate SameOrigin(s: State, t: State, j: JobId) {
    && (j in t.hist <==> j in s.hist)
    && (j in s.hist ==>
          && t.hist[j].source == s.hist[j].source && t.hist[j].depth == s.hist[j].depth
          && (s.hist[j].replayed ==> t.hist[j].replayed))
    && (j in t.db.jobs <==> j in s.db.jobs)
    && (j in s.db.jobs ==> SameWork(s.db.jobs[j], t.db.jobs[j]))
    && (j in s.db.jobs && s.db.jobs[j].cron.Some? && s.db.jobs[j].status == Scheduled ==>
          t.db.jobs[j] == s.db.jobs[j])
  }

  lemma SameOriginsKeepOrigins(s: State, t: State)
    requires Origins(s)
    requires forall j :: SameOrigin(s, t, j)
    ensures Origins(t)
  {
    forall j | j in t.hist ensures OriginOk(t, j) {
      assert SameOrigin(s, t, j) && OriginOk(s, j);
      match s.hist[j].source
      case Submitted =>
      case ReplayOf(d) => assert SameOrigin(s, t, d);
      case ChildOf(p, _) => assert SameOrigin(s, t, p);
    }
    forall i, j | i in t.hist && j in t.hist && i != j && t.hist[i].source == t.hist[j].source
      ensures t.hist[i].source == Submitted
    {
      assert SameOrigin(s, t, i) && SameOrigin(s, t, j);
    }
  }

  lemma CreateKeepsOrigins(s: State, j: JobId, q: QueueId, data: JobCreate, key: Option<string>)
    requires Origins(s) && CanCreate(s, j, q, data, key) && j !in s.db.jobs
    ensures Origins(DoCreate(s, j, q, data, key))
  {
    var t := DoCreate(s, j, q, data, key);
    forall i | i in t.hist ensures OriginOk(t, i) {
      assert i != j ==> OriginOk(s, i);
    }
  }

  lemma ReplayKeepsOrigins(s: State, j: JobId, clone: JobId)
    requires Origins(s) && CanReplay(s, j, clone) && clone !in s.db.jobs
    requires !s.hist[j].replayed && s.db.dlq[j] == s.db.jobs[j].payload && s.db.jobs[j].status == Dead
    ensures Origins(DoReplay(s, j, clone))
  {
    var t := DoReplay(s, j, clone);
    forall i | i in t.hist ensures OriginOk(t, i) {
      assert i != clone ==> OriginOk(s, i);
    }
    forall i | i in s.hist ensures s.hist[i].source != ReplayOf(j) {
      assert OriginOk(s, i);
    }
  }

  lemma DeleteQueueKeepsOrigins(s: State, q: QueueId)
    requires Origins(s) && CanDeleteQueue(s, q)
    ensures Origins(s.(db := QueueService.Deleted(s.db, q)))
  {
    var t := s.(db := QueueService.Deleted(s.db, q));
    forall i | i in t.hist ensures OriginOk(t, i) {
      assert OriginOk(s, i);
      match s.hist[i].source
      case Submitted =>
      case ReplayOf(d) =>
      case ChildOf(p, _) => assert p !in QueueService.ActiveJobs(s.db, q);
    }
  }

  lemma CronKeepsOrigins(s: State, t: JobId, child: JobId, next: Time, at: Time)
    requires Origins(s) && t in s.db.jobs && s.db.jobs[t].cron.Some? && s.db.jobs[t].status == Scheduled
    requires t in s.hist && child !in s.hist && child !in s.db.jobs && at < next
    requires s.db.jobs[t].scheduledAt.None? || SchedulerService.Fires(s.db.jobs[t], at)
    ensures Origins(DoCron(s, t, child, next, at))
  {
    var u := DoCron(s, t, child, next, at);
    forall i | i in u.hist ensures OriginOk(u, i) {
      assert i in s.hist ==> OriginOk(s, i);
    }
    if s.db.jobs[t].scheduledAt.Some? {
      forall i | i in s.hist ensures s.hist[i].source != ChildOf(t, s.db.jobs[t].scheduledAt.value) {
        assert OriginOk(s, i);
      }
    }
  }

  // ---------------------------------------------------------------- what it says

  /** The submitted job at the far end of a chain of replays. */
  function Root(s: State, j: JobId): (root: JobId)
    requires (forall i :: i in s.hist ==> OriginOk(s, i)) && j in s.hist
    ensures root in s.hist && s.hist[root].depth == 0
    decreases s.hist[j].depth
  {
    assert OriginOk(s, j);
    match s.hist[j].source
    case ReplayOf(d) => Root(s, d)
    case _ => j
  }

  /**
   However often a job has been buried and replayed, the newest clone still asks for the
   root's work, in its queue, at its priority and with its retry limit.
   */
  lemma {:induction false} ReplaysKeepTheWork(s: State, j: JobId)
    requires Origins(s) && j in s.hist && j in s.db.jobs
    ensures Root(s, j) in s.db.jobs && SameWork(s.db.jobs[j], s.db.jobs[Root(s, j)])
    decreases s.hist[j].depth
  {
    assert OriginOk(s, j);
    if s.hist[j].source.ReplayOf? {
      ReplaysKeepTheWork(s, s.hist[j].source.dead);
    }
  }
}
