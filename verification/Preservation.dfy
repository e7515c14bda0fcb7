/** Every step keeps the executions, the dead letters and the origins in order. */
module Preservation {
  import opened Model
  import opened Protocol
  import opened Ownership
  import opened History
  import opened Records
  import opened Lineage
  import SchedulerService
  import QueueService

  ghost predicate Recorded(s: State) {
    && s.db.jobs.Keys <= s.hist.Keys
    && Executions(s) && Letters(s) && Origins(s)
  }

  /** No thread starts working on an execution. */
  predicate SameThreads(s: State, t: State) {
    forall w, k :: w in t.procs && k in t.procs[w].futures && t.procs[w].futures[k].Executing? ==>
      w in s.procs && k in s.procs[w].futures && s.procs[w].futures[k] == t.procs[w].futures[k]
  }

  /** A step that touches neither jobs nor their records. */
  lemma StillKeepsRecorded(s: State, t: State)
    requires Recorded(s) && SameThreads(s, t)
    requires t.db.jobs == s.db.jobs && t.db.execs == s.db.execs && t.db.dlq == s.db.dlq && t.hist == s.hist
    ensures Recorded(t)
  {
    QuietKeepsExecutions(s, t);
    forall j ensures SameDead(s, t, j) && SameOrigin(s, t, j) {
    }
    SameDeadKeepsLetters(s, t);
    SameOriginsKeepOrigins(s, t);
  }

  /** A step that moves jobs between queued, scheduled and claimed. */
  lemma MovesKeepRecorded(s: State, t: State)
    requires Recorded(s) && SameThreads(s, t)
    requires t.db.execs == s.db.execs && t.db.dlq == s.db.dlq
    requires t.hist.Keys == s.hist.Keys && t.db.jobs.Keys == s.db.jobs.Keys
    requires forall j :: j in s.hist ==> t.hist[j].winner == s.hist[j].winner
    requires forall j :: SameDead(s, t, j) && SameOrigin(s, t, j)
    ensures Recorded(t)
  {
    QuietKeepsExecutions(s, t);
    SameDeadKeepsLetters(s, t);
    SameOriginsKeepOrigins(s, t);
  }

  lemma ClaimCommitKeepsRecorded(s: State, w: WorkerId)
    requires Recorded(s) && Owned(s) && CanClaimCommit(s, w)
    ensures Recorded(DoClaimCommit(s, w))
  {
    var t := DoClaimCommit(s, w);
    assert LockOk(s, w);
    forall j ensures SameDead(s, t, j) && SameOrigin(s, t, j) {
    }
    MovesKeepRecorded(s, t);
  }

  lemma RecoverKeepsRecorded(s: State, w: WorkerId)
    requires Recorded(s)
    ensures Recorded(DoRecover(s, w))
  {
    var t := DoRecover(s, w);
    forall j ensures SameDead(s, t, j) && SameOrigin(s, t, j) {
    }
    MovesKeepRecorded(s, t);
  }

  lemma PromoteKeepsRecorded(s: State, batch: set<JobId>)
    requires Recorded(s) && AllDue(s, batch)
    ensures Recorded(DoPromote(s, batch))
  {
    var t := DoPromote(s, batch);
    forall j ensures SameDead(s, t, j) && SameOrigin(s, t, j) {
    }
    MovesKeepRecorded(s, t);
  }

  // ---------------------------------------------------------------- run_job

  lemma StartKeepsRecorded(s: State, w: WorkerId, k: Future, e: ExecId)
    requires Recorded(s) && CanStart(s, w, k, e) && FutureOk(s, w, k) && Rows(s)
    ensures Recorded(DoStart(s, w, k, e))
  {
    var t := DoStart(s, w, k, e);
    StartKeepsExecutions(s, w, k, e);
    forall j ensures SameDead(s, t, j) && SameOrigin(s, t, j) {
    }
    SameDeadKeepsLetters(s, t);
    SameOriginsKeepOrigins(s, t);
  }

  lemma FinishKeepsRecorded(s: State, w: WorkerId, k: Future)
    requires Recorded(s) && FuturesOk(s) && CanFinish(s, w, k) && Rows(s)
    ensures Recorded(DoFinish(s, w, k))
  {
    var t := DoFinish(s, w, k);
    assert FutureOk(s, w, k) && RowOk(s.db.jobs[k.job], s.hist[k.job], s.now);
    FinishKeepsExecutions(s, w, k);
    forall j ensures SameDead(s, t, j) && SameOrigin(s, t, j) {
    }
    SameDeadKeepsLetters(s, t);
    SameOriginsKeepOrigins(s, t);
  }

  lemma FailKeepsRecorded(s: State, w: WorkerId, k: Future)
    requires Recorded(s) && FuturesOk(s) && CanFinish(s, w, k) && Rows(s)
    ensures Recorded(DoFail(s, w, k))
  {
    var t := DoFail(s, w, k);
    assert FutureOk(s, w, k) && RowOk(s.db.jobs[k.job], s.hist[k.job], s.now);
    FailKeepsExecutions(s, w, k);
    forall j ensures SameDead(s, t, j) && SameOrigin(s, t, j) {
    }
    SameDeadKeepsLetters(s, t);
    SameOriginsKeepOrigins(s, t);
  }

  lemma RetryKeepsRecorded(s: State, w: WorkerId, k: Future, draw: real)
    requires Recorded(s) && CanRetry(s, w, k, draw) && FutureOk(s, w, k) && Rows(s)
    ensures Recorded(DoRetry(s, w, k, draw))
  {
    var t := DoRetry(s, w, k, draw);
    assert RowOk(s.db.jobs[k.job], s.hist[k.job], s.now);
    QuietKeepsExecutions(s, t);
    RetryKeepsLetters(s, w, k, draw);
    forall j ensures SameOrigin(s, t, j) {
    }
    SameOriginsKeepOrigins(s, t);
  }

  // ---------------------------------------------------------------- jobs that come and go

  lemma CreateKeepsRecorded(s: State, j: JobId, q: QueueId, data: JobCreate, key: Option<string>)
    requires Recorded(s) && CanCreate(s, j, q, data, key)
    ensures Recorded(DoCreate(s, j, q, data, key))
  {
    var t := DoCreate(s, j, q, data, key);
    assert j !in s.db.jobs.Keys;
    QuietKeepsExecutions(s, t);
    forall i ensures LetterOk(t, i) {
      assert LetterOk(s, i);
    }
    CreateKeepsOrigins(s, j, q, data, key);
  }

  lemma ReplayKeepsRecorded(s: State, j: JobId, clone: JobId)
    requires Recorded(s) && CanReplay(s, j, clone)
    ensures Recorded(DoReplay(s, j, clone))
  {
    var t := DoReplay(s, j, clone);
    assert clone !in s.db.jobs.Keys && LetterOk(s, j);
    QuietKeepsExecutions(s, t);
    ReplayKeepsLetters(s, j, clone);
    ReplayKeepsOrigins(s, j, clone);
  }

  lemma DeleteQueueKeepsRecorded(s: State, q: QueueId)
    requires Recorded(s) && FuturesOk(s) && CanDeleteQueue(s, q)
    ensures Recorded(s.(db := QueueService.Deleted(s.db, q)))
  {
    DeleteQueueKeepsExecutions(s, q);
    DeleteQueueKeepsLetters(s, q);
    DeleteQueueKeepsOrigins(s, q);
  }

  lemma CronKeepsRecorded(s: State, t: JobId, child: JobId, next: Time, at: Time)
    requires Recorded(s) && t in s.db.jobs && s.db.jobs[t].cron.Some? && s.db.jobs[t].status == Scheduled
    requires child !in s.hist && at < next
    requires s.db.jobs[t].scheduledAt.None? || SchedulerService.Fires(s.db.jobs[t], at)
    ensures Recorded(DoCron(s, t, child, next, at))
  {
    var u := DoCron(s, t, child, next, at);
    assert child !in s.db.jobs.Keys && t in s.hist.Keys;
    QuietKeepsExecutions(s, u);
    forall i ensures LetterOk(u, i) {
      assert LetterOk(s, i);
    }
    CronKeepsOrigins(s, t, child, next, at);
  }
}
