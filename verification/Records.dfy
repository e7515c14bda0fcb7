/**
 The tables beside `jobs`: execution records, dead letters, and where a job came from.
 */
module Records {
  import opened Model
  import opened Protocol
  import opened Ownership
  import QueueService

  // ---------------------------------------------------------------- executions

  /** A completed execution is the one that completed its job. */
  predicate ExecOk(s: State, e: ExecId)
    requires e in s.db.execs
  {
    var j := s.db.execs[e].job;
    j in s.db.jobs && j in s.hist && (s.db.execs[e].status == ExecCompleted ==> s.hist[j].winner == Some(e))
  }

  /** A running thread works on an execution row of its own. */
  predicate ThreadOk(s: State, w: WorkerId, k: Future)
    requires w in s.procs && k in s.procs[w].futures
  {
    var pc := s.procs[w].futures[k];
    pc.Executing? ==> pc.e in s.db.execs && s.db.execs[pc.e] == Execution(k.job, w, ExecRunning)
  }

  /** A job that was completed keeps the record of it. */
  predicate WinnerOk(s: State, j: JobId)
    requires j in s.db.jobs && j in s.hist
  {
    s.hist[j].winner.Some? ==>
      var e := s.hist[j].winner.value;
      e in s.db.execs && s.db.execs[e].job == j && s.db.execs[e].status == ExecCompleted
  }

  predicate Executions(s: State) {
    && (forall e :: e in s.db.execs ==> ExecOk(s, e))
    && (forall w, k :: w in s.procs && k in s.procs[w].futures ==> ThreadOk(s, w, k))
    && (forall j :: j in s.db.jobs ==> j in s.hist && WinnerOk(s, j))
  }

  /** No job is ever completed twice. */
  lemma CompletedOnce(s: State, d: ExecId, e: ExecId)
    requires Executions(s) && d in s.db.execs && e in s.db.execs
    requires s.db.execs[d].status == ExecCompleted && s.db.execs[e].status == ExecCompleted
    requires s.db.execs[d].job == s.db.execs[e].job
    ensures d == e
  {
    assert ExecOk(s, d) && ExecOk(s, e);
  }

  /** A step that writes no execution row, removes no job and lets no thread run. */
  lemma QuietKeepsExecutions(s: State, t: State)
    requires Executions(s) && t.db.execs == s.db.execs
    requires s.db.jobs.Keys <= t.db.jobs.Keys <= t.hist.Keys
    requires forall j :: j in s.hist ==> j in t.hist && t.hist[j].winner == s.hist[j].winner
    requires forall j :: j in t.db.jobs && j !in s.db.jobs ==> t.hist[j].winner.None?
    requires forall w, k :: w in t.procs && k in t.procs[w].futures ==>
               t.procs[w].futures[k].Executing? ==>
                 w in s.procs && k in s.procs[w].futures && s.procs[w].futures[k] == t.procs[w].futures[k]
    ensures Executions(t)
  {
    forall e | e in t.db.execs ensures ExecOk(t, e) {
      assert ExecOk(s, e);
    }
    forall w, k | w in t.procs && k in t.procs[w].futures ensures ThreadOk(t, w, k) {
      if t.procs[w].futures[k].Executing? {
        assert ThreadOk(s, w, k);
      }
    }
    forall j | j in t.db.jobs ensures WinnerOk(t, j) {
      if j in s.db.jobs {
        assert WinnerOk(s, j);
      }
    }
  }

  lemma StartKeepsExecutions(s: State, w: WorkerId, k: Future, e: ExecId)
    requires Executions(s) && CanStart(s, w, k, e)
    ensures Executions(DoStart(s, w, k, e))
  {
    var t := DoStart(s, w, k, e);
    forall d | d in t.db.execs ensures ExecOk(t, d) {
      assert d != e ==> ExecOk(s, d);
    }
    forall v, m | v in t.procs && m in t.procs[v].futures ensures ThreadOk(t, v, m) {
      assert v != w || m != k ==> ThreadOk(s, v, m);
    }
    forall j | j in t.db.jobs ensures WinnerOk(t, j) {
      assert WinnerOk(s, j);
    }
  }

  /** Other threads' execution rows are not this one's. */
  lemma ThreadsApart(s: State, v: WorkerId, m: Future, w: WorkerId, k: Future)
    requires FuturesOk(s) && Executions(s)
    requires v in s.procs && m in s.procs[v].futures && s.procs[v].futures[m].Executing?
    requires w in s.procs && k in s.procs[w].futures && s.procs[w].futures[k].Executing?
    requires v != w || m != k
    ensures s.procs[v].futures[m].e != s.procs[w].futures[k].e
  {
    assert ThreadOk(s, v, m) && ThreadOk(s, w, k);
    if m.job == k.job {
      OneFuturePerJob(s, v, m, w, k);
    }
  }

  lemma FinishKeepsExecutions(s: State, w: WorkerId, k: Future)
    requires Executions(s) && FuturesOk(s) && CanFinish(s, w, k)
    requires s.hist[k.job].winner.None?
    ensures Executions(DoFinish(s, w, k))
  {
    var t, e := DoFinish(s, w, k), s.procs[w].futures[k].e;
    assert ThreadOk(s, w, k);
    forall d | d in t.db.execs ensures ExecOk(t, d) {
      assert ExecOk(s, d);
    }
    forall v, m | v in t.procs && m in t.procs[v].futures ensures ThreadOk(t, v, m) {
      if v != w || m != k {
        assert ThreadOk(s, v, m);
        if s.procs[v].futures[m].Executing? {
          ThreadsApart(s, v, m, w, k);
        }
      }
    }
    forall j | j in t.db.jobs ensures WinnerOk(t, j) {
      assert WinnerOk(s, j);
    }
  }

  lemma FailKeepsExecutions(s: State, w: WorkerId, k: Future)
    requires Executions(s) && FuturesOk(s) && CanFinish(s, w, k)
    requires s.hist[k.job].winner.None?
    ensures Executions(DoFail(s, w, k))
  {
    var t, e := DoFail(s, w, k), s.procs[w].futures[k].e;
    assert ThreadOk(s, w, k);
    forall d | d in t.db.execs ensures ExecOk(t, d) {
      assert ExecOk(s, d);
    }
    forall v, m | v in t.procs && m in t.procs[v].futures ensures ThreadOk(t, v, m) {
      if v != w || m != k {
        assert ThreadOk(s, v, m);
        if s.procs[v].futures[m].Executing? {
          ThreadsApart(s, v, m, w, k);
        }
      }
    }
    forall j | j in t.db.jobs ensures WinnerOk(t, j) {
      assert WinnerOk(s, j);
    }
  }

  lemma DeleteQueueKeepsExecutions(s: State, q: QueueId)
    requires Executions(s) && FuturesOk(s) && CanDeleteQueue(s, q)
    ensures Executions(s.(db := QueueService.Deleted(s.db, q)))
  {
    var t := s.(db := QueueService.Deleted(s.db, q));
    forall e | e in t.db.execs ensures ExecOk(t, e) {
      assert ExecOk(s, e);
    }
    forall v, m | v in t.procs && m in t.procs[v].futures ensures ThreadOk(t, v, m) {
      assert ThreadOk(s, v, m) && FutureOk(s, v, m);
      assert m.job !in QueueService.ActiveJobs(s.db, q);
    }
    forall j | j in t.db.jobs ensures WinnerOk(t, j) {
      assert WinnerOk(s, j);
    }
  }

  // ---------------------------------------------------------------- dead letters

  /** A letter lies in the queue exactly for the dead jobs nobody has replayed. */
  predicate LetterOk(s: State, j: JobId) {
    && (j in s.db.dlq <==> j in s.db.jobs && j in s.hist && s.db.jobs[j].status == Dead && !s.hist[j].replayed)
    && (j in s.db.dlq && j in s.db.jobs ==> s.db.dlq[j] == s.db.jobs[j].payload)
  }

  ghost predicate Letters(s: State) {
    forall j :: LetterOk(s, j)
  }

  /** Nobody dies and nobody dead changes. */
  predicate SameDead(s: State, t: State, j: JobId) {
    && (j in t.db.jobs && t.db.jobs[j].status == Dead ==> j in s.db.jobs && s.db.jobs[j].status == Dead)
    && (j in s.db.jobs && s.db.jobs[j].status == Dead ==>
          j in t.db.jobs && t.db.jobs[j].status == Dead && t.db.jobs[j].payload == s.db.jobs[j].payload)
    && (j in s.hist ==> j in t.hist && t.hist[j].replayed == s.hist[j].replayed)
    && (j in t.db.jobs ==> j in t.hist)
    && (j in s.db.jobs ==> j in s.hist)
  }

  lemma SameDeadKeepsLetters(s: State, t: State)
    requires Letters(s) && t.db.dlq == s.db.dlq
    requires forall j :: SameDead(s, t, j)
    ensures Letters(t)
  {
    forall j ensures LetterOk(t, j) {
      assert LetterOk(s, j) && SameDead(s, t, j);
    }
  }

  lemma RetryKeepsLetters(s: State, w: WorkerId, k: Future, draw: real)
    requires Letters(s) && CanRetry(s, w, k, draw)
    requires s.db.jobs[k.job].status == Running && !s.hist[k.job].replayed
    ensures Letters(DoRetry(s, w, k, draw))
  {
    var t := DoRetry(s, w, k, draw);
    forall j ensures LetterOk(t, j) {
      assert LetterOk(s, j);
    }
  }

  lemma ReplayKeepsLetters(s: State, j: JobId, clone: JobId)
    requires Letters(s) && CanReplay(s, j, clone) && s.db.jobs.Keys <= s.hist.Keys
    ensures Letters(DoReplay(s, j, clone))
  {
    var t := DoReplay(s, j, clone);
    forall i ensures LetterOk(t, i) {
      assert LetterOk(s, i);
    }
  }

  lemma DeleteQueueKeepsLetters(s: State, q: QueueId)
    requires Letters(s)
    ensures Letters(s.(db := QueueService.Deleted(s.db, q)))
  {
    var t := s.(db := QueueService.Deleted(s.db, q));
    forall i ensures LetterOk(t, i) {
      assert LetterOk(s, i);
    }
  }

  function DeadJobs(s: State): set<JobId> {
    set j | j in s.db.jobs && s.db.jobs[j].status == Dead
  }

  function ReplayedJobs(s: State): set<JobId> {
    set j | j in DeadJobs(s) && j in s.hist && s.hist[j].replayed
  }

  lemma LettersAreUnreplayedDeaths(s: State)
    requires Letters(s) && s.db.jobs.Keys <= s.hist.Keys
    ensures s.db.dlq.Keys == DeadJobs(s) - ReplayedJobs(s)
  {
    forall j ensures j in s.db.dlq <==> j in DeadJobs(s) - ReplayedJobs(s) {
      assert LetterOk(s, j);
    }
  }

  /** Conservation: the dead jobs are the letters plus the replayed ones, with none in both. */
  lemma DeadJobsAreLettersAndReplays(s: State)
    requires Letters(s) && s.db.jobs.Keys <= s.hist.Keys
    ensures DeadJobs(s) == s.db.dlq.Keys + ReplayedJobs(s) && s.db.dlq.Keys !! ReplayedJobs(s)
    ensures |DeadJobs(s)| == |s.db.dlq| + |ReplayedJobs(s)|
  {
    LettersAreUnreplayedDeaths(s);
    assert ReplayedJobs(s) <= DeadJobs(s);
    assert |DeadJobs(s) - ReplayedJobs(s)| == |DeadJobs(s)| - |ReplayedJobs(s)|;
  }
}
