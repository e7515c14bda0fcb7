/** Slot accounting: how much of the table a worker's memory lets it own. */
module Capacity {
  import opened Model
  import opened Protocol
  import opened Ownership

  predicate SlotOk(c: Config, p: Proc) {
    p.limit <= c.slots && |p.futures| + |p.locks| <= c.slots
  }

  predicate Slots(c: Config, s: State) {
    && (forall w :: w in s.procs ==> SlotOk(c, s.procs[w]))
    && (forall q :: q in s.db.queues ==> s.db.queues[q].concurrencyLimit <= c.slots)
  }

  lemma {:induction false} BatchSize(s: State, chosen: set<JobId>)
    requires chosen <= s.hist.Keys
    ensures |Batch(s, chosen)| == |chosen|
    decreases chosen
  {
    if chosen == {} {
      assert Batch(s, chosen) == {};
    } else {
      var j :| j in chosen;
      var k := Future(j, s.hist[j].claims + 1);
      BatchSize(s, chosen - {j});
      assert Batch(s, chosen) == Batch(s, chosen - {j}) + {k};
      assert k !in Batch(s, chosen - {j});
    }
  }

  lemma MapUnionSize(futures: map<Future, Pc>, batch: set<Future>)
    ensures |WithBatch(futures, batch)| <= |futures| + |batch|
  {
    assert WithBatch(futures, batch).Keys == futures.Keys + batch;
    assert |futures.Keys + batch| <= |futures.Keys| + |batch|;
  }

  lemma ClaimLockKeepsSlots(c: Config, s: State, w: WorkerId, chosen: set<JobId>)
    requires Slots(c, s) && CanClaimLock(s, w, chosen)
    ensures Slots(c, DoClaimLock(s, w, chosen))
  {
    assert SlotOk(c, s.procs[w]);
  }

  lemma ClaimCommitKeepsSlots(c: Config, s: State, w: WorkerId)
    requires Slots(c, s) && CanClaimCommit(s, w)
    ensures Slots(c, DoClaimCommit(s, w))
  {
    var p := s.procs[w];
    assert SlotOk(c, p);
    BatchSize(s, p.locks);
    MapUnionSize(p.futures, Batch(s, p.locks));
  }

  lemma CleanKeepsSlots(c: Config, s: State, w: WorkerId, finished: set<Future>)
    requires Slots(c, s) && CanClean(s, w, finished)
    ensures Slots(c, DoClean(s, w, finished))
  {
    var p := s.procs[w];
    assert SlotOk(c, p);
    assert (p.futures - finished).Keys == p.futures.Keys - finished;
    assert |p.futures.Keys - finished| <= |p.futures.Keys|;
  }

  lemma ReadLimitKeepsSlots(c: Config, s: State, w: WorkerId)
    requires c.Sane() && Slots(c, s) && CanReadLimit(s, w)
    ensures Slots(c, DoReadLimit(s, w))
  {
    assert SlotOk(c, s.procs[w]);
  }

  /** A step that changes the values but not the keys of one worker's futures. */
  lemma SameKeysKeepsSlots(c: Config, s: State, t: State, w: WorkerId)
    requires Slots(c, s) && w in s.procs && w in t.procs && t.db.queues == s.db.queues
    requires t.procs == s.procs[w := t.procs[w]]
    requires t.procs[w].futures.Keys <= s.procs[w].futures.Keys
    requires t.procs[w].locks <= s.procs[w].locks && t.procs[w].limit == s.procs[w].limit
    ensures Slots(c, t)
  {
    var p, p' := s.procs[w], t.procs[w];
    assert SlotOk(c, p);
    SubsetSize(p'.futures.Keys, p.futures.Keys);
    SubsetSize(p'.locks, p.locks);
  }

  lemma SubsetSize<T>(a: set<T>, b: set<T>)
    requires a <= b
    ensures |a| <= |b|
  {
    assert b == a + (b - a);
  }

  // ---------------------------------------------------------------- what it says

  /** The jobs the table says a worker has taken. */
  function OwnedBy(s: State, w: WorkerId): set<JobId> {
    set j | j in s.db.jobs && s.db.jobs[j].InFlight() && s.db.jobs[j].worker == Some(w)
  }

  lemma {:induction false} HeldJobs(s: State, w: WorkerId, held: set<JobId>, futures: set<Future>)
    requires Owned(s) && held <= s.hist.Keys
    requires forall j :: j in held ==> Future(j, s.hist[j].claims) in futures
    ensures |held| <= |futures|
    decreases held
  {
    if held != {} {
      var j :| j in held;
      var k := Future(j, s.hist[j].claims);
      HeldJobs(s, w, held - {j}, futures - {k});
    }
  }

  /** A live worker's claimed and running jobs are among its futures, so they fit its slots. */
  lemma SlotsBoundOwnership(c: Config, s: State, w: WorkerId)
    requires Owned(s) && Slots(c, s) && Live(s, w)
    ensures |OwnedBy(s, w)| <= |s.procs[w].futures| <= c.slots
  {
    assert SlotOk(c, s.procs[w]);
    forall j | j in OwnedBy(s, w) ensures j in s.hist && Future(j, s.hist[j].claims) in s.procs[w].futures {
      assert JobOwned(s, j);
    }
    HeldJobs(s, w, OwnedBy(s, w), s.procs[w].futures.Keys);
  }

  function OwnedByAny(s: State, ws: set<WorkerId>): set<JobId> {
    set j | j in s.db.jobs && s.db.jobs[j].InFlight() && s.db.jobs[j].worker.Some? && s.db.jobs[j].worker.value in ws
  }

  lemma OwnedByOneMore(s: State, ws: set<WorkerId>, w: WorkerId)
    ensures |OwnedByAny(s, ws + {w})| <= |OwnedByAny(s, ws)| + |OwnedBy(s, w)|
  {
    assert OwnedByAny(s, ws + {w}) == OwnedByAny(s, ws) + OwnedBy(s, w);
  }

  lemma {:induction false} UnionBound(s: State, ws: set<WorkerId>, n: nat)
    requires forall w :: w in ws ==> |OwnedBy(s, w)| <= n
    ensures |OwnedByAny(s, ws)| <= |ws| * n
    decreases ws
  {
    if ws == {} {
      assert OwnedByAny(s, ws) == {};
    } else {
      var w :| w in ws;
      var rest := ws - {w};
      assert ws == rest + {w};
      UnionBound(s, rest, n);
      OwnedByOneMore(s, rest, w);
      assert |ws| * n == |rest| * n + n;
    }
  }

  /** Any set of live workers together owns at most its size times the slots. */
  lemma ClusterBoundsOwnership(c: Config, s: State, ws: set<WorkerId>)
    requires c.Sane() && Owned(s) && Slots(c, s)
    requires forall w :: w in ws ==> Live(s, w)
    ensures |OwnedByAny(s, ws)| <= |ws| * c.slots
  {
    forall w | w in ws ensures |OwnedBy(s, w)| <= c.slots {
      SlotsBoundOwnership(c, s, w);
    }
    UnionBound(s, ws, c.slots);
  }
}
