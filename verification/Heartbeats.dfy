/** The failure detector inside the whole system: it only ever finds crashed workers. */
module Heartbeats {
  import opened Model
  import opened Protocol
  import opened Ownership
  import Timing
  import HeartbeatService
  import ReaperService

  predicate Beats(c: Config, s: State) {
    forall w :: w in s.procs ==> Timing.BeatOk(c.timing, Clock(s, w))
  }

  lemma RegisterKeepsBeats(c: Config, s: State, w: WorkerId, queue: Option<QueueId>, stamp: Time)
    requires Beats(c, s) && CanRegister(c, s, w, stamp)
    ensures Beats(c, DoRegister(s, w, queue, stamp))
  {
    var t := DoRegister(s, w, queue, stamp);
    forall v | v in t.procs ensures Timing.BeatOk(c.timing, Clock(t, v)) {
      assert v != w ==> Clock(t, v) == Clock(s, v);
    }
  }

  lemma LoopKeepsBeats(c: Config, s: State, w: WorkerId, a: Timing.Tick)
    requires c.Sane() && Beats(c, s) && CanLoop(c, s, w, a) && w in s.db.workers
    ensures Beats(c, DoLoop(s, w, a))
  {
    var t := DoLoop(s, w, a);
    Timing.BeatKept(c.timing, Clock(s, w), a);
    forall v | v in t.procs ensures Timing.BeatOk(c.timing, Clock(t, v)) {
      assert Clock(t, v) == if v == w then Timing.Apply(Clock(s, w), a) else Clock(s, v);
    }
  }

  lemma StopKeepsBeats(c: Config, s: State, w: WorkerId)
    requires Beats(c, s) && w in s.procs
    ensures Beats(c, DoDeregister(s, w)) && Beats(c, DoCrash(s, w))
  {
    forall v | v in s.procs && v != w ensures Clock(DoDeregister(s, w), v) == Clock(DoCrash(s, w), v) == Clock(s, v) {
    }
  }

  lemma PassKeepsBeats(c: Config, s: State, until: Time)
    requires c.Sane() && Beats(c, s) && CanPass(c, s, until) && s.db.workers.Keys == s.procs.Keys
    ensures Beats(c, s.(now := until))
  {
    var t := s.(now := until);
    forall w | w in t.procs ensures Timing.BeatOk(c.timing, Clock(t, w)) {
      Timing.BeatKept(c.timing, Clock(s, w), Timing.Pass(until));
      assert Clock(t, w) == Timing.Apply(Clock(s, w), Timing.Pass(until));
    }
  }

  /** Steps that leave every clock alone. */
  lemma SameClocksKeepBeats(c: Config, s: State, t: State)
    requires Beats(c, s) && t.procs.Keys == s.procs.Keys
    requires forall w :: w in s.procs ==> Clock(t, w) == Clock(s, w)
    ensures Beats(c, t)
  {
  }

  // ---------------------------------------------------------------- what it says

  /**
   Accuracy: no worker that is starting, looping or draining is ever in the result of the
   stale-worker query. What the reaper finds has crashed.
   */
  lemma FoundMeansCrashed(c: Config, s: State, w: WorkerId)
    requires c.Sane() && Owned(s) && Beats(c, s)
    requires w in ReaperService.StaleWorkers(s.db, s.now - c.timing.threshold)
    ensures w in s.procs && s.procs[w].phase.Crashed?
  {
    assert WorkerOk(s, w);
    if s.procs[w].phase.Alive() {
      Timing.LivingIsFresh(c.timing, Clock(s, w));
      assert Timing.Stale(c.timing, Clock(s, w));
    }
  }

  /** So a live worker's heartbeat is never refused. */
  lemma HeartbeatIsAccepted(s: State, w: WorkerId)
    requires Owned(s) && Live(s, w)
    ensures !HeartbeatService.Decommissioned(s.db, w)
  {
    assert WorkerOk(s, w);
  }
}
