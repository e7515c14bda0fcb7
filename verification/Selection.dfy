/** The meaning of `ORDER BY ... LIMIT k` over job rows, and a loop that computes it. */
module Selection {
  import opened Model

  ghost predicate StrictOrder(before: (Job, Job) -> bool) {
    && (forall a, b :: before(a, b) ==> !before(b, a))
    && (forall a, b, c :: before(a, b) && before(b, c) ==> before(a, c))
  }

  /**
   `chosen` is what a sorted, limited query over the rows `free` may return: at most `limit`
   of them, as many as there are, none left out that sorts strictly before one taken.
   */
  predicate Limited(jobs: map<JobId, Job>, free: set<JobId>, limit: int, before: (Job, Job) -> bool, chosen: set<JobId>)
    requires free <= jobs.Keys
  {
    && chosen <= free
    && (chosen != {} ==> |chosen| <= limit)
    && (|chosen| < limit ==> chosen == free)
    && forall c, e :: c in chosen && e in free - chosen ==> !before(jobs[e], jobs[c])
  }

  /** The least row of a non-empty set. */
  method Least(jobs: map<JobId, Job>, candidates: set<JobId>, before: (Job, Job) -> bool) returns (least: JobId)
    requires candidates != {} && candidates <= jobs.Keys && StrictOrder(before)
    ensures least in candidates
    ensures forall e :: e in candidates ==> !before(jobs[e], jobs[least])
  {
    least :| least in candidates;
    var rest := candidates - {least};
    while rest != {}
      invariant rest <= candidates && least in candidates
      invariant forall e :: e in candidates - rest ==> !before(jobs[e], jobs[least])
      decreases rest
    {
      var e :| e in rest;
      if before(jobs[e], jobs[least]) {
        least := e;
      }
      rest := rest - {e};
    }
  }

  /** Repeatedly take the least row left, up to the limit. */
  method Select(jobs: map<JobId, Job>, free: set<JobId>, limit: int, before: (Job, Job) -> bool)
    returns (chosen: set<JobId>)
    requires limit > 0 && free <= jobs.Keys && StrictOrder(before)
    ensures Limited(jobs, free, limit, before, chosen)
  {
    chosen := {};
    var rest := free;
    while |chosen| < limit && rest != {}
      invariant rest == free - chosen && chosen <= free && |chosen| <= limit
      invariant forall c, e :: c in chosen && e in rest ==> !before(jobs[e], jobs[c])
      decreases rest
    {
      var next := Least(jobs, rest, before);
      chosen := chosen + {next};
      rest := rest - {next};
    }
  }
}
