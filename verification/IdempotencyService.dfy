/** The Redis cache of idempotency keys, with TTL and outages (app/services/idempotency_service.py). */
module IdempotencyService {
  import opened Model

  datatype Entry = Entry(job: JobId, expires: Time)

  /** One request to Redis: did the server execute it, and did its answer come back? */
  datatype Link = Link(reached: bool, answered: bool)

  function Visible(entries: map<string, Entry>, key: string, now: Time): Option<JobId> {
    if key in entries && now < entries[key].expires then Some(entries[key].job) else None
  }

  class Cache {
    var entries: map<string, Entry>

    constructor ()
      ensures entries == map[]
    {
      entries := map[];
    }
  }

  /** A failed read looks like a miss. */
  function Read(entries: map<string, Entry>, key: string, link: Link, now: Time): Option<JobId> {
    if link.reached && link.answered then Visible(entries, key, now) else None
  }

  /** SET NX EX: only an absent (or expired) key is written. */
  function Stored(entries: map<string, Entry>, key: string, job: JobId, ttl: int, link: Link, now: Time)
    : map<string, Entry>
  {
    if link.reached && Visible(entries, key, now).None? then entries[key := Entry(job, now + ttl)] else entries
  }

  /** The first writer wins until its entry expires; no other key is affected. */
  lemma FirstWriterWins(entries: map<string, Entry>, key: string, first: JobId, second: JobId, ttl: int,
                        t0: Time, t1: Time, t2: Time)
    requires Visible(entries, key, t0).None? && t0 <= t1 <= t2
    ensures var up := Link(true, true);
            var stored := Stored(Stored(entries, key, first, ttl, up, t0), key, second, ttl, up, t1);
            && (t2 < t0 + ttl ==> Read(stored, key, up, t2) == Some(first))
            && (t1 >= t0 + ttl && t2 < t1 + ttl ==> Read(stored, key, up, t2) == Some(second))
            && (t2 >= t1 + ttl ==> Read(stored, key, up, t2) == None)
            && (forall other :: other != key ==> Visible(stored, other, t2) == Visible(entries, other, t2))
  {
    var once := Stored(entries, key, first, ttl, Link(true, true), t0);
    assert once[key] == Entry(first, t0 + ttl);
  }

  method GetIdempotencyKey(cache: Cache, key: string, link: Link, now: Time) returns (r: Option<JobId>)
    ensures r == Read(cache.entries, key, link, now)
    ensures r.Some? <==> link.reached && link.answered && key in cache.entries && cache.entries[key].expires > now
    ensures r.Some? ==> r.value == cache.entries[key].job
  {
    if !link.reached || !link.answered {
      return None;
    }
    if key in cache.entries && now < cache.entries[key].expires {
      return Some(cache.entries[key].job);
    }
    return None;
  }

  /** Returns False only when the server answered that the key already exists. */
  method StoreIdempotencyKey(cache: Cache, key: string, job: JobId, ttl: int, link: Link, now: Time)
    returns (stored: bool)
    modifies cache
    ensures cache.entries == Stored(old(cache.entries), key, job, ttl, link, now)
    ensures !stored <==> link.reached && link.answered && old(Visible(cache.entries, key, now)).Some?
    ensures var kept := key in old(cache.entries) && old(cache.entries)[key].expires > now;
            && (!stored <==> link.reached && link.answered && kept)
            && cache.entries == if kept || !link.reached then old(cache.entries)
                                else old(cache.entries)[key := Entry(job, now + ttl)]
  {
    var present := key in cache.entries && now < cache.entries[key].expires;
    if link.reached && !present {
      cache.entries := cache.entries[key := Entry(job, now + ttl)];
    }
    return !(link.reached && link.answered && present);
  }
}
