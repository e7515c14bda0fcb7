/** PostgreSQL session-level advisory locks (app/services/lock_service.py). */
module LockService {

  type SessionId = nat
  type LockId = int

  /** A session may take a lock it holds again; it must give it back as often. */
  datatype Hold = Hold(session: SessionId, depth: nat)

  type Locks = map<LockId, Hold>

  /** `pg_try_advisory_lock` succeeds unless another session holds the lock. */
  predicate Grants(locks: Locks, id: LockId, s: SessionId) {
    id in locks ==> locks[id].session == s
  }

  predicate Holds(locks: Locks, id: LockId, s: SessionId) {
    id in locks && locks[id].session == s
  }

  function Acquired(locks: Locks, id: LockId, s: SessionId): Locks {
    locks[id := Hold(s, if id in locks then locks[id].depth + 1 else 1)]
  }

  function Released(locks: Locks, id: LockId, s: SessionId): Locks {
    if !Holds(locks, id, s) then locks
    else if locks[id].depth > 1 then locks[id := Hold(s, locks[id].depth - 1)]
    else locks - {id}
  }

  /** A connection that closes gives up everything its session held. */
  function Closed(locks: Locks, s: SessionId): Locks {
    map id | id in locks && locks[id].session != s :: locks[id]
  }

  class LockServer {
    var locks: Locks

    constructor ()
      ensures locks == map[]
    {
      locks := map[];
    }

    /** `acquire_advisory_lock`: a free lock is granted, and so is one the session holds already. */
    method AcquireAdvisoryLock(id: LockId, s: SessionId) returns (acquired: bool)
      modifies this
      ensures acquired <==> old(Grants(locks, id, s))
      ensures acquired <==> id !in old(locks) || old(locks)[id].session == s
      ensures locks == if acquired then Acquired(old(locks), id, s) else old(locks)
      ensures locks == if id !in old(locks) then old(locks)[id := Hold(s, 1)]
                       else if old(locks)[id].session == s then old(locks)[id := Hold(s, old(locks)[id].depth + 1)]
                       else old(locks)
    {
      if id !in locks {
        locks := locks[id := Hold(s, 1)];
        return true;
      }
      if locks[id].session == s {
        locks := locks[id := Hold(s, locks[id].depth + 1)];
        return true;
      }
      return false;
    }

    /** `release_advisory_lock`: one level, and the lock itself with the last. */
    method ReleaseAdvisoryLock(id: LockId, s: SessionId) returns (released: bool)
      modifies this
      ensures released <==> old(Holds(locks, id, s))
      ensures released <==> id in old(locks) && old(locks)[id].session == s
      ensures locks == Released(old(locks), id, s)
      ensures locks == if !released then old(locks)
                       else if old(locks)[id].depth > 1 then old(locks)[id := Hold(s, old(locks)[id].depth - 1)]
                       else old(locks) - {id}
    {
      if id !in locks || locks[id].session != s {
        return false;
      }
      if locks[id].depth > 1 {
        locks := locks[id := Hold(s, locks[id].depth - 1)];
      } else {
        locks := locks - {id};
      }
      return true;
    }
  }

  /** Releasing undoes acquiring, whoever holds what else. */
  lemma ReleaseUndoesAcquire(locks: Locks, id: LockId, s: SessionId)
    requires Grants(locks, id, s) && (id in locks ==> locks[id].depth >= 1)
    ensures Released(Acquired(locks, id, s), id, s) == locks
  {
    var after := Acquired(locks, id, s);
    if id in locks {
      assert locks[id] == Hold(s, locks[id].depth);
    } else {
      assert after - {id} == locks;
    }
  }
}
