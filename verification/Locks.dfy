/** Token locks: the in-process table, and the Redis form whose entries also expire. */
module Locks {
  datatype Key = BrokerKey(broker: nat) | IpKey(ip: nat)

  class MemoryLock {
    var held: map<Key, nat>

    constructor ()
      ensures held == map[]
    {
      held := map[];
    }

    /** The same token may acquire again; any other is turned away. */
    method Acquire(key: Key, token: nat) returns (ok: bool)
      modifies this
      ensures ok <==> key !in old(held) || old(held)[key] == token
      ensures held == if ok then old(held)[key := token] else old(held)
    {
      if key in held && held[key] != token {
        return false;
      }
      held := held[key := token];
      ok := true;
    }

    method Release(key: Key, token: nat) returns (ok: bool)
      modifies this
      ensures ok <==> key in old(held) && old(held)[key] == token
      ensures held == if ok then old(held) - {key} else old(held)
    {
      if key !in held || held[key] != token {
        return false;
      }
      held := held - {key};
      ok := true;
    }
  }

  // ---------------------------------------------------------------------------
  // Redis: SET NX PX, and release by comparing the token
  // ---------------------------------------------------------------------------

  datatype Lease = Lease(token: nat, until: int)

  type Leases = map<Key, Lease>

  /** What Redis still holds at `now`. */
  function Live(l: Leases, now: int): Leases {
    map k | k in l && now < l[k].until :: l[k]
  }

  function Lifetime(ttlMs: int): int {
    if ttlMs < 1 then 1 else ttlMs
  }

  datatype LockOp =
    | TakeLock(key: Key, token: nat, ttlMs: int, at: int)
    | DropLock(key: Key, token: nat, at: int)

  function LockStep(l: Leases, op: LockOp): Leases {
    var live := Live(l, op.at);
    match op
    case TakeLock(key, token, ttlMs, at) =>
      if key in live then live else live[key := Lease(token, at + Lifetime(ttlMs))]
    case DropLock(key, token, at) =>
      if key in live && live[key].token == token then live - {key} else live
  }

  /** A lease changes hands only when its own token drops it or its time has run out; in particular a
      holder that lost its lease by expiry cannot drop its successor's. */
  lemma OnlyOwnerOrTimeEndsLease(l: Leases, op: LockOp, key: Key)
    requires key in l
    ensures (key in LockStep(l, op) && LockStep(l, op)[key] == l[key])
            || l[key].until <= op.at
            || (op.DropLock? && op.key == key && op.token == l[key].token)
  {
  }

  class RedisLock {
    var leases: Leases

    method Acquire(key: Key, ttlMs: int, token: nat, now: int) returns (ok: bool)
      modifies this
      ensures leases == LockStep(old(leases), TakeLock(key, token, ttlMs, now))
      ensures ok <==> key !in old(leases) || old(leases)[key].until <= now
      ensures ok ==> key in leases && leases[key] == Lease(token, now + if ttlMs > 1 then ttlMs else 1)
      ensures forall k :: k in old(leases) && now < old(leases)[k].until && (k != key || !ok) ==>
                k in leases && leases[k] == old(leases)[k]
      ensures forall k :: k in leases && k != key ==> k in old(leases) && now < old(leases)[k].until
    {
      leases := Live(leases, now);
      if key in leases {
        return false;
      }
      leases := leases[key := Lease(token, now + Lifetime(ttlMs))];
      ok := true;
    }

    method Release(key: Key, token: nat, now: int) returns (ok: bool)
      modifies this
      ensures leases == LockStep(old(leases), DropLock(key, token, now))
      ensures ok <==> key in old(leases) && now < old(leases)[key].until && old(leases)[key].token == token
      ensures ok ==> key !in leases
      ensures forall k :: k in leases <==> k in old(leases) && now < old(leases)[k].until && !(ok && k == key)
      ensures forall k :: k in leases ==> leases[k] == old(leases)[k]
    {
      leases := Live(leases, now);
      ok := key in leases && leases[key].token == token;
      if ok {
        leases := leases - {key};
      }
    }
  }
}
