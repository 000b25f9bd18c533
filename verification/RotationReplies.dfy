/** What a rotation answers and leaves, told by the rows, the locks and the polls that it finds. */
module RotationReplies {
  import opened Common
  import opened IpTables
  import opened IpService
  import opened IpManager
  import opened Locks

  // ---------------------------------------------------------------------------
  // The drain
  // ---------------------------------------------------------------------------

  /** The poll sees an unfinished order on the IP. */
  predicate Busy(rows: seq<OrderRow>, ip: nat) {
    exists i :: 0 <= i < |rows| && rows[i].ip == Some(ip) && !rows[i].terminal
  }

  /** Some poll sees no unfinished order on the IP, and all polls before it come before the deadline. */
  ghost predicate DrainsInTime(p: Polls, ip: nat, timeout: int) {
    exists n: nat ::
      && !Busy(p.orders(n), ip)
      && forall i :: 0 <= i < n ==> Busy(p.orders(i), ip) && p.clock(i) < p.begin + (if timeout > 0 then timeout else 0)
  }

  lemma DrainsIff(p: Polls, ip: nat, timeout: int)
    ensures AsPolled(p, ip, timeout, true) <==> DrainsInTime(p, ip, timeout)
  {
    forall n: nat
      ensures CountInflight(p.orders(n), ip) == 0 <==> !Busy(p.orders(n), ip)
    {
      NoneInflight(p.orders(n), ip);
    }
    if n: nat :| StopsAt(p, ip, timeout, n) && CountInflight(p.orders(n), ip) == 0 {
      assert !Busy(p.orders(n), ip);
    }
    if n: nat :| !Busy(p.orders(n), ip)
                 && forall i :: 0 <= i < n ==> Busy(p.orders(i), ip)
                                               && p.clock(i) < p.begin + (if timeout > 0 then timeout else 0) {
      assert StopsAt(p, ip, timeout, n);
    }
  }

  // ---------------------------------------------------------------------------
  // A rotation that gets as far as its new IP
  // ---------------------------------------------------------------------------

  /** Row a is the first active assignment of the broker. */
  predicate FirstActive(assignments: seq<Assignment>, broker: nat, a: nat) {
    && a < |assignments| && assignments[a].broker == broker && assignments[a].status == Active
    && forall i :: 0 <= i < a && assignments[i].broker == broker ==> assignments[i].status != Active
  }

  /** One of the eight tries yields this address and all before it collide. */
  ghost predicate Yields(tries: nat -> Try, new_: nat) {
    exists k :: 0 <= k < 8 && tries(k) == Creates(new_) && forall i :: 0 <= i < k ==> tries(i) == Collides
  }

  /** The lock is free, the broker is known, row a is its assignment, and the new IP is allocated. */
  ghost predicate Begins(t: Tables, held: map<Key, nat>, broker: nat, env: Environment, a: nat, new_: nat) {
    BrokerKey(broker) !in held && broker in t.brokers && FirstActive(t.assignments, broker, a) && Yields(env.tries, new_)
  }

  /** The old IP is on an instance that is not destroyed. */
  predicate OnInstance(t: Tables, ip: nat) {
    ip in t.ips && t.ips[ip].instance.Some? && t.ips[ip].instance.value in t.instances
    && !t.instances[t.ips[ip].instance.value]
  }

  /** The new IP cannot be attached in its place. */
  predicate CannotAttach(t: Tables, held: map<Key, nat>, env: Environment, old_: nat, new_: nat) {
    OnInstance(t, old_) && (IpKey(new_) in held || env.attachFails)
  }

  lemma {:induction false} FirstActiveIsFound(assignments: seq<Assignment>, broker: nat, from: nat, a: nat)
    requires FirstActive(assignments, broker, a) && from <= a
    ensures ActiveOf(assignments, broker, from) == Some(a)
    decreases a - from
  {
    if from < a {
      FirstActiveIsFound(assignments, broker, from + 1, a);
    }
  }

  lemma {:induction false} YieldedIsAllocated(tries: nat -> Try, n: nat, k: nat, new_: nat)
    requires n <= k < 8 && tries(k) == Creates(new_) && forall i :: n <= i < k ==> tries(i) == Collides
    ensures Allocation(tries, n) == Ok(new_)
    decreases k - n
  {
    if n < k {
      assert tries(n) == Collides;
      YieldedIsAllocated(tries, n + 1, k, new_);
    }
  }

  lemma NotRefused(t: Tables, held: map<Key, nat>, broker: nat, env: Environment, a: nat, new_: nat)
    requires Refers(t) && Begins(t, held, broker, env, a, new_)
    ensures Refusal(t, held, broker, env).None? && Rotating(t, held, broker, env) == a
    ensures Allocation(env.tries, 0) == Ok(new_)
    ensures AttachDue(t, a) == if OnInstance(t, t.assignments[a].ip) then t.ips[t.assignments[a].ip].instance else None
  {
    FirstActiveIsFound(t.assignments, broker, 0, a);
    var k :| 0 <= k < 8 && env.tries(k) == Creates(new_) && forall i :: 0 <= i < k ==> env.tries(i) == Collides;
    YieldedIsAllocated(env.tries, 0, k, new_);
  }

  /** A rotation that begins and can attach its new IP succeeds exactly if the caller or the policy forces
      it or the old IP drains in time; otherwise it times out. */
  lemma AnswersBy(t: Tables, held: map<Key, nat>, broker: nat, force: bool, env: Environment, a: nat, new_: nat)
    requires Refers(t) && Begins(t, held, broker, env, a, new_)
    requires !CannotAttach(t, held, env, t.assignments[a].ip, new_)
    ensures var (r, old_) := (RotationReply(t, held, broker, force, env), t.assignments[a].ip);
            var drains := DrainsInTime(env.polls, old_, env.timeout);
            r == if force || env.forcePolicy || drains then Ok(Rotation(old_, new_, drains)) else Err(DrainTimeout)
    ensures var due := if OnInstance(t, t.assignments[a].ip) then t.ips[t.assignments[a].ip].instance else None;
            AfterRotation(t, held, broker, force, env)
            == Rotated(t, a, if RotationReply(t, held, broker, force, env).Ok? then CutOver(new_, due, env.now, env.cooldown)
                             else TimedOut(new_, due, env.newDetachFails && due.Some?))
  {
    NotRefused(t, held, broker, env, a, new_);
    DrainsIff(env.polls, t.assignments[a].ip, env.timeout);
  }

  /** Without a cutover the old assignment and every other row are as they were. */
  lemma TimeoutKeepsAssignments(t: Tables, held: map<Key, nat>, broker: nat, force: bool, env: Environment, a: nat, new_: nat)
    requires Refers(t) && Begins(t, held, broker, env, a, new_) && new_ !in t.ips
    requires !CannotAttach(t, held, env, t.assignments[a].ip, new_)
    requires !force && !env.forcePolicy && !DrainsInTime(env.polls, t.assignments[a].ip, env.timeout)
    ensures var t' := AfterRotation(t, held, broker, force, env);
            && t'.assignments == t.assignments && t'.usage == t.usage && t'.brokers == t.brokers
            && t'.instances == t.instances && t'.outbox == t.outbox + [IpAllocated(new_)]
            && (forall ip :: ip in t.ips ==> ip in t'.ips && t'.ips[ip] == t.ips[ip])
            && t'.ips.Keys == t.ips.Keys + {new_} && t'.ips[new_].status == Retired
  {
    AnswersBy(t, held, broker, force, env, a, new_);
    NotRefused(t, held, broker, env, a, new_);
    var due := AttachDue(t, a);
    FailedRotationChangesNothing(t, a, TimedOut(new_, due, env.newDetachFails && due.Some?));
  }

  /** A cutover, row by row. */
  lemma SuccessMovesTheBroker(t: Tables, held: map<Key, nat>, broker: nat, force: bool, env: Environment, a: nat, new_: nat)
    requires Refers(t) && OneActive(t) && Begins(t, held, broker, env, a, new_) && new_ !in t.ips
    requires !CannotAttach(t, held, env, t.assignments[a].ip, new_)
    requires force || env.forcePolicy || DrainsInTime(env.polls, t.assignments[a].ip, env.timeout)
    ensures var (t', x) := (AfterRotation(t, held, broker, force, env), t.assignments[a]);
            && t'.assignments == t.assignments[a := x.(status := Ended, endedAt := Some(env.now))]
                                 + [Assignment(x.client, broker, new_, Active, None)]
            && |t'.usage| == |t.usage| + 1 && t'.usage[|t.usage|] == Usage(broker, new_, env.now, None, None)
            && (forall u :: 0 <= u < |t.usage| ==>
                  t'.usage[u] == if t.usage[u].broker == broker && t.usage[u].ip == x.ip && t.usage[u].releasedAt.None?
                                 then t.usage[u].(releasedAt := Some(env.now), eligibleAt := Some(env.now + env.cooldown))
                                 else t.usage[u])
            && t'.outbox == t.outbox + [IpAllocated(new_), IpRotated(broker, x.ip, new_)]
  {
    AnswersBy(t, held, broker, force, env, a, new_);
    NotRefused(t, held, broker, env, a, new_);
    SuccessfulRotationMovesOneBroker(t, a, CutOver(new_, AttachDue(t, a), env.now, env.cooldown));
  }

  /** ... and the two IPs. */
  lemma SuccessMovesTheIps(t: Tables, held: map<Key, nat>, broker: nat, force: bool, env: Environment, a: nat, new_: nat)
    requires Refers(t) && Begins(t, held, broker, env, a, new_) && new_ !in t.ips
    requires !CannotAttach(t, held, env, t.assignments[a].ip, new_)
    requires force || env.forcePolicy || DrainsInTime(env.polls, t.assignments[a].ip, env.timeout)
    ensures var (t', old_) := (AfterRotation(t, held, broker, force, env), t.assignments[a].ip);
            && t'.ips.Keys == t.ips.Keys + {new_}
            && t'.ips[new_] == (if OnInstance(t, old_) then StaticIp(t.ips[old_].region, Attached, t.ips[old_].instance)
                                else StaticIp(t.ips[old_].region, Allocated, None))
            && t'.ips[old_] == StaticIp(t.ips[old_].region, Retired,
                                        if t.ips[old_].status == Attached then None else t.ips[old_].instance)
            && (forall ip :: ip in t.ips && ip != old_ ==> t'.ips[ip] == t.ips[ip])
            && t'.brokers == t.brokers && t'.instances == t.instances
  {
    AnswersBy(t, held, broker, force, env, a, new_);
    NotRefused(t, held, broker, env, a, new_);
  }

  // ---------------------------------------------------------------------------
  // A rotation that does not get there
  // ---------------------------------------------------------------------------

  /** The new IP cannot be attached: nothing but that IP, retired, is left, and its deletion was asked for. */
  lemma AttachFailureReverts(t: Tables, held: map<Key, nat>, broker: nat, force: bool, env: Environment, a: nat, new_: nat)
    requires Refers(t) && Begins(t, held, broker, env, a, new_) && new_ !in t.ips
    requires CannotAttach(t, held, env, t.assignments[a].ip, new_)
    ensures RotationReply(t, held, broker, force, env)
            == Err(if IpKey(new_) in held then LockContention else InfrastructureFailure)
    ensures AfterRotation(t, held, broker, force, env)
            == t.(ips := t.ips[new_ := StaticIp(t.ips[t.assignments[a].ip].region, Retired, None)],
                  outbox := t.outbox + [IpAllocated(new_)])
    ensures Discards(ScriptOf(t, held, broker, force, env)) == [new_]
  {
    NotRefused(t, held, broker, env, a, new_);
  }

  /** The new IP of a rotation that times out is deleted, unless its detach is asked for and fails; one that
      cuts over deletes nothing. */
  lemma DeletionsAre(t: Tables, held: map<Key, nat>, broker: nat, force: bool, env: Environment, a: nat, new_: nat)
    requires Refers(t) && Begins(t, held, broker, env, a, new_)
    requires !CannotAttach(t, held, env, t.assignments[a].ip, new_)
    ensures Discards(ScriptOf(t, held, broker, force, env))
            == if force || env.forcePolicy || DrainsInTime(env.polls, t.assignments[a].ip, env.timeout)
                  || (env.newDetachFails && OnInstance(t, t.assignments[a].ip))
               then [] else [new_]
  {
    NotRefused(t, held, broker, env, a, new_);
    DrainsIff(env.polls, t.assignments[a].ip, env.timeout);
  }

  /** The refusals, in the order of the checks. */
  lemma RefusedBy(t: Tables, held: map<Key, nat>, broker: nat, force: bool, env: Environment)
    requires Refers(t)
    ensures var r := RotationReply(t, held, broker, force, env);
            var none := forall i :: 0 <= i < |t.assignments| && t.assignments[i].broker == broker ==>
                          t.assignments[i].status != Active;
            && (BrokerKey(broker) in held ==> r == Err(LockContention))
            && (BrokerKey(broker) !in held && broker !in t.brokers ==> r == Err(NotFound))
            && (BrokerKey(broker) !in held && broker in t.brokers && none ==> r == Err(NoActiveAssignment))
            && (BrokerKey(broker) !in held && broker in t.brokers && !none && (forall new_ :: !Yields(env.tries, new_)) ==>
                  r == Err(if forall i :: 0 <= i < 8 ==> env.tries(i) == Collides then AllocateConflict else InfrastructureFailure))
    ensures BrokerKey(broker) in held || broker !in t.brokers
            || (forall i :: 0 <= i < |t.assignments| && t.assignments[i].broker == broker ==> t.assignments[i].status != Active)
            || (forall new_ :: !Yields(env.tries, new_))
            ==> AfterRotation(t, held, broker, force, env) == t
  {
    NothingYielded(env.tries, 0);
  }

  /** What an allocation comes to that yields nothing. */
  lemma {:induction false} NothingYielded(tries: nat -> Try, n: nat)
    requires n <= 8 && forall i :: 0 <= i < n ==> tries(i) == Collides
    ensures (forall new_ :: !Yields(tries, new_)) ==>
              Allocation(tries, n)
              == Err(if forall i :: 0 <= i < 8 ==> tries(i) == Collides then AllocateConflict else InfrastructureFailure)
    decreases 8 - n
  {
    if n < 8 {
      if tries(n).Creates? {
        assert Yields(tries, tries(n).ip);
      } else if tries(n).Collides? {
        NothingYielded(tries, n + 1);
      }
    }
  }
}
