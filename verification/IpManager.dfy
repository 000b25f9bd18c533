/** The service objects: methods over tables updated in place, under the in-process locks. */
module IpManager {
  import opened Common
  import opened IpTables
  import opened IpService
  import opened Locks

  /** One attempt to create a static IP: the provider may fail, or return an address already stored. */
  datatype Try = CreateFails | Collides | Creates(ip: nat)

  /** A call succeeds when its check finds nothing wrong. */
  function Reply(check: Option<Error>): Result<()> {
    if check.Some? then Err(check.value) else Ok(())
  }

  /** Retrying on a collision, at most eight times. */
  function Allocation(tries: nat -> Try, n: nat): Result<nat>
    decreases 8 - n
  {
    if n >= 8 then Err(AllocateConflict)
    else
      match tries(n)
      case Creates(ip) => Ok(ip)
      case CreateFails => Err(InfrastructureFailure)
      case Collides => Allocation(tries, n + 1)
  }

  /** An allocation succeeds exactly when one of the eight tries yields a new address and all before it
      collide. */
  lemma {:induction false} AllocatesIff(tries: nat -> Try, n: nat)
    requires n <= 8
    ensures Allocation(tries, n).Ok? <==>
              exists k :: n <= k < 8 && tries(k).Creates? && forall i :: n <= i < k ==> tries(i).Collides?
    decreases 8 - n
  {
    if n < 8 && tries(n).Collides? {
      AllocatesIff(tries, n + 1);
    }
  }

  /** An order row as the drain sees it. */
  datatype OrderRow = OrderRow(ip: Option<nat>, terminal: bool)

  /** `select count(*)` of the orders on an IP that have not reached a terminal status. */
  function CountInflight(orders: seq<OrderRow>, ip: nat): nat {
    if orders == [] then 0
    else (if orders[0].ip == Some(ip) && !orders[0].terminal then 1 else 0) + CountInflight(orders[1..], ip)
  }

  lemma {:induction false} NoneInflight(orders: seq<OrderRow>, ip: nat)
    ensures CountInflight(orders, ip) == 0
            <==> forall i :: 0 <= i < |orders| && orders[i].ip == Some(ip) ==> orders[i].terminal
  {
    if orders != [] {
      NoneInflight(orders[1..], ip);
      if orders[0].ip == Some(ip) && !orders[0].terminal {
      } else {
        if forall i :: 0 <= i < |orders[1..]| && orders[1..][i].ip == Some(ip) ==> orders[1..][i].terminal {
          forall i | 0 <= i < |orders| && orders[i].ip == Some(ip)
            ensures orders[i].terminal
          {
            assert i > 0 ==> orders[1..][i - 1] == orders[i];
          }
        } else {
          var i :| 0 <= i < |orders[1..]| && orders[1..][i].ip == Some(ip) && !orders[1..][i].terminal;
          assert orders[i + 1] == orders[1..][i];
        }
      }
    }
  }

  /** What the drain observes: the orders and the loop clock at each poll, and the clock before them. */
  datatype Polls = Polls(orders: nat -> seq<OrderRow>, clock: nat -> int, begin: int)

  ghost predicate Advances(p: Polls) {
    forall i, j :: 0 <= i < j ==> p.clock(i) < p.clock(j)
  }

  /** The drain stops at poll n: it is the first to see no order in flight or to reach the deadline. */
  ghost predicate StopsAt(p: Polls, ip: nat, timeout: int, n: nat) {
    && (CountInflight(p.orders(n), ip) == 0 || p.clock(n) >= Deadline(p, timeout))
    && forall i :: 0 <= i < n ==> CountInflight(p.orders(i), ip) > 0 && p.clock(i) < Deadline(p, timeout)
  }

  /** The drain's answer is what the poll at which it stops sees. */
  ghost predicate AsPolled(p: Polls, ip: nat, timeout: int, drained: bool) {
    exists n: nat :: StopsAt(p, ip, timeout, n) && (drained <==> CountInflight(p.orders(n), ip) == 0)
  }

  /** The answer is settled by what the polls see. */
  lemma AnswerIsSettled(p: Polls, ip: nat, timeout: int, drained: bool)
    requires AsPolled(p, ip, timeout, drained)
    ensures AsPolled(p, ip, timeout, true) == drained
  {
    if AsPolled(p, ip, timeout, true) {
      var n: nat :| StopsAt(p, ip, timeout, n) && (drained <==> CountInflight(p.orders(n), ip) == 0);
      var m: nat :| StopsAt(p, ip, timeout, m) && CountInflight(p.orders(m), ip) == 0;
      assert n == m;
    }
  }

  function Deadline(p: Polls, timeout: int): int {
    p.begin + (if 0 > timeout then 0 else timeout)
  }

  datatype Environment = Environment(
    tries: nat -> Try,
    reuseAt: int,
    attachFails: bool,
    polls: Polls,
    timeout: int,
    forcePolicy: bool,
    newDetachFails: bool,
    now: int,
    cooldown: int)

  datatype Rotation = Rotation(old_: nat, new_: nat, drained: bool)

  // ---------------------------------------------------------------------------
  // What a rotation comes to
  // ---------------------------------------------------------------------------

  /** Why a rotation changes nothing. */
  function Refusal(t: Tables, held: map<Key, nat>, broker: nat, env: Environment): Option<Error> {
    if BrokerKey(broker) in held then Some(LockContention)
    else if broker !in t.brokers then Some(NotFound)
    else if ActiveOf(t.assignments, broker, 0).None? then Some(NoActiveAssignment)
    else
      match Allocation(env.tries, 0)
      case Err(e) => Some(e)
      case Ok(_) => None
  }

  /** The instance that the new IP is to be attached to: the one of the old IP, unless it is gone. */
  function AttachDue(t: Tables, a: nat): Option<nat>
    requires a < |t.assignments| && t.assignments[a].ip in t.ips
  {
    var instance := t.ips[t.assignments[a].ip].instance;
    if instance.Some? && instance.value in t.instances && !t.instances[instance.value] then instance else None
  }

  function AttachError(held: map<Key, nat>, new_: nat, env: Environment): Option<Error> {
    if IpKey(new_) in held then Some(LockContention)
    else if env.attachFails then Some(InfrastructureFailure)
    else None
  }

  /** The assignment that is rotated. */
  function Rotating(t: Tables, held: map<Key, nat>, broker: nat, env: Environment): (a: nat)
    requires Refers(t) && Refusal(t, held, broker, env).None?
    ensures a < |t.assignments| && t.assignments[a].ip in t.ips && t.assignments[a].broker == broker
    ensures t.assignments[a].status == Active
  {
    ActiveOf(t.assignments, broker, 0).value
  }

  /** A rotation is refused; or reverted, when the new IP is to be attached and cannot be; or cut over,
      when the drain saw no order in flight or the caller or the policy forces it; or timed out. */
  ghost function ScriptOf(t: Tables, held: map<Key, nat>, broker: nat, force: bool, env: Environment): Script
    requires Refers(t)
  {
    if Refusal(t, held, broker, env).Some? then Refused
    else
      var a, new_ := Rotating(t, held, broker, env), Allocation(env.tries, 0).value;
      var due := AttachDue(t, a);
      if due.Some? && AttachError(held, new_, env).Some? then Reverted(new_)
      else if AsPolled(env.polls, t.assignments[a].ip, env.timeout, true) || force || env.forcePolicy
      then CutOver(new_, due, env.now, env.cooldown)
      else TimedOut(new_, due, env.newDetachFails && due.Some?)
  }

  /** What the caller is told. */
  ghost function RotationReply(t: Tables, held: map<Key, nat>, broker: nat, force: bool, env: Environment): Result<Rotation>
    requires Refers(t)
  {
    match ScriptOf(t, held, broker, force, env)
    case Refused => Err(Refusal(t, held, broker, env).value)
    case Reverted(new_) => Err(AttachError(held, new_, env).value)
    case TimedOut(_, _, _) => Err(DrainTimeout)
    case CutOver(new_, _, _, _) =>
      var old_ := t.assignments[Rotating(t, held, broker, env)].ip;
      Ok(Rotation(old_, new_, AsPolled(env.polls, old_, env.timeout, true)))
  }

  ghost function AfterRotation(t: Tables, held: map<Key, nat>, broker: nat, force: bool, env: Environment): Tables
    requires Refers(t)
  {
    var s := ScriptOf(t, held, broker, force, env);
    if s.Refused? then t else Rotated(t, Rotating(t, held, broker, env), s)
  }

  /** The deletions that a rotation asks for: of a new IP that is not used, unless its detach fails. */
  function Discards(s: Script): seq<nat> {
    if s.Reverted? || (s.TimedOut? && !s.detachFails) then [s.new_] else []
  }

  class Manager {
    const locks: MemoryLock
    var assignments: seq<Assignment>
    var ips: map<nat, StaticIp>
    var usage: seq<Usage>
    var brokers: map<nat, nat>
    var instances: map<nat, bool>
    var outbox: seq<Event>
    /** The IPs for which the provider was asked to delete, in order. */
    ghost var deletes: seq<nat>

    function View(): Tables
      reads this
    {
      Tables(assignments, ips, usage, brokers, instances, outbox)
    }

    constructor (locks: MemoryLock)
      ensures this.locks == locks && View() == Tables([], map[], [], map[], map[], []) && deletes == []
    {
      this.locks := locks;
      assignments, ips, usage, brokers, instances, outbox, deletes := [], map[], [], map[], map[], [], [];
    }

    ghost predicate Unused(token: nat)
      reads this, locks
    {
      token !in locks.held.Values
    }

    method Assign(ip: nat, broker: nat, client: Option<nat>, now: int, token: nat) returns (r: Result<()>)
      requires Unused(token)
      modifies this, locks
      ensures locks.held == old(locks.held) && deletes == old(deletes)
      ensures View() == if BrokerKey(broker) in old(locks.held) || IpKey(ip) in old(locks.held) then old(View())
                        else Assigned(old(View()), broker, ip, client, now)
      ensures r == if BrokerKey(broker) in old(locks.held) || IpKey(ip) in old(locks.held) then Err(LockContention)
                   else Reply(AssignCheck(old(View()), broker, ip, now))
    {
      assert forall key :: key in locks.held ==> locks.held[key] in locks.held.Values;
      var ok := locks.Acquire(BrokerKey(broker), token);
      if !ok {
        return Err(LockContention);
      }
      ok := locks.Acquire(IpKey(ip), token);
      if !ok {
        ok := locks.Release(BrokerKey(broker), token);
        return Err(LockContention);
      }
      var e := AssignCheck(View(), broker, ip, now);
      if e.Some? {
        r := Err(e.value);
      } else {
        assignments := assignments
          + [Assignment(if client.Some? then client.value else brokers[broker], broker, ip, Active, None)];
        usage := usage + [Usage(broker, ip, now, None, None)];
        if ips[ip].status == Retired {
          ips := ips[ip := ips[ip].(status := Allocated)];
        }
        r := Ok(());
      }
      ok := locks.Release(IpKey(ip), token);
      ok := locks.Release(BrokerKey(broker), token);
    }

    method Attach(ip: nat, instance: nat, fails: bool, token: nat) returns (r: Result<()>)
      requires Unused(token)
      modifies this, locks
      ensures locks.held == old(locks.held) && deletes == old(deletes)
      ensures r == if IpKey(ip) in old(locks.held) then Err(LockContention)
                   else Reply(AttachCheck(old(View()), ip, instance, fails))
      ensures r.Ok? ==> View() == AttachTx(old(View()), ip, instance)
      ensures r.Err? ==> View() == old(View())
    {
      assert forall key :: key in locks.held ==> locks.held[key] in locks.held.Values;
      var ok := locks.Acquire(IpKey(ip), token);
      if !ok {
        return Err(LockContention);
      }
      if ip !in ips || instance !in instances {
        r := Err(NotFound);
      } else if instances[instance] {
        r := Err(InvalidState);
      } else if fails {
        r := Err(InfrastructureFailure);
      } else {
        ips := ips[ip := ips[ip].(status := Attached, instance := Some(instance))];
        r := Ok(());
      }
      ok := locks.Release(IpKey(ip), token);
    }

    method Detach(ip: nat, fails: bool, token: nat) returns (r: Result<()>)
      requires Unused(token)
      modifies this, locks
      ensures locks.held == old(locks.held) && deletes == old(deletes)
      ensures r == if IpKey(ip) in old(locks.held) then Err(LockContention)
                   else Reply(DetachCheck(old(View()), ip, fails))
      ensures r.Ok? ==> View() == DetachTx(old(View()), ip)
      ensures r.Err? ==> View() == old(View())
    {
      assert forall key :: key in locks.held ==> locks.held[key] in locks.held.Values;
      var ok := locks.Acquire(IpKey(ip), token);
      if !ok {
        return Err(LockContention);
      }
      if ip !in ips {
        r := Err(NotFound);
      } else if fails {
        r := Err(InfrastructureFailure);
      } else {
        ips := ips[ip := ips[ip].(status := Detached, instance := None)];
        r := Ok(());
      }
      ok := locks.Release(IpKey(ip), token);
    }

    /** The rows that a release changes in its session; they reach the tables only with the commit. */
    method EndHolding(ip: nat, now: int, eligible: int) returns (ended: seq<Assignment>, stamped: seq<Usage>)
      ensures View().(assignments := ended, usage := stamped)
              == EndPicked(View(), Holding(assignments, ip, 0), ip, now, eligible)
    {
      ended, stamped := assignments, usage;
      var picked := Holding(assignments, ip, 0);
      for i := 0 to |picked|
        invariant |ended| == |assignments|
        invariant View().(assignments := ended, usage := stamped) == EndPicked(View(), picked[..i], ip, now, eligible)
      {
        assert picked[..i + 1][..i] == picked[..i];
        stamped := CloseUsage(stamped, ended[picked[i]].broker, ip, now, eligible);
        ended := EndAssignment(ended, picked[i], now);
      }
      assert picked[..|picked|] == picked;
    }

    method Release(ip: nat, now: int, cooldown: int, deleteFails: bool, token: nat) returns (r: Result<()>)
      requires Unused(token)
      modifies this, locks
      ensures locks.held == old(locks.held)
      ensures View() == if IpKey(ip) in old(locks.held) then old(View())
                        else Released(old(View()), ip, now, cooldown, deleteFails)
      ensures r == if IpKey(ip) in old(locks.held) then Err(LockContention)
                   else Reply(ReleaseCheck(old(View()), ip, deleteFails))
      ensures deletes == if IpKey(ip) !in old(locks.held) && ReleaseCheck(old(View()), ip, false).None?
                         then old(deletes) + [ip] else old(deletes)
    {
      assert forall key :: key in locks.held ==> locks.held[key] in locks.held.Values;
      var ok := locks.Acquire(IpKey(ip), token);
      if !ok {
        return Err(LockContention);
      }
      if ip !in ips {
        r := Err(NotFound);
      } else if ips[ip].status == Attached {
        r := Err(InvalidState);
      } else {
        var ended, stamped := EndHolding(ip, now, now + cooldown);
        deletes := deletes + [ip];
        if deleteFails {
          r := Err(InfrastructureFailure);
        } else {
          assignments, usage := ended, stamped;
          ips := ips[ip := ips[ip].(status := Retired)];
          outbox := outbox + [IpReleased(ip)];
          r := Ok(());
        }
      }
      ok := locks.Release(IpKey(ip), token);
    }

    /** Retry a few times when the provider returns an address that is already stored. */
    method Allocate(region: string, tries: nat -> Try) returns (r: Result<nat>)
      requires forall n :: tries(n).Creates? ==> tries(n).ip !in ips
      modifies this
      ensures deletes == old(deletes)
      ensures r == Allocation(tries, 0)
      ensures r.Ok? ==> r.value !in old(ips) && View() == AllocateTx(old(View()), r.value, region)
      ensures r.Err? ==> View() == old(View())
    {
      for n := 0 to 8
        invariant View() == old(View()) && deletes == old(deletes)
        invariant Allocation(tries, n) == Allocation(tries, 0)
      {
        var t := tries(n);
        if t.CreateFails? {
          return Err(InfrastructureFailure);
        }
        if t.Creates? {
          ips := ips[t.ip := StaticIp(region, Allocated, None)];
          outbox := outbox + [IpAllocated(t.ip)];
          return Ok(t.ip);
        }
      }
      r := Err(AllocateConflict);
    }

    /** Poll until no order is in flight on the old IP or the deadline has passed. */
    method Drain(ip: nat, timeout: int, p: Polls) returns (drained: bool)
      requires Advances(p)
      ensures AsPolled(p, ip, timeout, drained)
    {
      var i := 0;
      var deadline := Deadline(p, timeout);
      while true
        invariant forall j :: 0 <= j < i ==> CountInflight(p.orders(j), ip) > 0 && p.clock(j) < deadline
        decreases deadline - p.clock(i)
      {
        if CountInflight(p.orders(i), ip) == 0 {
          assert StopsAt(p, ip, timeout, i);
          return true;
        }
        if p.clock(i) >= deadline {
          assert StopsAt(p, ip, timeout, i);
          return false;
        }
        i := i + 1;
      }
    }

    method CleanUp(ip: nat, detachFails: bool)
      requires ip in ips
      modifies this
      ensures View() == CleanTx(old(View()), ip, detachFails && old(ips)[ip].instance.Some?)
      ensures deletes == if detachFails && old(ips)[ip].instance.Some? then old(deletes) else old(deletes) + [ip]
    {
      if ips[ip].instance.Some? {
        if detachFails {
          ips := ips[ip := ips[ip].(status := Retired)];
          return;
        }
        ips := ips[ip := ips[ip].(instance := None)];
      }
      deletes := deletes + [ip];
      ips := ips[ip := ips[ip].(status := Retired)];
    }

    /** The last clean-up: only for an IP that nobody was given and that is not retired yet. */
    method FinalCleanUp(ip: nat, detachFails: bool)
      requires ip in ips
      modifies this
      ensures var used := exists a :: 0 <= a < |old(assignments)| && old(assignments)[a].ip == ip
                                      && old(assignments)[a].status == Active;
              View() == if used || old(ips)[ip].status == Retired then old(View())
                        else CleanTx(old(View()), ip, detachFails && old(ips)[ip].instance.Some?)
      ensures deletes == if ActiveOn(old(assignments), ip) || old(ips)[ip].status == Retired
                            || (detachFails && old(ips)[ip].instance.Some?)
                         then old(deletes) else old(deletes) + [ip]
    {
      if !ActiveOn(assignments, ip) && ips[ip].status != Retired {
        CleanUp(ip, detachFails);
      }
    }

    /** Give up after the drain timed out: retire the new IP, take the old assignment back. */
    method Abort(a: nat, new_: nat, detachFails: bool)
      requires a < |assignments| && new_ in ips && !ActiveOn(assignments, new_) && assignments[a].ip != new_
      modifies this
      ensures View() == AbortTx(old(View()), a, new_, detachFails && old(ips)[new_].instance.Some?)
      ensures deletes == if detachFails && old(ips)[new_].instance.Some? then old(deletes) else old(deletes) + [new_]
    {
      CleanUp(new_, detachFails);
      assignments := assignments[a := assignments[a].(status := Active)];
      FinalCleanUp(new_, detachFails);
    }

    method Cutover(a: nat, new_: nat, now: int, cooldown: int)
      requires a < |assignments| && assignments[a].ip in ips
      modifies this
      ensures View() == CutoverTx(old(View()), a, new_, now, cooldown) && deletes == old(deletes)
    {
      var old_, broker := assignments[a].ip, assignments[a].broker;
      assignments := EndAssignment(assignments, a, now);
      usage := CloseUsage(usage, broker, old_, now, now + cooldown);
      if ips[old_].status == Attached {
        ips := ips[old_ := ips[old_].(instance := None)];
      }
      ips := ips[old_ := ips[old_].(status := Retired)];
      assignments := assignments + [Assignment(assignments[a].client, broker, new_, Active, None)];
      usage := usage + [Usage(broker, new_, now, None, None)];
      outbox := outbox + [IpRotated(broker, old_, new_)];
    }

    /** Allocate the new IP and attach it where the old one was; a failure retires it again. */
    method Prepare(a: nat, env: Environment, token: nat) returns (r: Result<nat>)
      requires Unused(token) && Refers(View())
      requires a < |assignments| && assignments[a].status == Active && assignments[a].ip in ips
      requires forall n :: env.tries(n).Creates? ==> env.tries(n).ip !in ips
      modifies this, locks
      ensures locks.held == old(locks.held)
      ensures Allocation(env.tries, 0).Err? ==> r == Allocation(env.tries, 0) && View() == old(View()) && deletes == old(deletes)
      ensures Allocation(env.tries, 0).Ok? ==>
                var (new_, due) := (Allocation(env.tries, 0).value, AttachDue(old(View()), a));
                && new_ !in old(ips)
                && if due.Some? && AttachError(old(locks.held), new_, env).Some?
                   then r == Err(AttachError(old(locks.held), new_, env).value)
                        && View() == Rotated(old(View()), a, Reverted(new_)) && deletes == old(deletes) + [new_]
                   else r == Ok(new_) && View() == Prepared(old(View()), a, new_, due) && deletes == old(deletes)
    {
      var instance := ips[assignments[a].ip].instance;
      r := Allocate(ips[assignments[a].ip].region, env.tries);
      if r.Err? {
        return;
      }
      var new_ := r.value;
      assert ReuseAllowed(usage, assignments[a].broker, new_, env.reuseAt);
      if instance.Some? && instance.value in instances && !instances[instance.value] {
        var attachment := Attach(new_, instance.value, env.attachFails, token);
        if attachment.Err? {
          FinalCleanUp(new_, env.newDetachFails);
          return Err(attachment.error);
        }
      }
    }

    /** From the draining commit to the end: cut over, or give up when the drain timed out. */
    method DrainAndSwitch(a: nat, new_: nat, force: bool, env: Environment, ghost before: Tables, ghost due: Option<nat>)
      returns (r: Result<Rotation>)
      requires Advances(env.polls)
      requires a < |before.assignments| && before.assignments[a].ip in before.ips && View() == Prepared(before, a, new_, due)
      requires forall i :: 0 <= i < |assignments| ==> assignments[i].ip != new_
      modifies this
      ensures var (old_, detachFails) := (before.assignments[a].ip, env.newDetachFails && due.Some?);
              var drained := AsPolled(env.polls, old_, env.timeout, true);
              if drained || force || env.forcePolicy
              then r == Ok(Rotation(old_, new_, drained)) && deletes == old(deletes)
                   && View() == Rotated(before, a, CutOver(new_, due, env.now, env.cooldown))
              else r == Err(DrainTimeout) && deletes == old(deletes) + Discards(TimedOut(new_, due, detachFails))
                   && View() == Rotated(before, a, TimedOut(new_, due, detachFails))
    {
      var old_ := assignments[a].ip;
      assignments := assignments[a := assignments[a].(status := Draining)];
      var drained := Drain(old_, env.timeout, env.polls);
      AnswerIsSettled(env.polls, old_, env.timeout, drained);
      assert View() == DrainTx(Prepared(before, a, new_, due), a);
      if !drained && !force && !env.forcePolicy {
        Abort(a, new_, env.newDetachFails);
        return Err(DrainTimeout);
      }
      Cutover(a, new_, env.now, env.cooldown);
      r := Ok(Rotation(old_, new_, drained));
    }

    /** Everything between taking and freeing the broker lock. */
    method RotateLocked(broker: nat, force: bool, env: Environment, token: nat, ghost held: map<Key, nat>)
      returns (r: Result<Rotation>)
      requires Unused(token) && Refers(View()) && Advances(env.polls)
      requires forall n :: env.tries(n).Creates? ==> env.tries(n).ip !in ips
      requires BrokerKey(broker) !in held && forall ip :: IpKey(ip) in held <==> IpKey(ip) in locks.held
      modifies this, locks
      ensures locks.held == old(locks.held)
      ensures r == RotationReply(old(View()), held, broker, force, env)
      ensures View() == AfterRotation(old(View()), held, broker, force, env)
      ensures deletes == old(deletes) + Discards(ScriptOf(old(View()), held, broker, force, env))
    {
      if broker !in brokers {
        return Err(NotFound);
      }
      var found := ActiveOf(assignments, broker, 0);
      if found.None? {
        return Err(NoActiveAssignment);
      }
      ghost var before := View();
      var new_ := Prepare(found.value, env, token);
      if new_.Err? {
        return Err(new_.error);
      }
      assert forall i :: 0 <= i < |assignments| ==> assignments[i].ip != new_.value;
      r := DrainAndSwitch(found.value, new_.value, force, env, before, AttachDue(before, found.value));
    }

    /** The rotation: its reply, its tables and its deletions follow from the tables and locks that it
        finds and from the environment; the broker lock is freed on every path. */
    method Rotate(broker: nat, force: bool, env: Environment, token: nat, inner: nat) returns (r: Result<Rotation>)
      requires Unused(token) && Unused(inner) && token != inner
      requires Refers(View()) && Advances(env.polls)
      requires forall n :: env.tries(n).Creates? ==> env.tries(n).ip !in ips
      modifies this, locks
      ensures locks.held == old(locks.held)
      ensures r == RotationReply(old(View()), old(locks.held), broker, force, env)
      ensures View() == AfterRotation(old(View()), old(locks.held), broker, force, env)
      ensures deletes == old(deletes) + Discards(ScriptOf(old(View()), old(locks.held), broker, force, env))
    {
      assert forall key :: key in locks.held ==> locks.held[key] in locks.held.Values;
      var ok := locks.Acquire(BrokerKey(broker), token);
      if !ok {
        return Err(LockContention);
      }
      r := RotateLocked(broker, force, env, inner, old(locks.held));
      ok := locks.Release(BrokerKey(broker), token);
    }
  }

  /** In terms of what a caller sees: when each outcome occurs. */
  lemma RotationOutcomes(t: Tables, held: map<Key, nat>, broker: nat, force: bool, env: Environment)
    requires Refers(t)
    ensures var s := ScriptOf(t, held, broker, force, env);
            && (s.Refused? <==> BrokerKey(broker) in held || broker !in t.brokers
                                || ActiveOf(t.assignments, broker, 0).None?
                                || !exists k :: 0 <= k < 8 && env.tries(k).Creates? && forall i :: 0 <= i < k ==> env.tries(i).Collides?)
            && (RotationReply(t, held, broker, force, env).Ok? <==> s.CutOver?)
            && (s.CutOver? || s.TimedOut? ==>
                  s.attached == AttachDue(t, Rotating(t, held, broker, env))
                  && (s.attached.Some? ==> AttachError(held, s.new_, env).None?))
  {
    AllocatesIff(env.tries, 0);
  }
}
