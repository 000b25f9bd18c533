/** The IP service and the rotation, each call run to completion. */
module IpService {
  import opened Common
  import opened IpTables
  import opened Locks

  datatype Error =
    | LockContention
    | NotFound
    | InvalidState
    | ReusePolicy
    | AssignmentConflict
    | InfrastructureFailure
    | AllocateConflict
    | NoActiveAssignment
    | DrainTimeout

  datatype Result<+T> = Ok(value: T) | Err(error: Error)

  // ---------------------------------------------------------------------------
  // What one whole call does to the tables
  // ---------------------------------------------------------------------------

  function AssignCheck(t: Tables, broker: nat, ip: nat, now: int): Option<Error> {
    if ip !in t.ips then Some(NotFound)
    else if t.ips[ip].status == Quarantined || t.ips[ip].status == Attached then Some(InvalidState)
    else if broker !in t.brokers then Some(NotFound)
    else if !ReuseAllowed(t.usage, broker, ip, now) then Some(ReusePolicy)
    else if ActiveOf(t.assignments, broker, 0).Some? then Some(AssignmentConflict)
    else None
  }

  function Assigned(t: Tables, broker: nat, ip: nat, client: Option<nat>, now: int): Tables {
    if AssignCheck(t, broker, ip, now).Some? then t
    else AssignTx(t, if client.Some? then client.value else t.brokers[broker], broker, ip, t.ips[ip].status, now)
  }

  function AttachCheck(t: Tables, ip: nat, instance: nat, fails: bool): Option<Error> {
    if ip !in t.ips || instance !in t.instances then Some(NotFound)
    else if t.instances[instance] then Some(InvalidState)
    else if fails then Some(InfrastructureFailure)
    else None
  }

  function DetachCheck(t: Tables, ip: nat, fails: bool): Option<Error> {
    if ip !in t.ips then Some(NotFound) else if fails then Some(InfrastructureFailure) else None
  }

  function ReleaseCheck(t: Tables, ip: nat, deleteFails: bool): Option<Error> {
    if ip !in t.ips then Some(NotFound)
    else if t.ips[ip].status == Attached then Some(InvalidState)
    else if deleteFails then Some(InfrastructureFailure)
    else None
  }

  function Released(t: Tables, ip: nat, now: int, cooldown: int, deleteFails: bool): Tables {
    if ReleaseCheck(t, ip, deleteFails).Some? then t
    else ReleaseTx(t, Holding(t.assignments, ip, 0), ip, now, cooldown)
  }

  /** How a rotation went, once everything the environment decides is settled. `attached` is the
      instance that the new IP was attached to. */
  datatype Script =
    | Refused
    | Reverted(new_: nat)
    | TimedOut(new_: nat, attached: Option<nat>, detachFails: bool)
    | CutOver(new_: nat, attached: Option<nat>, now: int, cooldown: int)

  function Prepared(t: Tables, a: nat, new_: nat, attached: Option<nat>): Tables
    requires a < |t.assignments| && t.assignments[a].ip in t.ips
  {
    var withNew := AllocateTx(t, new_, t.ips[t.assignments[a].ip].region);
    if attached.Some? then AttachTx(withNew, new_, attached.value) else withNew
  }

  function Rotated(t: Tables, a: nat, s: Script): Tables
    requires a < |t.assignments| && t.assignments[a].ip in t.ips
  {
    match s
    case Refused => t
    case Reverted(new_) => CleanTx(Prepared(t, a, new_, None), new_, false)
    case TimedOut(new_, attached, detachFails) =>
      AbortTx(DrainTx(Prepared(t, a, new_, attached), a), a, new_, detachFails)
    case CutOver(new_, attached, now, cooldown) =>
      CutoverTx(DrainTx(Prepared(t, a, new_, attached), a), a, new_, now, cooldown)
  }

  /** Rows only refer to IPs that exist. */
  ghost predicate Refers(t: Tables) {
    && (forall a :: 0 <= a < |t.assignments| ==> t.assignments[a].ip in t.ips)
    && (forall u :: 0 <= u < |t.usage| ==> t.usage[u].ip in t.ips)
  }

  ghost predicate OneActive(t: Tables) {
    forall i, j :: 0 <= i < j < |t.assignments| && t.assignments[i].broker == t.assignments[j].broker ==>
      !(t.assignments[i].status == Active && t.assignments[j].status == Active)
  }

  // ---------------------------------------------------------------------------
  // Rotation is all or nothing
  // ---------------------------------------------------------------------------

  /** A rotation that does not cut over leaves every assignment, every usage row and every other IP as
      it was: the broker keeps its old IP, and a new IP, if one was allocated, is retired and assigned
      to nobody. */
  lemma FailedRotationChangesNothing(t: Tables, a: nat, s: Script)
    requires a < |t.assignments| && t.assignments[a].status == Active && Refers(t)
    requires !s.CutOver? && (s.Refused? || s.new_ !in t.ips)
    ensures var t' := Rotated(t, a, s);
            && t'.assignments == t.assignments && t'.usage == t.usage
            && (forall ip :: ip in t.ips ==> ip in t'.ips && t'.ips[ip] == t.ips[ip])
            && (!s.Refused? ==>
                  t'.ips.Keys == t.ips.Keys + {s.new_} && t'.ips[s.new_].status == Retired
                  && (forall i :: 0 <= i < |t'.assignments| ==> t'.assignments[i].ip != s.new_))
  {
    if s.TimedOut? {
      var prepared := Prepared(t, a, s.new_, s.attached);
      assert prepared.assignments == t.assignments;
      assert t.assignments[a].(status := Draining).(status := Active) == t.assignments[a];
    }
  }

  /** A rotation that cuts over leaves the new IP as the broker's only active assignment, ends the old
      assignment, retires the old IP, stamps the open usage of the pair with the cooldown, opens a
      usage row for the new pair, and touches nobody else. */
  lemma SuccessfulRotationMovesOneBroker(t: Tables, a: nat, s: Script)
    requires a < |t.assignments| && t.assignments[a].status == Active && Refers(t) && OneActive(t)
    requires s.CutOver? && s.new_ !in t.ips
    ensures var t', old_, broker := Rotated(t, a, s), t.assignments[a].ip, t.assignments[a].broker;
            && OneActive(t') && Refers(t')
            && ActiveOf(t'.assignments, broker, 0) == Some(|t.assignments|)
            && t'.assignments == t.assignments[a := t.assignments[a].(status := Ended, endedAt := Some(s.now))]
                                 + [Assignment(t.assignments[a].client, broker, s.new_, Active, None)]
            && t'.ips[old_].status == Retired
            && t'.ips[s.new_].instance == s.attached
            && (forall ip :: ip in t.ips && ip != old_ ==> t'.ips[ip] == t.ips[ip])
            && t'.usage == CloseUsage(t.usage, broker, old_, s.now, s.now + s.cooldown)
                           + [Usage(broker, s.new_, s.now, None, None)]
            && t'.outbox == t.outbox + [IpAllocated(s.new_), IpRotated(broker, old_, s.new_)]
  {
    var t', n := Rotated(t, a, s), |t.assignments|;
    var prepared := Prepared(t, a, s.new_, s.attached);
    assert prepared.assignments == t.assignments && prepared.usage == t.usage;
    var moved := t.assignments[a := t.assignments[a].(status := Ended, endedAt := Some(s.now))];
    assert DrainTx(prepared, a).assignments[a := t.assignments[a].(status := Ended, endedAt := Some(s.now))] == moved;
    OnlyNewActive(t'.assignments, t.assignments[a].broker, n);
  }

  lemma OnlyNewActive(assignments: seq<Assignment>, broker: nat, n: nat)
    requires n < |assignments| && assignments[n].broker == broker && assignments[n].status == Active
    requires forall i :: 0 <= i < |assignments| && i != n && assignments[i].broker == broker ==>
               assignments[i].status != Active
    ensures ActiveOf(assignments, broker, 0) == Some(n)
  {
  }

  /** After a cutover no usage row of the old pair is open. */
  lemma OldPairIsClosed(t: Tables, a: nat, s: Script, u: nat)
    requires a < |t.assignments| && t.assignments[a].status == Active && Refers(t) && OneActive(t)
    requires s.CutOver? && s.new_ !in t.ips
    requires u < |Rotated(t, a, s).usage|
    requires Rotated(t, a, s).usage[u].broker == t.assignments[a].broker
    requires Rotated(t, a, s).usage[u].ip == t.assignments[a].ip
    ensures Rotated(t, a, s).usage[u].releasedAt.Some?
  {
    SuccessfulRotationMovesOneBroker(t, a, s);
  }
}
