/** What assign, attach, detach and release answer and leave, told by the rows that they find. */
module IpReplies {
  import opened Common
  import opened IpTables
  import opened IpService
  import opened IpManager

  // ---------------------------------------------------------------------------
  // Assign
  // ---------------------------------------------------------------------------

  /** No row of the pair's history is still cooling down. */
  predicate Cooled(usage: seq<Usage>, broker: nat, ip: nat, now: int) {
    forall u :: 0 <= u < |usage| && usage[u].broker == broker && usage[u].ip == ip && usage[u].eligibleAt.Some? ==>
      usage[u].eligibleAt.value <= now
  }

  predicate Unassigned(assignments: seq<Assignment>, broker: nat) {
    forall a :: 0 <= a < |assignments| && assignments[a].broker == broker ==> assignments[a].status != Active
  }

  predicate Assignable(t: Tables, ip: nat) {
    ip in t.ips && t.ips[ip].status in {Allocated, Detached, Retired}
  }

  /** Each answer of an assignment whose locks are free. */
  lemma AssignAnswers(t: Tables, broker: nat, ip: nat, now: int)
    ensures var r := Reply(AssignCheck(t, broker, ip, now));
            var known := Assignable(t, ip) && broker in t.brokers;
            && (r == Ok(()) <==> known && Cooled(t.usage, broker, ip, now) && Unassigned(t.assignments, broker))
            && (r == Err(AssignmentConflict) <==> known && Cooled(t.usage, broker, ip, now) && !Unassigned(t.assignments, broker))
            && (r == Err(ReusePolicy) <==> known && !Cooled(t.usage, broker, ip, now))
            && (r == Err(InvalidState) <==> ip in t.ips && t.ips[ip].status in {Attached, Quarantined})
            && (r == Err(NotFound) <==> ip !in t.ips || (Assignable(t, ip) && broker !in t.brokers))
  {
  }

  /** A successful assignment adds one active row and one open usage row, and revives a retired IP. */
  lemma AssignWrites(t: Tables, broker: nat, ip: nat, client: Option<nat>, now: int)
    ensures var t' := Assigned(t, broker, ip, client, now);
            if Reply(AssignCheck(t, broker, ip, now)) != Ok(()) then t' == t
            else
              && t'.assignments == t.assignments
                                   + [Assignment(if client.Some? then client.value else t.brokers[broker], broker, ip, Active, None)]
              && t'.usage == t.usage + [Usage(broker, ip, now, None, None)]
              && t'.ips == t.ips[ip := StaticIp(t.ips[ip].region,
                                                if t.ips[ip].status == Detached then Detached else Allocated, t.ips[ip].instance)]
              && t'.brokers == t.brokers && t'.instances == t.instances && t'.outbox == t.outbox
  {
    if AssignCheck(t, broker, ip, now).None? {
      assert Assignable(t, ip);
      if t.ips[ip].status != Retired {
        assert t.ips == t.ips[ip := t.ips[ip]];
      }
    }
  }

  // ---------------------------------------------------------------------------
  // Attach and detach
  // ---------------------------------------------------------------------------

  lemma AttachAnswers(t: Tables, ip: nat, instance: nat, fails: bool)
    ensures var r := Reply(AttachCheck(t, ip, instance, fails));
            && (r == Ok(()) <==> ip in t.ips && instance in t.instances && !t.instances[instance] && !fails)
            && (r == Err(NotFound) <==> ip !in t.ips || instance !in t.instances)
            && (r == Err(InvalidState) <==> ip in t.ips && instance in t.instances && t.instances[instance])
    ensures var r := Reply(DetachCheck(t, ip, fails));
            (r == Ok(()) <==> ip in t.ips && !fails) && (r == Err(NotFound) <==> ip !in t.ips)
  {
  }

  /** Attaching and then detaching leaves the IP detached from every instance, and nothing else changed. */
  lemma AttachWrites(t: Tables, ip: nat, instance: nat)
    requires ip in t.ips
    ensures AttachTx(t, ip, instance) == t.(ips := t.ips[ip := StaticIp(t.ips[ip].region, Attached, Some(instance))])
    ensures DetachTx(t, ip) == t.(ips := t.ips[ip := StaticIp(t.ips[ip].region, Detached, None)])
    ensures DetachTx(AttachTx(t, ip, instance), ip) == DetachTx(t, ip)
  {
    assert AttachTx(t, ip, instance).ips[ip := DetachTx(t, ip).ips[ip]] == t.ips[ip := DetachTx(t, ip).ips[ip]];
  }

  // ---------------------------------------------------------------------------
  // Release
  // ---------------------------------------------------------------------------

  lemma ReleaseAnswers(t: Tables, ip: nat, deleteFails: bool)
    ensures var r := Reply(ReleaseCheck(t, ip, deleteFails));
            && (r == Ok(()) <==> ip in t.ips && t.ips[ip].status != Attached && !deleteFails)
            && (r == Err(NotFound) <==> ip !in t.ips)
            && (r == Err(InvalidState) <==> ip in t.ips && t.ips[ip].status == Attached)
  {
  }

  /** Row a is an active assignment of the IP. */
  predicate HoldsIp(assignments: seq<Assignment>, a: nat, ip: nat) {
    a < |assignments| && assignments[a].ip == ip && assignments[a].status == Active
  }

  /** A successful release ends every active assignment of the IP and closes the open usage rows of the IP by
      their brokers, with the cooldown; every other row stays. */
  lemma ReleaseWrites(t: Tables, ip: nat, now: int, cooldown: int, deleteFails: bool)
    ensures var t' := Released(t, ip, now, cooldown, deleteFails);
            if Reply(ReleaseCheck(t, ip, deleteFails)) != Ok(()) then t' == t
            else
              && |t'.assignments| == |t.assignments| && |t'.usage| == |t.usage|
              && (forall a: nat :: a < |t.assignments| ==>
                    t'.assignments[a] == if HoldsIp(t.assignments, a, ip)
                                         then t.assignments[a].(status := Ended, endedAt := Some(now)) else t.assignments[a])
              && (forall u: nat :: u < |t.usage| ==>
                    t'.usage[u] == if t.usage[u].ip == ip && t.usage[u].releasedAt.None?
                                      && exists a: nat :: HoldsIp(t.assignments, a, ip) && t.assignments[a].broker == t.usage[u].broker
                                   then t.usage[u].(releasedAt := Some(now), eligibleAt := Some(now + cooldown)) else t.usage[u])
              && t'.ips == t.ips[ip := t.ips[ip].(status := Retired)]
              && t'.brokers == t.brokers && t'.instances == t.instances && t'.outbox == t.outbox + [IpReleased(ip)]
  {
    if ReleaseCheck(t, ip, deleteFails).None? {
      var picked := Holding(t.assignments, ip, 0);
      HoldingPicks(t.assignments, ip);
      forall a: nat | a < |t.assignments|
        ensures a in picked <==> HoldsIp(t.assignments, a, ip)
        ensures EndPicked(t, picked, ip, now, now + cooldown).assignments[a]
                == if a in picked then t.assignments[a].(status := Ended, endedAt := Some(now)) else t.assignments[a]
      {
        EndsPickedAssignments(t, picked, ip, now, now + cooldown, a);
      }
      forall u: nat | u < |t.usage|
        ensures EndPicked(t, picked, ip, now, now + cooldown).usage[u]
                == if t.usage[u].ip == ip && t.usage[u].releasedAt.None?
                      && exists a: nat :: HoldsIp(t.assignments, a, ip) && t.assignments[a].broker == t.usage[u].broker
                   then t.usage[u].(releasedAt := Some(now), eligibleAt := Some(now + cooldown)) else t.usage[u]
      {
        ClosesPickedUsage(t, picked, ip, now, now + cooldown, u);
        PickedHolds(t.assignments, ip, t.usage[u].broker);
      }
    }
  }

  lemma PickedHolds(assignments: seq<Assignment>, ip: nat, broker: nat)
    ensures PickedBroker(assignments, Holding(assignments, ip, 0), broker)
            <==> exists a: nat :: HoldsIp(assignments, a, ip) && assignments[a].broker == broker
  {
    var picked := Holding(assignments, ip, 0);
    HoldingPicks(assignments, ip);
    if i :| 0 <= i < |picked| && assignments[picked[i]].broker == broker {
      assert HoldsIp(assignments, picked[i], ip);
    }
    if a: nat :| HoldsIp(assignments, a, ip) && assignments[a].broker == broker {
      assert a in picked;
    }
  }
}
