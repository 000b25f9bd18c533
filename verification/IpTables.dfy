/** The static-IP tables and what each transaction writes to them. */
module IpTables {
  import opened Common

  datatype AssignmentStatus = Active | Draining | Ended

  datatype Assignment = Assignment(client: nat, broker: nat, ip: nat, status: AssignmentStatus, endedAt: Option<int>)

  datatype IpStatus = Allocated | Attached | Detached | Retired | Quarantined

  datatype StaticIp = StaticIp(region: string, status: IpStatus, instance: Option<nat>)

  /** One row of the broker/IP usage history; a row is open until it is released. */
  datatype Usage = Usage(broker: nat, ip: nat, usedAt: int, releasedAt: Option<int>, eligibleAt: Option<int>)

  datatype Event = IpAllocated(ip: nat) | IpReleased(ip: nat) | IpRotated(broker: nat, old_: nat, new_: nat)

  /** `brokers` maps a broker to its client; `instances` says which instances are destroyed. */
  datatype Tables = Tables(
    assignments: seq<Assignment>,
    ips: map<nat, StaticIp>,
    usage: seq<Usage>,
    brokers: map<nat, nat>,
    instances: map<nat, bool>,
    outbox: seq<Event>)

  // ---------------------------------------------------------------------------
  // Reads
  // ---------------------------------------------------------------------------

  /** The reuse policy: no history row of the pair is still cooling down. */
  predicate ReuseAllowed(usage: seq<Usage>, broker: nat, ip: nat, now: int) {
    forall i :: 0 <= i < |usage| && usage[i].broker == broker && usage[i].ip == ip ==>
      usage[i].eligibleAt.None? || usage[i].eligibleAt.value <= now
  }

  /** The first active assignment of a broker. */
  function ActiveOf(assignments: seq<Assignment>, broker: nat, from: nat): (a: Option<nat>)
    ensures a.Some? ==> from <= a.value < |assignments| && assignments[a.value].broker == broker
                        && assignments[a.value].status == Active
    ensures a.None? ==> forall i :: from <= i < |assignments| && assignments[i].broker == broker ==>
                          assignments[i].status != Active
    decreases |assignments| - from
  {
    if from >= |assignments| then None
    else if assignments[from].broker == broker && assignments[from].status == Active then Some(from)
    else ActiveOf(assignments, broker, from + 1)
  }

  predicate ActiveOn(assignments: seq<Assignment>, ip: nat) {
    exists i :: 0 <= i < |assignments| && assignments[i].ip == ip && assignments[i].status == Active
  }

  // ---------------------------------------------------------------------------
  // Writes
  // ---------------------------------------------------------------------------

  /** Add an active assignment with its open usage row. */
  function Activate(t: Tables, client: nat, broker: nat, ip: nat, now: int): Tables {
    t.(assignments := t.assignments + [Assignment(client, broker, ip, Active, None)],
       usage := t.usage + [Usage(broker, ip, now, None, None)])
  }

  /** The commit of `assign`; `seen` is the IP status that the call read. */
  function AssignTx(t: Tables, client: nat, broker: nat, ip: nat, seen: IpStatus, now: int): Tables
    requires ip in t.ips
  {
    var active := Activate(t, client, broker, ip, now);
    if seen == Retired then active.(ips := active.ips[ip := active.ips[ip].(status := Allocated)]) else active
  }

  function AttachTx(t: Tables, ip: nat, instance: nat): Tables
    requires ip in t.ips
  {
    t.(ips := t.ips[ip := t.ips[ip].(status := Attached, instance := Some(instance))])
  }

  function DetachTx(t: Tables, ip: nat): Tables
    requires ip in t.ips
  {
    t.(ips := t.ips[ip := t.ips[ip].(status := Detached, instance := None)])
  }

  function AllocateTx(t: Tables, ip: nat, region: string): Tables {
    t.(ips := t.ips[ip := StaticIp(region, Allocated, None)], outbox := t.outbox + [IpAllocated(ip)])
  }

  /** Stamp the open usage rows of a broker and an IP. */
  function CloseUsage(usage: seq<Usage>, broker: nat, ip: nat, now: int, eligible: int): (u: seq<Usage>)
    ensures |u| == |usage|
  {
    seq(|usage|, i requires 0 <= i < |usage| =>
      if usage[i].broker == broker && usage[i].ip == ip && usage[i].releasedAt.None?
      then usage[i].(releasedAt := Some(now), eligibleAt := Some(eligible)) else usage[i])
  }

  function EndAssignment(assignments: seq<Assignment>, a: nat, now: int): seq<Assignment>
    requires a < |assignments|
  {
    assignments[a := assignments[a].(status := Ended, endedAt := Some(now))]
  }

  /** The active assignments of an IP. */
  function Holding(assignments: seq<Assignment>, ip: nat, from: nat): (picked: seq<nat>)
    ensures InRange(picked, |assignments|)
    decreases |assignments| - from
  {
    if from >= |assignments| then []
    else (if assignments[from].ip == ip && assignments[from].status == Active then [from] else [])
         + Holding(assignments, ip, from + 1)
  }

  /** `picked` lists exactly the active assignments of the IP. */
  ghost predicate Picks(assignments: seq<Assignment>, ip: nat, picked: seq<nat>) {
    && InRange(picked, |assignments|)
    && (forall i :: 0 <= i < |picked| ==> assignments[picked[i]].ip == ip && assignments[picked[i]].status == Active)
    && (forall a :: 0 <= a < |assignments| && assignments[a].ip == ip && assignments[a].status == Active ==> a in picked)
  }

  lemma {:induction false} HoldingFrom(assignments: seq<Assignment>, ip: nat, from: nat)
    ensures var picked := Holding(assignments, ip, from);
            && (forall i :: 0 <= i < |picked| ==> assignments[picked[i]].ip == ip && assignments[picked[i]].status == Active)
            && (forall a :: from <= a < |assignments| && assignments[a].ip == ip && assignments[a].status == Active ==>
                  a in picked)
    decreases |assignments| - from
  {
    if from < |assignments| {
      HoldingFrom(assignments, ip, from + 1);
      var rest, picked := Holding(assignments, ip, from + 1), Holding(assignments, ip, from);
      if assignments[from].ip == ip && assignments[from].status == Active {
        assert picked == [from] + rest;
        forall i | 0 < i < |picked| ensures assignments[picked[i]].ip == ip && assignments[picked[i]].status == Active {
          assert picked[i] == rest[i - 1];
        }
      } else {
        assert picked == rest;
      }
    }
  }

  lemma HoldingPicks(assignments: seq<Assignment>, ip: nat)
    ensures Picks(assignments, ip, Holding(assignments, ip, 0))
  {
    HoldingFrom(assignments, ip, 0);
  }

  /** End the picked assignments one by one, closing each one's usage of the IP. */
  function EndPicked(t: Tables, picked: seq<nat>, ip: nat, now: int, eligible: int): (t': Tables)
    requires InRange(picked, |t.assignments|)
    ensures |t'.assignments| == |t.assignments| && |t'.usage| == |t.usage|
    ensures t' == t.(assignments := t'.assignments, usage := t'.usage)
  {
    if picked == [] then t
    else
      var before := EndPicked(t, picked[..|picked| - 1], ip, now, eligible);
      var a := picked[|picked| - 1];
      before.(assignments := EndAssignment(before.assignments, a, now),
              usage := CloseUsage(before.usage, before.assignments[a].broker, ip, now, eligible))
  }

  /** The commit of `release`. */
  function ReleaseTx(t: Tables, picked: seq<nat>, ip: nat, now: int, cooldown: int): Tables
    requires ip in t.ips && InRange(picked, |t.assignments|)
  {
    var ended := EndPicked(t, picked, ip, now, now + cooldown);
    ended.(ips := ended.ips[ip := ended.ips[ip].(status := Retired)], outbox := ended.outbox + [IpReleased(ip)])
  }

  function DrainTx(t: Tables, a: nat): Tables
    requires a < |t.assignments|
  {
    t.(assignments := t.assignments[a := t.assignments[a].(status := Draining)])
  }

  /** Retire an IP that will not be used; the detach may fail, and then the instance stays noted. */
  function CleanTx(t: Tables, ip: nat, detachFails: bool): Tables
    requires ip in t.ips
  {
    t.(ips := t.ips[ip := t.ips[ip].(status := Retired, instance := if detachFails then t.ips[ip].instance else None)])
  }

  function AbortTx(t: Tables, a: nat, new_: nat, detachFails: bool): Tables
    requires a < |t.assignments| && new_ in t.ips
  {
    var cleaned := CleanTx(t, new_, detachFails);
    cleaned.(assignments := cleaned.assignments[a := cleaned.assignments[a].(status := Active)])
  }

  /** End the old assignment, close its usage, retire its IP, and activate the new one. */
  function CutoverTx(t: Tables, a: nat, new_: nat, now: int, cooldown: int): Tables
    requires a < |t.assignments| && t.assignments[a].ip in t.ips
  {
    var old_, broker := t.assignments[a].ip, t.assignments[a].broker;
    var ip := t.ips[old_];
    var ended := t.(assignments := EndAssignment(t.assignments, a, now),
                    usage := CloseUsage(t.usage, broker, old_, now, now + cooldown),
                    ips := t.ips[old_ := ip.(status := Retired, instance := if ip.status == Attached then None else ip.instance)]);
    var active := Activate(ended, t.assignments[a].client, broker, new_, now);
    active.(outbox := active.outbox + [IpRotated(broker, old_, new_)])
  }

  // ---------------------------------------------------------------------------
  // What the release loop amounts to
  // ---------------------------------------------------------------------------

  /** Ending the picked assignments ends exactly those. */
  lemma {:induction false} EndsPickedAssignments(t: Tables, picked: seq<nat>, ip: nat, now: int, eligible: int, a: nat)
    requires InRange(picked, |t.assignments|)
    requires a < |t.assignments|
    ensures EndPicked(t, picked, ip, now, eligible).assignments[a]
            == if a in picked then t.assignments[a].(status := Ended, endedAt := Some(now)) else t.assignments[a]
  {
    if picked != [] {
      var init, last := picked[..|picked| - 1], picked[|picked| - 1];
      EndsPickedAssignments(t, init, ip, now, eligible, a);
      assert a in picked <==> a in init || a == last;
    }
  }

  /** ... and closes exactly the open usage of that IP by their brokers. */
  lemma {:induction false} ClosesPickedUsage(t: Tables, picked: seq<nat>, ip: nat, now: int, eligible: int, u: nat)
    requires InRange(picked, |t.assignments|)
    requires u < |t.usage|
    ensures EndPicked(t, picked, ip, now, eligible).usage[u]
            == if t.usage[u].ip == ip && t.usage[u].releasedAt.None? && PickedBroker(t.assignments, picked, t.usage[u].broker)
               then t.usage[u].(releasedAt := Some(now), eligibleAt := Some(eligible))
               else t.usage[u]
  {
    if picked != [] {
      var init, last := picked[..|picked| - 1], picked[|picked| - 1];
      ClosesPickedUsage(t, init, ip, now, eligible, u);
      EndsPickedAssignments(t, init, ip, now, eligible, last);
      PickedOneMore(t.assignments, picked, t.usage[u].broker);
    }
  }

  predicate PickedBroker(assignments: seq<Assignment>, picked: seq<nat>, broker: nat) {
    exists i :: 0 <= i < |picked| && picked[i] < |assignments| && assignments[picked[i]].broker == broker
  }

  lemma PickedOneMore(assignments: seq<Assignment>, picked: seq<nat>, broker: nat)
    requires picked != [] && InRange(picked, |assignments|)
    ensures PickedBroker(assignments, picked, broker)
            <==> PickedBroker(assignments, picked[..|picked| - 1], broker)
                 || assignments[picked[|picked| - 1]].broker == broker
  {
    var init := picked[..|picked| - 1];
    if i :| 0 <= i < |picked| && assignments[picked[i]].broker == broker {
      if i < |init| {
        assert init[i] == picked[i];
      }
    }
    if i :| 0 <= i < |init| && assignments[init[i]].broker == broker {
      assert picked[i] == init[i];
    }
  }
}
