/** The reuse cooldown over whole runs of assign, attach, detach, release and rotate. */
module Cooldown {
  import opened Common
  import opened IpTables
  import opened IpService
  import opened UsageHistory

  datatype State = State(tables: Tables, freed: seq<Freed>)

  datatype Op =
    | AssignOp(broker: nat, ip: nat, client: Option<nat>, now: int)
    | AttachOp(ip: nat, instance: nat)
    | DetachOp(ip: nat)
    | ReleaseOp(ip: nat, now: int, cooldown: int, deleteFails: bool)
    | RotateOp(broker: nat, script: Script)
    | AllocateOp(ip: nat, region: string)

  /** The pairs that ending the picked assignments frees. */
  function FreedBy(assignments: seq<Assignment>, picked: seq<nat>, until: int): seq<Freed>
    requires InRange(picked, |assignments|)
  {
    seq(|picked|, i requires 0 <= i < |picked| => Freed(assignments[picked[i]].broker, assignments[picked[i]].ip, until))
  }

  function Step(s: State, op: Op): State {
    var t := s.tables;
    match op
    case AssignOp(broker, ip, client, now) => s.(tables := Assigned(t, broker, ip, client, now))
    case AttachOp(ip, instance) => if ip in t.ips then s.(tables := AttachTx(t, ip, instance)) else s
    case DetachOp(ip) => if ip in t.ips then s.(tables := DetachTx(t, ip)) else s
    case AllocateOp(ip, region) => if ip in t.ips then s else s.(tables := AllocateTx(t, ip, region))
    case ReleaseOp(ip, now, cooldown, deleteFails) =>
      if ReleaseCheck(t, ip, deleteFails).Some? then s
      else
        State(Released(t, ip, now, cooldown, deleteFails),
              s.freed + FreedBy(t.assignments, Holding(t.assignments, ip, 0), now + cooldown))
    case RotateOp(broker, script) =>
      var a := ActiveOf(t.assignments, broker, 0);
      if a.None? || t.assignments[a.value].ip !in t.ips || (!script.Refused? && script.new_ in t.ips) then s
      else
        State(Rotated(t, a.value, script),
              if script.CutOver?
              then s.freed + [Freed(broker, t.assignments[a.value].ip, script.now + script.cooldown)] else s.freed)
  }

  function Run(init: Tables, ops: seq<Op>): State {
    if ops == [] then State(init, []) else Step(Run(init, ops[..|ops| - 1]), ops[|ops| - 1])
  }

  /** Every active assignment has an open usage row. */
  ghost predicate TracksUse(t: Tables) {
    forall a :: 0 <= a < |t.assignments| && t.assignments[a].status == Active ==>
      OpenUsage(t.usage, t.assignments[a].broker, t.assignments[a].ip)
  }

  ghost predicate Remembers(s: State) {
    forall i :: 0 <= i < |s.freed| ==> Waits(s.tables.usage, s.freed[i]) && s.freed[i].ip in s.tables.ips
  }

  ghost predicate Inv(s: State) {
    Refers(s.tables) && OneActive(s.tables) && TracksUse(s.tables) && Remembers(s)
  }

  // ---------------------------------------------------------------------------
  // Every operation keeps the invariant
  // ---------------------------------------------------------------------------

  lemma ActivateKeeps(s: State, t': Tables, client: nat, broker: nat, ip: nat, now: int)
    requires Inv(s) && ip in s.tables.ips && ActiveOf(s.tables.assignments, broker, 0).None?
    requires t'.assignments == s.tables.assignments + [Assignment(client, broker, ip, Active, None)]
    requires t'.usage == s.tables.usage + [Usage(broker, ip, now, None, None)]
    requires t'.ips.Keys == s.tables.ips.Keys
    ensures Inv(s.(tables := t'))
  {
    var t := s.tables;
    assert Extends(t.usage, t'.usage);
    forall i | 0 <= i < |s.freed|
      ensures Waits(t'.usage, s.freed[i])
    {
      WaitsStays(t.usage, t'.usage, s.freed[i]);
    }
    forall a | 0 <= a < |t'.assignments| && t'.assignments[a].status == Active
      ensures OpenUsage(t'.usage, t'.assignments[a].broker, t'.assignments[a].ip)
    {
      if a < |t.assignments| {
        OpenStays(t.usage, t'.usage, t.assignments[a].broker, t.assignments[a].ip);
      } else {
        assert t'.usage[|t.usage|].releasedAt.None?;
      }
    }
  }

  /** An assignment that a release leaves active is of another IP, and its usage row stays open. */
  lemma UnreleasedStaysOpen(t: Tables, picked: seq<nat>, ip: nat, now: int, cooldown: int, a: nat)
    requires ip in t.ips && TracksUse(t) && a < |t.assignments| && Picks(t.assignments, ip, picked)
    requires ReleaseTx(t, picked, ip, now, cooldown).assignments[a].status == Active
    ensures ReleaseTx(t, picked, ip, now, cooldown).assignments[a] == t.assignments[a]
    ensures OpenUsage(ReleaseTx(t, picked, ip, now, cooldown).usage, t.assignments[a].broker, t.assignments[a].ip)
  {
    EndsPickedAssignments(t, picked, ip, now, now + cooldown, a);
    var u :| 0 <= u < |t.usage| && t.usage[u].broker == t.assignments[a].broker
             && t.usage[u].ip == t.assignments[a].ip && t.usage[u].releasedAt.None?;
    ClosesPickedUsage(t, picked, ip, now, now + cooldown, u);
  }

  /** Releasing an active assignment leaves a closed row that carries the cooldown. */
  lemma ReleasedWaits(t: Tables, picked: seq<nat>, ip: nat, now: int, cooldown: int, i: nat)
    requires ip in t.ips && TracksUse(t) && Picks(t.assignments, ip, picked) && i < |picked|
    ensures Waits(ReleaseTx(t, picked, ip, now, cooldown).usage, Freed(t.assignments[picked[i]].broker, ip, now + cooldown))
  {
    var broker := t.assignments[picked[i]].broker;
    assert OpenUsage(t.usage, broker, ip);
    var u :| 0 <= u < |t.usage| && t.usage[u].broker == broker && t.usage[u].ip == ip && t.usage[u].releasedAt.None?;
    assert PickedBroker(t.assignments, picked, broker);
    ClosesPickedUsage(t, picked, ip, now, now + cooldown, u);
  }

  lemma OneActiveStays(t: Tables, picked: seq<nat>, ip: nat, now: int, cooldown: int)
    requires ip in t.ips && InRange(picked, |t.assignments|) && OneActive(t) && Refers(t)
    ensures OneActive(ReleaseTx(t, picked, ip, now, cooldown)) && Refers(ReleaseTx(t, picked, ip, now, cooldown))
  {
    var t' := ReleaseTx(t, picked, ip, now, cooldown);
    forall a | 0 <= a < |t.assignments|
      ensures t'.assignments[a].ip == t.assignments[a].ip && t'.assignments[a].broker == t.assignments[a].broker
      ensures t'.assignments[a].status == Active ==> t.assignments[a].status == Active
    {
      EndsPickedAssignments(t, picked, ip, now, now + cooldown, a);
    }
    ReleaseExtends(t, picked, ip, now, cooldown);
  }

  lemma ReleaseTracks(t: Tables, picked: seq<nat>, ip: nat, now: int, cooldown: int)
    requires ip in t.ips && TracksUse(t) && Picks(t.assignments, ip, picked)
    ensures TracksUse(ReleaseTx(t, picked, ip, now, cooldown))
  {
    var t' := ReleaseTx(t, picked, ip, now, cooldown);
    forall a | 0 <= a < |t'.assignments| && t'.assignments[a].status == Active
      ensures OpenUsage(t'.usage, t'.assignments[a].broker, t'.assignments[a].ip)
    {
      UnreleasedStaysOpen(t, picked, ip, now, cooldown, a);
    }
  }

  lemma ReleaseKeeps(s: State, ip: nat, now: int, cooldown: int)
    requires Inv(s) && ReleaseCheck(s.tables, ip, false).None?
    ensures Inv(Step(s, ReleaseOp(ip, now, cooldown, false)))
  {
    var t, picked := s.tables, Holding(s.tables.assignments, ip, 0);
    var t' := ReleaseTx(t, picked, ip, now, cooldown);
    var freed := s.freed + FreedBy(t.assignments, picked, now + cooldown);
    HoldingPicks(t.assignments, ip);
    OneActiveStays(t, picked, ip, now, cooldown);
    ReleaseTracks(t, picked, ip, now, cooldown);
    ReleaseExtends(t, picked, ip, now, cooldown);
    forall i | 0 <= i < |freed|
      ensures Waits(t'.usage, freed[i]) && freed[i].ip in t'.ips
    {
      if i < |s.freed| {
        WaitsStays(t.usage, t'.usage, s.freed[i]);
      } else {
        ReleasedWaits(t, picked, ip, now, cooldown, i - |s.freed|);
      }
    }
  }

  /** What a cutover does to the usage rows of the old pair and of every other. */
  lemma CutoverUsage(t: Tables, a: nat, script: Script)
    requires Refers(t) && OneActive(t) && TracksUse(t) && script.CutOver? && script.new_ !in t.ips
    requires a < |t.assignments| && t.assignments[a].status == Active
    ensures Extends(t.usage, Rotated(t, a, script).usage)
    ensures Waits(Rotated(t, a, script).usage,
                  Freed(t.assignments[a].broker, t.assignments[a].ip, script.now + script.cooldown))
  {
    var broker, old_ := t.assignments[a].broker, t.assignments[a].ip;
    SuccessfulRotationMovesOneBroker(t, a, script);
    StampingExtends(t.usage, broker, old_, script.now, script.now + script.cooldown,
                    Usage(broker, script.new_, script.now, None, None));
    assert OpenUsage(t.usage, broker, old_);
  }

  lemma CutoverTracks(t: Tables, a: nat, script: Script)
    requires Refers(t) && OneActive(t) && TracksUse(t) && script.CutOver? && script.new_ !in t.ips
    requires a < |t.assignments| && t.assignments[a].status == Active
    ensures TracksUse(Rotated(t, a, script))
  {
    var t' := Rotated(t, a, script);
    var broker := t.assignments[a].broker;
    SuccessfulRotationMovesOneBroker(t, a, script);
    forall b | 0 <= b < |t'.assignments| && t'.assignments[b].status == Active
      ensures OpenUsage(t'.usage, t'.assignments[b].broker, t'.assignments[b].ip)
    {
      if b < |t.assignments| {
        assert t'.assignments[b] == t.assignments[b] && t.assignments[b].broker != broker;
        OpenStays(t.usage, t'.usage, t.assignments[b].broker, t.assignments[b].ip);
      } else {
        assert t'.usage[|t.usage|].releasedAt.None?;
      }
    }
  }

  lemma CutoverKeeps(s: State, a: nat, script: Script)
    requires Inv(s) && script.CutOver? && script.new_ !in s.tables.ips
    requires a < |s.tables.assignments| && s.tables.assignments[a].status == Active
    ensures Inv(State(Rotated(s.tables, a, script),
                      s.freed + [Freed(s.tables.assignments[a].broker, s.tables.assignments[a].ip, script.now + script.cooldown)]))
  {
    var t, t' := s.tables, Rotated(s.tables, a, script);
    SuccessfulRotationMovesOneBroker(t, a, script);
    CutoverUsage(t, a, script);
    CutoverTracks(t, a, script);
    forall i | 0 <= i < |s.freed|
      ensures Waits(t'.usage, s.freed[i]) && s.freed[i].ip in t'.ips
    {
      WaitsStays(t.usage, t'.usage, s.freed[i]);
    }
  }

  /** The invariant does not look at the details of IP rows. */
  lemma IpWritesKeep(s: State, t': Tables)
    requires Inv(s) && t'.assignments == s.tables.assignments && t'.usage == s.tables.usage
    requires s.tables.ips.Keys <= t'.ips.Keys
    ensures Inv(s.(tables := t'))
  {
  }

  lemma RotateKeeps(s: State, broker: nat, script: Script)
    requires Inv(s)
    ensures Inv(Step(s, RotateOp(broker, script)))
  {
    var t := s.tables;
    var a := ActiveOf(t.assignments, broker, 0);
    if a.Some? && (script.Refused? || script.new_ !in t.ips) {
      if script.CutOver? {
        CutoverKeeps(s, a.value, script);
      } else {
        FailedRotationChangesNothing(t, a.value, script);
        IpWritesKeep(s, Rotated(t, a.value, script));
      }
    }
  }

  lemma {:induction false} StepKeeps(s: State, op: Op)
    requires Inv(s)
    ensures Inv(Step(s, op))
  {
    var t := s.tables;
    match op
    case AssignOp(broker, ip, client, now) =>
      if AssignCheck(t, broker, ip, now).None? {
        ActivateKeeps(s, Assigned(t, broker, ip, client, now),
                      if client.Some? then client.value else t.brokers[broker], broker, ip, now);
      }
    case AttachOp(ip, instance) => IpWritesKeep(s, Step(s, op).tables);
    case DetachOp(ip) => IpWritesKeep(s, Step(s, op).tables);
    case AllocateOp(ip, region) => IpWritesKeep(s, Step(s, op).tables);
    case ReleaseOp(ip, now, cooldown, deleteFails) =>
      if ReleaseCheck(t, ip, deleteFails).None? {
        ReleaseKeeps(s, ip, now, cooldown);
      }
    case RotateOp(broker, script) => RotateKeeps(s, broker, script);
  }

  lemma {:induction false} InvHolds(init: Tables, ops: seq<Op>)
    requires Inv(State(init, []))
    ensures Inv(Run(init, ops))
  {
    if ops != [] {
      InvHolds(init, ops[..|ops| - 1]);
      StepKeeps(Run(init, ops[..|ops| - 1]), ops[|ops| - 1]);
    }
  }

  // ---------------------------------------------------------------------------
  // The policy
  // ---------------------------------------------------------------------------

  /** The operation adds an active assignment of `broker` to `ip`. */
  ghost predicate Activates(s: State, op: Op, broker: nat, ip: nat) {
    && |s.tables.assignments| < |Step(s, op).tables.assignments|
    && Step(s, op).tables.assignments[|s.tables.assignments|].status == Active
    && Step(s, op).tables.assignments[|s.tables.assignments|].broker == broker
    && Step(s, op).tables.assignments[|s.tables.assignments|].ip == ip
  }

  /** The clock of an assign or a cutover; the other operations activate nothing. */
  function TimeOf(op: Op): int {
    if op.AssignOp? then op.now else if op.RotateOp? && op.script.CutOver? then op.script.now else 0
  }

  /** Over any run, no broker gets an IP again before the cooldown that was in force at any of its
      releases of that IP has elapsed. */
  lemma NoReuseBeforeCooldown(init: Tables, ops: seq<Op>, op: Op, broker: nat, ip: nat, i: nat)
    requires Inv(State(init, []))
    requires Activates(Run(init, ops), op, broker, ip)
    requires i < |Run(init, ops).freed|
    requires Run(init, ops).freed[i].broker == broker && Run(init, ops).freed[i].ip == ip
    ensures (op.AssignOp? || (op.RotateOp? && op.script.CutOver?)) && Run(init, ops).freed[i].until <= TimeOf(op)
  {
    var s := Run(init, ops);
    InvHolds(init, ops);
    var t, f := s.tables, s.freed[i];
    assert Waits(t.usage, f) && f.ip in t.ips;
    match op
    case AssignOp(b, p, client, at) =>
      var u :| 0 <= u < |t.usage| && t.usage[u].broker == broker && t.usage[u].ip == ip
               && t.usage[u].releasedAt.Some? && t.usage[u].eligibleAt == Some(f.until);
      assert AssignCheck(t, b, p, at).None?;
    case RotateOp(b, script) =>
      var a := ActiveOf(t.assignments, b, 0);
      if !script.CutOver? {
        FailedRotationChangesNothing(t, a.value, script);
      } else {
        SuccessfulRotationMovesOneBroker(t, a.value, script);
      }
    case ReleaseOp(p, at, cooldown, fails) =>
    case AttachOp(p, instance) =>
    case DetachOp(p) =>
    case AllocateOp(p, region) =>
  }

  /** Everyone who stops holding an IP is on record with the cooldown in force: a release frees each
      broker that held the IP ... */
  lemma ReleaseIsOnRecord(s: State, ip: nat, now: int, cooldown: int, a: nat)
    requires ReleaseCheck(s.tables, ip, false).None? && a < |s.tables.assignments|
    requires s.tables.assignments[a].status == Active
    ensures var s' := Step(s, ReleaseOp(ip, now, cooldown, false));
            s'.tables.assignments[a].status != Active
            ==> Freed(s.tables.assignments[a].broker, s.tables.assignments[a].ip, now + cooldown) in s'.freed
  {
    var picked := Holding(s.tables.assignments, ip, 0);
    EndsPickedAssignments(s.tables, picked, ip, now, now + cooldown, a);
    if a in picked {
      var i :| 0 <= i < |picked| && picked[i] == a;
      assert Step(s, ReleaseOp(ip, now, cooldown, false)).freed[|s.freed| + i]
             == Freed(s.tables.assignments[a].broker, s.tables.assignments[a].ip, now + cooldown);
    }
  }

  /** ... a cutover the broker that was rotated, and no other operation ends an assignment. */
  lemma OnlyReleaseAndCutoverEnd(s: State, op: Op, a: nat)
    requires Inv(s) && !op.ReleaseOp? && a < |s.tables.assignments| && s.tables.assignments[a].status == Active
    ensures a < |Step(s, op).tables.assignments|
    ensures Step(s, op).tables.assignments[a].status != Active ==>
              op.RotateOp? && op.script.CutOver?
              && Freed(s.tables.assignments[a].broker, s.tables.assignments[a].ip, op.script.now + op.script.cooldown)
                 in Step(s, op).freed
  {
    if op.RotateOp? {
      var o := ActiveOf(s.tables.assignments, op.broker, 0);
      if o.Some? && (op.script.Refused? || op.script.new_ !in s.tables.ips) {
        if op.script.CutOver? {
          CutoverEnds(s, op, o.value, a);
        } else {
          FailedRotationChangesNothing(s.tables, o.value, op.script);
        }
      }
    }
  }

  lemma CutoverEnds(s: State, op: Op, o: nat, a: nat)
    requires Inv(s) && op.RotateOp? && op.script.CutOver? && op.script.new_ !in s.tables.ips
    requires ActiveOf(s.tables.assignments, op.broker, 0) == Some(o)
    requires a < |s.tables.assignments| && s.tables.assignments[a].status == Active
    ensures a < |Step(s, op).tables.assignments|
    ensures Step(s, op).tables.assignments[a].status != Active ==>
              Freed(s.tables.assignments[a].broker, s.tables.assignments[a].ip, op.script.now + op.script.cooldown)
              in Step(s, op).freed
  {
    SuccessfulRotationMovesOneBroker(s.tables, o, op.script);
    assert Step(s, op).freed[|s.freed|].ip == s.tables.assignments[o].ip;
  }
}
