/** When a release may overlap a rotation. A release picks the assignments that it will end and commits
    later. If it has picked an assignment that a rotation is working on, the rotation can bring that
    assignment back; if that never happens, an ended assignment stays ended and every live one keeps an
    open usage row, in every interleaving. */
module IpOverlap {
  import opened Common
  import opened IpTables
  import opened Locks
  import opened IpProtocol
  import opened IpSafety
  import opened UsageHistory

  // ---------------------------------------------------------------------------
  // How an ended assignment comes back
  // ---------------------------------------------------------------------------

  predicate IsEnded(t: Tables, i: nat) {
    i < |t.assignments| && t.assignments[i].status == Ended
  }

  /** The step marks assignment i draining, or aborts the rotation that drains it. */
  predicate Revives(s: State, act: Action, i: nat) {
    && act.Advance? && act.call in s.calls
    && var pc := s.calls[act.call];
       || (pc.OReady? && pc.plan.a == i)
       || (pc.OLate? && pc.plan.a == i && !pc.plan.force && !act.choice.forcePolicy)
  }

  lemma CutoverRevives(s: State, c: nat, ch: Choice, i: nat)
    requires Inv(s) && c in s.calls && InCutover(s.calls[c]) && IsEnded(s.tables, i)
    ensures var e := CutoverEffect(s.tables, s.orders, s.calls[c], ch);
            e.Move? ==> (!IsEnded(e.tables, i) <==> Revives(s, Advance(c, ch), i))
    ensures !CutoverEffect(s.tables, s.orders, s.calls[c], ch).Move? ==> !Revives(s, Advance(c, ch), i)
  {
    assert CallInv(s.tables, s.calls[c]);
  }

  lemma OthersNeverRevive(s: State, c: nat, ch: Choice, i: nat)
    requires Inv(s) && c in s.calls && !InCutover(s.calls[c]) && IsEnded(s.tables, i)
    ensures EffectOf(s, s.calls[c], ch).Move? ==> IsEnded(EffectOf(s, s.calls[c], ch).tables, i)
  {
    var pc, t := s.calls[c], s.tables;
    assert CallInv(t, pc);
    if InAssign(pc) {
    } else if InRelease(pc) {
      if pc.RPicked? && ch.ok && pc.ip in t.ips {
        EndsPickedAssignments(t, pc.picked, pc.ip, pc.now, pc.now + pc.cooldown, i);
      }
    } else {
      assert InPrepare(pc);
    }
  }

  /** In every state of every interleaving, a step makes an ended assignment live again exactly when a
      rotation that works on it marks it draining, or gives up without being forced. */
  lemma EndedReturnsIff(s: State, act: Action, i: nat)
    requires Inv(s) && IsEnded(s.tables, i)
    ensures !IsEnded(Step(s, act).tables, i) <==> Revives(s, act, i)
  {
    if act.Advance? && act.call in s.calls {
      AdvanceRevives(s, act.call, act.choice, i);
    } else {
      assert Step(s, act).tables == s.tables;
    }
  }

  lemma AdvanceRevives(s: State, c: nat, ch: Choice, i: nat)
    requires Inv(s) && IsEnded(s.tables, i) && c in s.calls
    ensures !IsEnded(Apply(s, c, EffectOf(s, s.calls[c], ch)).tables, i) <==> Revives(s, Advance(c, ch), i)
  {
    var pc := s.calls[c];
    var e := EffectOf(s, pc, ch);
    AppliedTables(s, c, e);
    if InCutover(pc) {
      CutoverRevives(s, c, ch, i);
      assert e == CutoverEffect(s.tables, s.orders, pc, ch);
    } else {
      OthersNeverRevive(s, c, ch, i);
      assert !Revives(s, Advance(c, ch), i);
    }
  }

  lemma AppliedTables(s: State, c: nat, e: Effect)
    ensures Apply(s, c, e).tables == if e.Move? then e.tables else s.tables
  {
  }

  // ---------------------------------------------------------------------------
  // Without overlap
  // ---------------------------------------------------------------------------

  /** No release that has picked works on the IP that a rotation is taking away. */
  ghost predicate NoOverlap(s: State) {
    forall c, d :: c in s.calls && d in s.calls && HasPlan(s.calls[c]) && s.calls[d].RPicked? ==>
      s.calls[d].ip != PlanOf(s.calls[c]).old_
  }

  ghost predicate NeverOverlaps(s: State, acts: seq<Action>)
    decreases |acts|
  {
    NoOverlap(s) && (acts != [] ==> NeverOverlaps(Step(s, acts[0]), acts[1..]))
  }

  /** Every live assignment has an open usage row. */
  ghost predicate LiveTracked(t: Tables) {
    forall i :: 0 <= i < |t.assignments| && IpSafety.Live(t.assignments[i]) ==>
      OpenUsage(t.usage, t.assignments[i].broker, t.assignments[i].ip)
  }

  /** The assignment that a rotation works on is live. */
  ghost predicate Settled(t: Tables, pc: Pc) {
    HasPlan(pc) ==>
      PlanOf(pc).a < |t.assignments|
      && t.assignments[PlanOf(pc).a].status == (if InDrain(pc) then Draining else Active)
  }

  /** What a release has picked is still active. */
  ghost predicate PickedStill(t: Tables, pc: Pc) {
    pc.RPicked? ==> forall k :: 0 <= k < |pc.picked| ==>
      pc.picked[k] < |t.assignments| && t.assignments[pc.picked[k]].status == Active
      && t.assignments[pc.picked[k]].ip == pc.ip
  }

  ghost predicate Calm(s: State) {
    && Inv(s) && LiveTracked(s.tables)
    && (forall c :: c in s.calls ==> Settled(s.tables, s.calls[c]))
    && (forall c :: c in s.calls ==> PickedStill(s.tables, s.calls[c]))
  }

  /** A call changes only the assignments that it picked or that it rotates. */
  predicate MayChange(pc: Pc, i: nat) {
    (pc.RPicked? && i in pc.picked) || (HasPlan(pc) && PlanOf(pc).a == i)
  }

  ghost predicate ChangesOwn(t: Tables, pc: Pc, t': Tables) {
    && |t.assignments| <= |t'.assignments|
    && forall i :: 0 <= i < |t.assignments| ==> t'.assignments[i] == t.assignments[i] || MayChange(pc, i)
  }

  lemma EffectChangesOwn(s: State, c: nat, ch: Choice)
    requires Inv(s) && c in s.calls && EffectOf(s, s.calls[c], ch).Move?
    ensures ChangesOwn(s.tables, s.calls[c], EffectOf(s, s.calls[c], ch).tables)
  {
    var pc, t := s.calls[c], s.tables;
    assert CallInv(t, pc);
    if InRelease(pc) {
      if pc.RPicked? && ch.ok && pc.ip in t.ips {
        forall i: nat | i < |t.assignments|
          ensures ReleaseTx(t, pc.picked, pc.ip, pc.now, pc.cooldown).assignments[i] == t.assignments[i] || i in pc.picked
        {
          EndsPickedAssignments(t, pc.picked, pc.ip, pc.now, pc.now + pc.cooldown, i);
        }
      }
    } else if InAssign(pc) || InPrepare(pc) {
    } else {
      CutoverChangesOwn(t, s.orders, pc, ch);
    }
  }

  lemma CutoverChangesOwn(t: Tables, orders: map<nat, Order>, pc: Pc, ch: Choice)
    requires InCutover(pc) && CutoverEffect(t, orders, pc, ch).Move? && CallInv(t, pc)
    ensures ChangesOwn(t, pc, CutoverEffect(t, orders, pc, ch).tables)
  {
  }

  lemma OthersStaySettled(s: State, c: nat, t': Tables, d: nat)
    requires Calm(s) && NoOverlap(s) && c in s.calls && d in s.calls && c != d && ChangesOwn(s.tables, s.calls[c], t')
    ensures Settled(t', s.calls[d])
  {
    var pc, qd := s.calls[c], s.calls[d];
    assert CallInv(s.tables, pc) && CallInv(s.tables, qd) && Settled(s.tables, qd) && PickedStill(s.tables, pc);
    if HasPlan(qd) && MayChange(pc, PlanOf(qd).a) {
      if HasPlan(pc) && PlanOf(pc).a == PlanOf(qd).a {
        OneHolder(s, c, d, BrokerKey(PlanOf(qd).broker));
      }
    }
  }

  lemma OthersStayPicked(s: State, c: nat, t': Tables, d: nat)
    requires Calm(s) && NoOverlap(s) && c in s.calls && d in s.calls && c != d && ChangesOwn(s.tables, s.calls[c], t')
    ensures PickedStill(t', s.calls[d])
  {
    var pc, qd := s.calls[c], s.calls[d];
    assert CallInv(s.tables, pc) && PickedStill(s.tables, pc) && PickedStill(s.tables, qd);
    if qd.RPicked? {
      forall k | 0 <= k < |qd.picked| ensures !MayChange(pc, qd.picked[k]) {
        if pc.RPicked? && qd.picked[k] in pc.picked {
          OneHolder(s, c, d, IpKey(qd.ip));
        }
      }
    }
  }

  // ---------------------------------------------------------------------------
  // Usage rows
  // ---------------------------------------------------------------------------

  lemma AssignTracks(t: Tables, client: nat, b: nat, ip: nat, now: int)
    requires LiveTracked(t)
    ensures LiveTracked(Activate(t, client, b, ip, now))
  {
    var t' := Activate(t, client, b, ip, now);
    forall i | 0 <= i < |t'.assignments| && IpSafety.Live(t'.assignments[i])
      ensures OpenUsage(t'.usage, t'.assignments[i].broker, t'.assignments[i].ip)
    {
      if i < |t.assignments| {
        OpenStays(t.usage, t'.usage, t.assignments[i].broker, t.assignments[i].ip);
      } else {
        assert t'.usage[|t.usage|].releasedAt.None?;
      }
    }
  }

  /** A live assignment that a release does not end is not one of the brokers that it picked. */
  lemma ReleaseTracks(t: Tables, pc: Pc)
    requires pc.RPicked? && pc.ip in t.ips && OneLive(t) && LiveTracked(t) && PickedStill(t, pc)
    ensures LiveTracked(ReleaseTx(t, pc.picked, pc.ip, pc.now, pc.cooldown))
  {
    var t' := ReleaseTx(t, pc.picked, pc.ip, pc.now, pc.cooldown);
    forall i: nat | i < |t'.assignments| && IpSafety.Live(t'.assignments[i])
      ensures OpenUsage(t'.usage, t'.assignments[i].broker, t'.assignments[i].ip)
    {
      EndsPickedAssignments(t, pc.picked, pc.ip, pc.now, pc.now + pc.cooldown, i);
      var b := t.assignments[i].broker;
      assert LiveFor(t, i, b) && i !in pc.picked;
      if PickedBroker(t.assignments, pc.picked, b) {
        var k :| 0 <= k < |pc.picked| && pc.picked[k] < |t.assignments| && t.assignments[pc.picked[k]].broker == b;
        assert LiveFor(t, pc.picked[k], b);
      }
      UnpickedStaysOpen(t, pc, b, t.assignments[i].ip);
    }
  }

  lemma UnpickedStaysOpen(t: Tables, pc: Pc, b: nat, ip: nat)
    requires pc.RPicked? && pc.ip in t.ips && InRange(pc.picked, |t.assignments|)
    requires OpenUsage(t.usage, b, ip) && !PickedBroker(t.assignments, pc.picked, b)
    ensures OpenUsage(ReleaseTx(t, pc.picked, pc.ip, pc.now, pc.cooldown).usage, b, ip)
  {
    var u :| 0 <= u < |t.usage| && t.usage[u].broker == b && t.usage[u].ip == ip && t.usage[u].releasedAt.None?;
    ClosesPickedUsage(t, pc.picked, pc.ip, pc.now, pc.now + pc.cooldown, u);
  }

  lemma CutoverTracks(t: Tables, p: Plan, now: int, cooldown: int)
    requires LiveTracked(t) && PlanInv(t, p, true) && t.assignments[p.a].ip in t.ips
    ensures LiveTracked(CutoverTx(t, p.a, p.new_, now, cooldown))
  {
    var t', n := CutoverTx(t, p.a, p.new_, now, cooldown), |t.assignments|;
    forall i: nat | i < |t'.assignments| && IpSafety.Live(t'.assignments[i])
      ensures OpenUsage(t'.usage, t'.assignments[i].broker, t'.assignments[i].ip)
    {
      if i < n {
        assert t'.assignments[i] == t.assignments[i] && LiveFor(t, i, t.assignments[i].broker);
        OpenStays(t.usage, t'.usage, t.assignments[i].broker, t.assignments[i].ip);
      } else {
        assert t'.usage[|t.usage|].releasedAt.None?;
      }
    }
  }

  /** Changing only the status of one assignment that is live before. */
  lemma StatusTracks(t: Tables, t': Tables, a: nat)
    requires LiveTracked(t) && t'.usage == t.usage && |t'.assignments| == |t.assignments|
    requires a < |t.assignments| && IpSafety.Live(t.assignments[a])
    requires t'.assignments[a].broker == t.assignments[a].broker && t'.assignments[a].ip == t.assignments[a].ip
    requires forall i :: 0 <= i < |t.assignments| && i != a ==> t'.assignments[i] == t.assignments[i]
    ensures LiveTracked(t')
  {
  }

  // ---------------------------------------------------------------------------
  // Each stretch keeps the calm
  // ---------------------------------------------------------------------------

  ghost predicate OwnCalm(t': Tables, next: Pc) {
    LiveTracked(t') && Settled(t', next) && PickedStill(t', next)
  }

  lemma AssignCalm(t: Tables, pc: Pc, ch: Choice)
    requires InAssign(pc) && AssignEffect(t, pc, ch).Move? && LiveTracked(t)
    ensures OwnCalm(AssignEffect(t, pc, ch).tables, AssignEffect(t, pc, ch).next)
  {
    var Move(next, t') := AssignEffect(t, pc, ch);
    if t' != t {
      AssignTracks(t, t.brokers[pc.broker], pc.broker, pc.ip, ch.now);
      assert t'.assignments == Activate(t, t.brokers[pc.broker], pc.broker, pc.ip, ch.now).assignments;
    }
  }

  lemma ReleaseCalm(t: Tables, pc: Pc, ch: Choice)
    requires InRelease(pc) && ReleaseEffect(t, pc, ch).Move? && LiveTracked(t) && OneLive(t) && PickedStill(t, pc)
    ensures OwnCalm(ReleaseEffect(t, pc, ch).tables, ReleaseEffect(t, pc, ch).next)
  {
    var Move(next, t') := ReleaseEffect(t, pc, ch);
    if pc.RPicked? {
      if t' != t {
        ReleaseTracks(t, pc);
      }
    } else if pc.RChecked? {
      HoldingPicks(t.assignments, pc.ip);
    } else {
      assert t'.assignments == t.assignments && t'.usage == t.usage;
    }
  }

  lemma PrepareCalm(t: Tables, pc: Pc, ch: Choice)
    requires InPrepare(pc) && PrepareEffect(t, pc, ch).Move? && LiveTracked(t) && Settled(t, pc)
    ensures OwnCalm(PrepareEffect(t, pc, ch).tables, PrepareEffect(t, pc, ch).next)
  {
    var Move(next, t') := PrepareEffect(t, pc, ch);
    assert t'.assignments == t.assignments && t'.usage == t.usage;
  }

  lemma CutoverCalm(t: Tables, orders: map<nat, Order>, pc: Pc, ch: Choice)
    requires InCutover(pc) && CutoverEffect(t, orders, pc, ch).Move?
    requires LiveTracked(t) && KnownIps(t) && CallInv(t, pc) && Settled(t, pc)
    ensures OwnCalm(CutoverEffect(t, orders, pc, ch).tables, CutoverEffect(t, orders, pc, ch).next)
  {
    var Move(next, t') := CutoverEffect(t, orders, pc, ch);
    if pc.OReady? || (pc.OLate? && next.OClean?) {
      StatusTracks(t, t', pc.plan.a);
    } else if pc.ODrained? || pc.OLate? {
      CutoverTracks(t, pc.plan, ch.now, ch.cooldown);
    } else {
      assert t'.assignments == t.assignments && t'.usage == t.usage;
    }
  }

  lemma EffectCalm(s: State, c: nat, ch: Choice)
    requires Calm(s) && c in s.calls && EffectOf(s, s.calls[c], ch).Move?
    ensures OwnCalm(EffectOf(s, s.calls[c], ch).tables, EffectOf(s, s.calls[c], ch).next)
  {
    var pc := s.calls[c];
    assert CallInv(s.tables, pc) && Settled(s.tables, pc) && PickedStill(s.tables, pc);
    if InAssign(pc) {
      AssignCalm(s.tables, pc, ch);
    } else if InRelease(pc) {
      ReleaseCalm(s.tables, pc, ch);
    } else if InPrepare(pc) {
      PrepareCalm(s.tables, pc, ch);
    } else {
      CutoverCalm(s.tables, s.orders, pc, ch);
    }
  }

  lemma MoveStaysCalm(s: State, c: nat, ch: Choice)
    requires Calm(s) && NoOverlap(s) && c in s.calls && EffectOf(s, s.calls[c], ch).Move?
    requires Inv(Step(s, Advance(c, ch)))
    ensures Calm(Step(s, Advance(c, ch)))
  {
    var e := EffectOf(s, s.calls[c], ch);
    var s' := s.(calls := s.calls[c := e.next], tables := e.tables);
    assert Step(s, Advance(c, ch)) == s';
    EffectCalm(s, c, ch);
    EffectChangesOwn(s, c, ch);
    forall d | d in s'.calls ensures Settled(s'.tables, s'.calls[d]) && PickedStill(s'.tables, s'.calls[d]) {
      if d != c {
        OthersStaySettled(s, c, e.tables, d);
        OthersStayPicked(s, c, e.tables, d);
      }
    }
  }

  lemma LockStaysCalm(s: State, c: nat, ch: Choice)
    requires Calm(s) && c in s.calls && !EffectOf(s, s.calls[c], ch).Move?
    requires Inv(Step(s, Advance(c, ch)))
    ensures Calm(Step(s, Advance(c, ch)))
  {
    var s' := Step(s, Advance(c, ch));
    LockShape(s, c, EffectOf(s, s.calls[c], ch));
    LockMoveKnows(s, s.calls[c], ch, s'.calls[c]);
    RecallCalm(s, c, s'.calls[c], s');
  }

  lemma LockShape(s: State, c: nat, e: Effect)
    requires !e.Move?
    ensures var s' := Apply(s, c, e);
            s'.tables == s.tables && c in s'.calls && s'.calls == s.calls[c := s'.calls[c]] && LockMove(e, s'.calls[c])
  {
  }

  lemma RecallCalm(s: State, c: nat, next: Pc, s': State)
    requires Calm(s) && c in s.calls && KnowsNoMore(s.calls[c], next) && !InDrain(s.calls[c])
    requires Inv(s') && s'.tables == s.tables && s'.calls == s.calls[c := next]
    ensures Calm(s')
  {
    assert Settled(s.tables, s.calls[c]);
  }

  lemma CalmStep(s: State, act: Action)
    requires Calm(s) && NoOverlap(s)
    ensures Calm(Step(s, act))
  {
    InvStep(s, act);
    if act.Advance? && act.call in s.calls {
      if EffectOf(s, s.calls[act.call], act.choice).Move? {
        MoveStaysCalm(s, act.call, act.choice);
      } else {
        LockStaysCalm(s, act.call, act.choice);
      }
    }
  }

  lemma {:induction false} CalmRun(s: State, acts: seq<Action>)
    requires Calm(s) && NeverOverlaps(s, acts)
    ensures Calm(Exec(s, acts)) && NoOverlap(Exec(s, acts))
    decreases |acts|
  {
    if acts != [] {
      CalmStep(s, acts[0]);
      CalmRun(Step(s, acts[0]), acts[1..]);
    }
  }

  lemma IdleIsCalm(s: State)
    requires Idle(s) && LiveTracked(s.tables)
    ensures Calm(s)
  {
    IdleInv(s);
  }

  lemma NothingRevives(s: State, act: Action, i: nat)
    requires Calm(s) && IsEnded(s.tables, i)
    ensures !Revives(s, act, i)
  {
    if act.Advance? && act.call in s.calls {
      assert Settled(s.tables, s.calls[act.call]);
    }
  }

  /** If no release that has picked ever overlaps a rotation of the same IP, an ended assignment stays
      ended ... */
  lemma {:induction false} EndedStaysEnded(s: State, acts: seq<Action>, i: nat)
    requires Calm(s) && NeverOverlaps(s, acts) && IsEnded(s.tables, i)
    ensures IsEnded(Exec(s, acts).tables, i)
    decreases |acts|
  {
    if acts != [] {
      EndedReturnsIff(s, acts[0], i);
      NothingRevives(s, acts[0], i);
      CalmStep(s, acts[0]);
      EndedStaysEnded(Step(s, acts[0]), acts[1..], i);
    }
  }

  /** ... and every assignment that is active or draining has an open usage row, in every state of every
      interleaving. */
  lemma LiveStaysTracked(init: State, acts: seq<Action>, i: nat)
    requires Idle(init) && LiveTracked(init.tables) && NeverOverlaps(init, acts)
    requires i < |Exec(init, acts).tables.assignments| && IpSafety.Live(Exec(init, acts).tables.assignments[i])
    ensures var t := Exec(init, acts).tables; OpenUsage(t.usage, t.assignments[i].broker, t.assignments[i].ip)
  {
    IdleIsCalm(init);
    CalmRun(init, acts);
  }

  // ---------------------------------------------------------------------------
  // With overlap
  // ---------------------------------------------------------------------------

  /** The overlap does harm wherever it occurs: if a release that has picked the assignment commits while
      the rotation is about to give up, the release ends the assignment and closes its usage, and the
      abort makes it active again with no open usage row. */
  lemma OverlapUndoesRelease(s: State, c: nat, d: nat, commit: Choice, abort: Choice)
    requires Inv(s) && c in s.calls && d in s.calls && s.calls[c].OLate? && s.calls[d].RPicked?
    requires s.calls[d].ip == s.calls[c].plan.old_ && s.calls[c].plan.a in s.calls[d].picked
    requires commit.ok && !s.calls[c].plan.force && !abort.forcePolicy
    ensures var (p, s1) := (s.calls[c].plan, Step(s, Advance(d, commit)));
            var s2 := Step(s1, Advance(c, abort));
            && IsEnded(s1.tables, p.a)
            && p.a < |s2.tables.assignments| && s2.tables.assignments[p.a].status == Active
            && s2.tables.assignments[p.a].broker == p.broker && s2.tables.assignments[p.a].ip == p.old_
            && !OpenUsage(s2.tables.usage, p.broker, p.old_)
  {
    var p, q, t := s.calls[c].plan, s.calls[d], s.tables;
    assert CallInv(t, s.calls[c]) && CallInv(t, q);
    var t1 := ReleaseTx(t, q.picked, q.ip, q.now, q.cooldown);
    assert InRange(q.picked, |t.assignments|) && t.assignments[p.a].ip in t.ips;
    CommitsRelease(s, d, commit, t1);
    EndsPickedAssignments(t, q.picked, q.ip, q.now, q.now + q.cooldown, p.a);
    PickedIsClosed(t, q, p.a);
    var s1 := Step(s, Advance(d, commit));
    assert EffectOf(s1, s1.calls[c], abort) == Move(OClean(p.broker, p.new_), AbortTx(t1, p.a, p.new_, !abort.ok));
  }

  lemma CommitsRelease(s: State, d: nat, commit: Choice, t1: Tables)
    requires d in s.calls && s.calls[d].RPicked? && commit.ok && s.calls[d].ip in s.tables.ips
    requires InRange(s.calls[d].picked, |s.tables.assignments|)
    requires t1 == ReleaseTx(s.tables, s.calls[d].picked, s.calls[d].ip, s.calls[d].now, s.calls[d].cooldown)
    ensures Step(s, Advance(d, commit)) == s.(calls := s.calls[d := RLeave(s.calls[d].ip)], tables := t1)
  {
  }

  lemma PickedIsClosed(t: Tables, pc: Pc, a: nat)
    requires pc.RPicked? && pc.ip in t.ips && InRange(pc.picked, |t.assignments|) && a in pc.picked
    ensures a < |t.assignments|
    ensures !OpenUsage(ReleaseTx(t, pc.picked, pc.ip, pc.now, pc.cooldown).usage, t.assignments[a].broker, pc.ip)
  {
    var k :| 0 <= k < |pc.picked| && pc.picked[k] == a;
    assert PickedBroker(t.assignments, pc.picked, t.assignments[a].broker);
    forall u: nat | u < |t.usage| && t.usage[u].broker == t.assignments[a].broker && t.usage[u].ip == pc.ip
      ensures ReleaseTx(t, pc.picked, pc.ip, pc.now, pc.cooldown).usage[u].releasedAt.Some?
    {
      ClosesPickedUsage(t, pc.picked, pc.ip, pc.now, pc.now + pc.cooldown, u);
    }
    forall u: nat | u < |t.usage|
      ensures ReleaseTx(t, pc.picked, pc.ip, pc.now, pc.cooldown).usage[u].broker == t.usage[u].broker
      ensures ReleaseTx(t, pc.picked, pc.ip, pc.now, pc.cooldown).usage[u].ip == t.usage[u].ip
    {
      ClosesPickedUsage(t, pc.picked, pc.ip, pc.now, pc.now + pc.cooldown, u);
    }
  }
}
