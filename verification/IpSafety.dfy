/** What holds in every state of every interleaving of the IP calls. Nothing here relies on the unique
    index that the database keeps on active assignments. */
module IpSafety {
  import opened Common
  import opened IpTables
  import opened Locks
  import opened IpProtocol

  // ---------------------------------------------------------------------------
  // The invariant
  // ---------------------------------------------------------------------------

  predicate Live(a: Assignment) {
    a.status == Active || a.status == Draining
  }

  predicate LiveFor(t: Tables, i: nat, broker: nat) {
    i < |t.assignments| && t.assignments[i].broker == broker && Live(t.assignments[i])
  }

  ghost predicate NoneLive(t: Tables, broker: nat) {
    forall i: nat :: !LiveFor(t, i, broker)
  }

  ghost predicate OnlyLive(t: Tables, broker: nat, a: nat) {
    forall i: nat :: LiveFor(t, i, broker) ==> i == a
  }

  /** A broker has at most one assignment that is active or draining. */
  ghost predicate OneLive(t: Tables) {
    forall i: nat, j: nat, b: nat :: LiveFor(t, i, b) && LiveFor(t, j, b) ==> i == j
  }

  ghost predicate KnownIps(t: Tables) {
    forall i :: 0 <= i < |t.assignments| ==> t.assignments[i].ip in t.ips
  }

  predicate Allocates(pc: Pc) {
    pc.ONew? || pc.OAttach? || pc.OAttaching? || pc.OAttached? || pc.OReady? || InDrain(pc)
  }

  predicate InDrain(pc: Pc) {
    pc.OPolling? || pc.ODrained? || pc.OLate?
  }

  predicate HasPlan(pc: Pc) {
    pc.OSeen? || Allocates(pc)
  }

  function PlanOf(pc: Pc): Plan
    requires HasPlan(pc)
  {
    if pc.OSeen? then Plan(pc.broker, pc.force, pc.a, pc.old_, 0) else pc.plan
  }

  /** The assignment that a rotation works on is the only one of its broker that can be live. */
  ghost predicate PlanInv(t: Tables, p: Plan, drains: bool) {
    && p.a < |t.assignments|
    && t.assignments[p.a].broker == p.broker && t.assignments[p.a].ip == p.old_
    && t.assignments[p.a].status != (if drains then Active else Draining)
    && OnlyLive(t, p.broker, p.a)
  }

  /** What a call knows at each point, whatever the others do meanwhile. */
  ghost predicate CallInv(t: Tables, pc: Pc) {
    && (pc.AClear? ==> NoneLive(t, pc.broker))
    && (pc.RPicked? ==> InRange(pc.picked, |t.assignments|))
    && (HasPlan(pc) ==> PlanInv(t, PlanOf(pc), InDrain(pc)))
    && (Allocates(pc) ==> pc.plan.new_ in t.ips)
    && (pc.OClean? ==> pc.new_ in t.ips)
  }

  predicate DrainedBy(pc: Pc, i: nat) {
    InDrain(pc) && pc.plan.a == i
  }

  predicate IsDraining(t: Tables, i: nat) {
    i < |t.assignments| && t.assignments[i].status == Draining
  }

  ghost predicate Owned(s: State, i: nat) {
    exists c :: c in s.calls && DrainedBy(s.calls[c], i)
  }

  ghost predicate Inv(s: State) {
    && LockInv(s)
    && OneLive(s.tables) && KnownIps(s.tables)
    && (forall c :: c in s.calls ==> CallInv(s.tables, s.calls[c]))
    && (forall i: nat :: IsDraining(s.tables, i) ==> Owned(s, i))
  }

  // ---------------------------------------------------------------------------
  // What one effect may do to the tables
  // ---------------------------------------------------------------------------

  predicate SameOrEnded(x: Assignment, y: Assignment) {
    y == x || (y.status == Ended && y.broker == x.broker && y.ip == x.ip)
  }

  /** Assignments only end, and no IP row disappears. */
  ghost predicate OnlyEnds(t: Tables, t': Tables) {
    && |t'.assignments| == |t.assignments|
    && (forall i :: 0 <= i < |t.assignments| ==> SameOrEnded(t.assignments[i], t'.assignments[i]))
    && t.ips.Keys <= t'.ips.Keys
  }

  /** Only assignments of one broker change or are added, and no IP row disappears. */
  ghost predicate OnlyOf(t: Tables, t': Tables, broker: nat) {
    && |t'.assignments| >= |t.assignments|
    && (forall i :: 0 <= i < |t.assignments| ==>
          t'.assignments[i].broker == t.assignments[i].broker && t'.assignments[i].ip == t.assignments[i].ip
          && (t.assignments[i].broker != broker ==> t'.assignments[i] == t.assignments[i]))
    && (forall i :: |t.assignments| <= i < |t'.assignments| ==> t'.assignments[i].broker == broker)
    && t.ips.Keys <= t'.ips.Keys
  }

  /** An assignment that drains afterwards drained before, and not on behalf of this call unless it
      still does. */
  ghost predicate DrainsKept(t: Tables, pc: Pc, t': Tables, next: Pc) {
    forall i: nat :: IsDraining(t', i) ==> DrainedBy(next, i) || (IsDraining(t, i) && !DrainedBy(pc, i))
  }

  ghost predicate Sound(t: Tables, pc: Pc, t': Tables, next: Pc) {
    && (OnlyEnds(t, t') || exists b :: BrokerKey(b) in Held(pc) && OnlyOf(t, t', b))
    && OneLive(t') && KnownIps(t') && CallInv(t', next) && DrainsKept(t, pc, t', next)
  }

  // ---------------------------------------------------------------------------
  // Other calls do not notice
  // ---------------------------------------------------------------------------

  lemma EndsKeepOthers(t: Tables, t': Tables, pc: Pc)
    requires OnlyEnds(t, t') && CallInv(t, pc)
    ensures CallInv(t', pc)
  {
    forall i: nat, b: nat | LiveFor(t', i, b) ensures LiveFor(t, i, b) {
      assert SameOrEnded(t.assignments[i], t'.assignments[i]);
    }
    if HasPlan(pc) {
      assert SameOrEnded(t.assignments[PlanOf(pc).a], t'.assignments[PlanOf(pc).a]);
    }
  }

  lemma OthersKeepPlan(t: Tables, t': Tables, b: nat, pc: Pc)
    requires OnlyOf(t, t', b) && CallInv(t, pc) && BrokerKey(b) !in Held(pc)
    ensures CallInv(t', pc)
  {
    forall i: nat, d: nat | d != b && LiveFor(t', i, d) ensures LiveFor(t, i, d) {
    }
    if HasPlan(pc) {
      assert BrokerKey(PlanOf(pc).broker) in Held(pc);
    }
    if pc.AClear? {
      assert BrokerKey(pc.broker) in Held(pc);
    }
  }

  lemma EndsKeepTables(t: Tables, t': Tables)
    requires OnlyEnds(t, t') && OneLive(t) && KnownIps(t)
    ensures OneLive(t') && KnownIps(t')
    ensures forall i: nat :: IsDraining(t', i) ==> IsDraining(t, i)
  {
    forall i: nat, b: nat | LiveFor(t', i, b) ensures LiveFor(t, i, b) {
      assert SameOrEnded(t.assignments[i], t'.assignments[i]);
    }
    forall i | 0 <= i < |t'.assignments| ensures t'.assignments[i].ip in t'.ips {
      assert SameOrEnded(t.assignments[i], t'.assignments[i]);
    }
    forall i: nat | IsDraining(t', i) ensures IsDraining(t, i) {
      assert SameOrEnded(t.assignments[i], t'.assignments[i]);
    }
  }

  /** The rest of a call's knowledge follows it through a step that only ends assignments. */
  lemma EndsAreSound(t: Tables, pc: Pc, t': Tables, next: Pc)
    requires OnlyEnds(t, t') && OneLive(t) && KnownIps(t) && CallInv(t', next)
    requires InDrain(pc) ==> InDrain(next) && next.plan.a == pc.plan.a
    ensures Sound(t, pc, t', next)
  {
    EndsKeepTables(t, t');
  }

  // ---------------------------------------------------------------------------
  // Each stretch of a call is sound
  // ---------------------------------------------------------------------------

  ghost predicate NoDraining(t: Tables, broker: nat) {
    forall i: nat :: IsDraining(t, i) ==> t.assignments[i].broker != broker
  }

  lemma ActivateIsOneLive(t: Tables, client: nat, broker: nat, ip: nat, now: int)
    requires OneLive(t) && NoneLive(t, broker)
    ensures OneLive(Activate(t, client, broker, ip, now))
  {
    var t' := Activate(t, client, broker, ip, now);
    forall i: nat, b: nat | LiveFor(t', i, b) && i < |t.assignments| ensures LiveFor(t, i, b) {
    }
    forall i: nat, j: nat, b: nat | LiveFor(t', i, b) && LiveFor(t', j, b) ensures i == j {
      if i < |t.assignments| && j < |t.assignments| {
        assert LiveFor(t, i, b) && LiveFor(t, j, b);
      }
    }
  }

  lemma AssignIsSound(t: Tables, pc: Pc, ch: Choice)
    requires InAssign(pc) && AssignEffect(t, pc, ch).Move?
    requires OneLive(t) && KnownIps(t) && CallInv(t, pc)
    requires pc.AReuse? ==> NoDraining(t, pc.broker)
    ensures Sound(t, pc, AssignEffect(t, pc, ch).tables, AssignEffect(t, pc, ch).next)
  {
    var Move(next, t') := AssignEffect(t, pc, ch);
    if t' != t {
      var b, ip := pc.broker, pc.ip;
      var active := Activate(t, t.brokers[b], b, ip, ch.now);
      ActivateIsOneLive(t, t.brokers[b], b, ip, ch.now);
      assert t'.assignments == active.assignments;
      forall i: nat, d: nat | LiveFor(t', i, d) ensures LiveFor(active, i, d) {
      }
      assert OnlyOf(t, t', b) && BrokerKey(b) in Held(pc);
      forall i: nat | IsDraining(t', i) ensures IsDraining(t, i) {
      }
    } else {
      if next.AClear? {
        forall i: nat ensures !LiveFor(t, i, pc.broker) {
          assert LiveFor(t, i, pc.broker) ==> IsDraining(t, i);
        }
      }
      EndsAreSound(t, pc, t', next);
    }
  }

  lemma ReleaseOnlyEnds(t: Tables, picked: seq<nat>, ip: nat, now: int, cooldown: int)
    requires ip in t.ips && InRange(picked, |t.assignments|)
    ensures OnlyEnds(t, ReleaseTx(t, picked, ip, now, cooldown))
  {
    var t' := ReleaseTx(t, picked, ip, now, cooldown);
    forall i | 0 <= i < |t.assignments| ensures SameOrEnded(t.assignments[i], t'.assignments[i]) {
      EndsPickedAssignments(t, picked, ip, now, now + cooldown, i);
    }
  }

  lemma ReleaseIsSound(t: Tables, pc: Pc, ch: Choice)
    requires InRelease(pc) && ReleaseEffect(t, pc, ch).Move?
    requires OneLive(t) && KnownIps(t) && CallInv(t, pc)
    ensures Sound(t, pc, ReleaseEffect(t, pc, ch).tables, ReleaseEffect(t, pc, ch).next)
  {
    var Move(next, t') := ReleaseEffect(t, pc, ch);
    if pc.RPicked? && t' != t {
      ReleaseOnlyEnds(t, pc.picked, pc.ip, pc.now, pc.cooldown);
    }
    EndsAreSound(t, pc, t', next);
  }

  lemma PrepareIsSound(t: Tables, pc: Pc, ch: Choice)
    requires InPrepare(pc) && PrepareEffect(t, pc, ch).Move?
    requires OneLive(t) && KnownIps(t) && CallInv(t, pc)
    ensures Sound(t, pc, PrepareEffect(t, pc, ch).tables, PrepareEffect(t, pc, ch).next)
  {
    var Move(next, t') := PrepareEffect(t, pc, ch);
    assert OnlyEnds(t, t');
    if pc.OHold? {
      if next.OSeen? {
        assert LiveFor(t, next.a, next.broker);
      }
    } else {
      EndsKeepOthers(t, t', pc);
    }
    EndsAreSound(t, pc, t', next);
  }

  lemma DrainIsSound(t: Tables, p: Plan)
    requires OneLive(t) && KnownIps(t) && CallInv(t, OReady(p))
    ensures Sound(t, OReady(p), DrainTx(t, p.a), OPolling(p))
  {
    var t' := DrainTx(t, p.a);
    forall i: nat, d: nat | LiveFor(t', i, d) && i != p.a ensures LiveFor(t, i, d) {
    }
    forall i: nat | IsDraining(t', i) ensures DrainedBy(OPolling(p), i) || IsDraining(t, i) {
    }
    assert OnlyOf(t, t', p.broker) && BrokerKey(p.broker) in Held(OReady(p));
    OneLiveElsewhere(t, t', p.broker, p.a);
  }

  lemma AbortIsSound(t: Tables, p: Plan, detachFails: bool)
    requires OneLive(t) && KnownIps(t) && CallInv(t, OLate(p))
    ensures Sound(t, OLate(p), AbortTx(t, p.a, p.new_, detachFails), OClean(p.broker, p.new_))
  {
    var t' := AbortTx(t, p.a, p.new_, detachFails);
    forall i: nat, d: nat | LiveFor(t', i, d) && i != p.a ensures LiveFor(t, i, d) {
    }
    forall i: nat | IsDraining(t', i) ensures IsDraining(t, i) && i != p.a {
    }
    assert OnlyOf(t, t', p.broker) && BrokerKey(p.broker) in Held(OLate(p));
    OneLiveElsewhere(t, t', p.broker, p.a);
  }

  /** A change confined to a broker's one assignment keeps one live assignment each. */
  lemma OneLiveElsewhere(t: Tables, t': Tables, b: nat, a: nat)
    requires OneLive(t) && OnlyLive(t, b, a) && OnlyOf(t, t', b)
    requires forall i: nat, d: nat :: LiveFor(t', i, d) && i != a ==> LiveFor(t, i, d)
    requires a < |t.assignments| && t.assignments[a].broker == b
    ensures OneLive(t') && OnlyLive(t', b, a)
  {
    forall i: nat, j: nat, d: nat | LiveFor(t', i, d) && LiveFor(t', j, d) ensures i == j {
      if d == b {
        assert i != a ==> LiveFor(t, i, b);
        assert j != a ==> LiveFor(t, j, b);
      }
    }
  }

  lemma CutoverIsSound(t: Tables, pc: Pc, now: int, cooldown: int)
    requires pc.ODrained? || pc.OLate?
    requires OneLive(t) && KnownIps(t) && CallInv(t, pc)
    ensures Sound(t, pc, CutoverTx(t, pc.plan.a, pc.plan.new_, now, cooldown), OLeave(pc.plan.broker))
  {
    var p := pc.plan;
    var t' := CutoverTx(t, p.a, p.new_, now, cooldown);
    assert t'.assignments == EndAssignment(t.assignments, p.a, now)
                             + [Assignment(t.assignments[p.a].client, p.broker, p.new_, Active, None)];
    MovingIsSound(t, pc, t', now);
  }

  /** Ending the assignment that drains and adding an active one of the same broker. */
  lemma MovingIsSound(t: Tables, pc: Pc, t': Tables, now: int)
    requires pc.ODrained? || pc.OLate?
    requires OneLive(t) && KnownIps(t) && CallInv(t, pc) && t.ips.Keys <= t'.ips.Keys
    requires t'.assignments == EndAssignment(t.assignments, pc.plan.a, now)
                               + [Assignment(t.assignments[pc.plan.a].client, pc.plan.broker, pc.plan.new_, Active, None)]
    ensures Sound(t, pc, t', OLeave(pc.plan.broker))
  {
    var p, n := pc.plan, |t.assignments|;
    forall i: nat, d: nat | LiveFor(t', i, d) && i < n ensures LiveFor(t, i, d) && i != p.a {
    }
    forall i: nat | IsDraining(t', i) ensures IsDraining(t, i) && i != p.a {
    }
    assert OnlyOf(t, t', p.broker) && BrokerKey(p.broker) in Held(pc);
    OneLiveMoved(t, t', p.broker, p.a);
  }

  /** The broker's one assignment is replaced by a new one. */
  lemma OneLiveMoved(t: Tables, t': Tables, b: nat, a: nat)
    requires OneLive(t) && OnlyLive(t, b, a) && |t'.assignments| == |t.assignments| + 1
    requires t'.assignments[|t.assignments|].broker == b
    requires forall i: nat, d: nat :: LiveFor(t', i, d) && i < |t.assignments| ==> LiveFor(t, i, d) && i != a
    ensures OneLive(t')
  {
    forall i: nat, j: nat, d: nat | LiveFor(t', i, d) && LiveFor(t', j, d) ensures i == j {
      var n := |t.assignments|;
      if i < n && j < n {
        assert LiveFor(t, i, d) && LiveFor(t, j, d);
      }
      assert i == n || j == n ==> d == b;
    }
  }

  lemma CutoverStepIsSound(t: Tables, orders: map<nat, Order>, pc: Pc, ch: Choice)
    requires InCutover(pc) && CutoverEffect(t, orders, pc, ch).Move?
    requires OneLive(t) && KnownIps(t) && CallInv(t, pc)
    ensures Sound(t, pc, CutoverEffect(t, orders, pc, ch).tables, CutoverEffect(t, orders, pc, ch).next)
  {
    var Move(next, t') := CutoverEffect(t, orders, pc, ch);
    if pc.OReady? {
      DrainIsSound(t, pc.plan);
    } else if pc.ODrained? || (pc.OLate? && next.OLeave?) {
      CutoverIsSound(t, pc, ch.now, ch.cooldown);
    } else if pc.OLate? {
      AbortIsSound(t, pc.plan, !ch.ok);
    } else {
      EndsAreSound(t, pc, t', next);
    }
  }

  // ---------------------------------------------------------------------------
  // Every state of every run
  // ---------------------------------------------------------------------------

  /** Two calls cannot both be inside the critical section of one broker. */
  lemma OneHolder(s: State, c: nat, d: nat, key: Key)
    requires LockInv(s) && c in s.calls && d in s.calls && key in Held(s.calls[c]) && key in Held(s.calls[d])
    ensures c == d
  {
    var held := HeldBy(s.calls);
    assert key in held[c] && key in held[d];
    assert s.locks[key] == c && s.locks[key] == d;
  }

  lemma HolderSeesNoDraining(s: State, c: nat, b: nat)
    requires Inv(s) && c in s.calls && BrokerKey(b) in Held(s.calls[c]) && !InDrain(s.calls[c])
    ensures NoDraining(s.tables, b)
  {
    forall i: nat | IsDraining(s.tables, i) ensures s.tables.assignments[i].broker != b {
      assert Owned(s, i);
      var d :| d in s.calls && DrainedBy(s.calls[d], i);
      assert CallInv(s.tables, s.calls[d]);
      if s.calls[d].plan.broker == b {
        OneHolder(s, c, d, BrokerKey(b));
      }
    }
  }

  lemma EffectIsSound(s: State, c: nat, ch: Choice)
    requires Inv(s) && c in s.calls && EffectOf(s, s.calls[c], ch).Move?
    ensures Sound(s.tables, s.calls[c], EffectOf(s, s.calls[c], ch).tables, EffectOf(s, s.calls[c], ch).next)
  {
    var pc := s.calls[c];
    assert CallInv(s.tables, pc);
    if InAssign(pc) {
      if pc.AReuse? {
        HolderSeesNoDraining(s, c, pc.broker);
      }
      AssignIsSound(s.tables, pc, ch);
    } else if InRelease(pc) {
      ReleaseIsSound(s.tables, pc, ch);
    } else if InPrepare(pc) {
      PrepareIsSound(s.tables, pc, ch);
    } else {
      CutoverStepIsSound(s.tables, s.orders, pc, ch);
    }
  }

  lemma OthersKeep(s: State, c: nat, t': Tables, next: Pc, d: nat)
    requires Inv(s) && c in s.calls && Sound(s.tables, s.calls[c], t', next)
    requires d in s.calls && d != c
    ensures CallInv(t', s.calls[d])
  {
    if OnlyEnds(s.tables, t') {
      EndsKeepOthers(s.tables, t', s.calls[d]);
    } else {
      var b :| BrokerKey(b) in Held(s.calls[c]) && OnlyOf(s.tables, t', b);
      if BrokerKey(b) in Held(s.calls[d]) {
        OneHolder(s, c, d, BrokerKey(b));
      }
      OthersKeepPlan(s.tables, t', b, s.calls[d]);
    }
  }

  lemma OwnersStay(s: State, c: nat, t': Tables, next: Pc, i: nat)
    requires Inv(s) && c in s.calls && DrainsKept(s.tables, s.calls[c], t', next) && IsDraining(t', i)
    ensures Owned(Apply(s, c, Move(next, t')), i)
  {
    var calls := Apply(s, c, Move(next, t')).calls;
    if DrainedBy(next, i) {
      assert c in calls && DrainedBy(calls[c], i);
    } else {
      assert Owned(s, i);
      var d :| d in s.calls && DrainedBy(s.calls[d], i);
      assert d in calls && DrainedBy(calls[d], i);
    }
  }

  lemma MoveKeeps(s: State, c: nat, t': Tables, next: Pc)
    requires Inv(s) && c in s.calls && Sound(s.tables, s.calls[c], t', next)
    requires LockInv(Apply(s, c, Move(next, t')))
    ensures Inv(Apply(s, c, Move(next, t')))
  {
    var s' := Apply(s, c, Move(next, t'));
    forall d | d in s'.calls ensures CallInv(s'.tables, s'.calls[d]) {
      if d != c {
        OthersKeep(s, c, t', next, d);
      }
    }
    forall i: nat | IsDraining(s'.tables, i) ensures Owned(s', i) {
      OwnersStay(s, c, t', next, i);
    }
  }

  /** Taking or giving back a lock loses no knowledge, and nobody does it while draining. */
  predicate LockMove(e: Effect, next: Pc) {
    || (e.Take? && (next == e.got || next == e.refused))
    || (e.Drop? && next == e.next)
  }

  /** The next point of a call knows nothing, or what it knew already. */
  predicate KnowsNoMore(pc: Pc, next: Pc) {
    || (!next.AClear? && !next.RPicked? && !HasPlan(next) && !next.OClean?)
    || (Allocates(pc) && !InDrain(pc)
        && (next == OClean(pc.plan.broker, pc.plan.new_) || (Allocates(next) && !InDrain(next) && next.plan == pc.plan)))
  }

  lemma NoMoreIsKept(t: Tables, pc: Pc, next: Pc)
    requires CallInv(t, pc) && KnowsNoMore(pc, next)
    ensures CallInv(t, next)
  {
  }

  lemma AssignLockMove(t: Tables, pc: Pc, ch: Choice, next: Pc)
    requires InAssign(pc) && LockMove(AssignEffect(t, pc, ch), next)
    ensures KnowsNoMore(pc, next)
  {
  }

  lemma ReleaseLockMove(t: Tables, pc: Pc, ch: Choice, next: Pc)
    requires InRelease(pc) && LockMove(ReleaseEffect(t, pc, ch), next)
    ensures KnowsNoMore(pc, next)
  {
  }

  lemma PrepareLockMove(t: Tables, pc: Pc, ch: Choice, next: Pc)
    requires InPrepare(pc) && LockMove(PrepareEffect(t, pc, ch), next)
    ensures KnowsNoMore(pc, next)
  {
  }

  lemma CutoverLockMove(t: Tables, orders: map<nat, Order>, pc: Pc, ch: Choice, next: Pc)
    requires InCutover(pc) && LockMove(CutoverEffect(t, orders, pc, ch), next)
    ensures KnowsNoMore(pc, next) && !InDrain(pc)
  {
  }

  lemma LockMoveKnows(s: State, pc: Pc, ch: Choice, next: Pc)
    requires LockMove(EffectOf(s, pc, ch), next)
    ensures KnowsNoMore(pc, next) && !InDrain(pc)
  {
    if InAssign(pc) {
      AssignLockMove(s.tables, pc, ch, next);
    } else if InRelease(pc) {
      ReleaseLockMove(s.tables, pc, ch, next);
    } else if InPrepare(pc) {
      PrepareLockMove(s.tables, pc, ch, next);
    } else {
      CutoverLockMove(s.tables, s.orders, pc, ch, next);
    }
  }

  lemma RelockKeeps(s: State, c: nat, next: Pc, locks: map<Key, nat>)
    requires Inv(s) && c in s.calls && CallInv(s.tables, next) && !InDrain(s.calls[c])
    requires LockInv(s.(calls := s.calls[c := next], locks := locks))
    ensures Inv(s.(calls := s.calls[c := next], locks := locks))
  {
    var s' := s.(calls := s.calls[c := next], locks := locks);
    forall i: nat | IsDraining(s'.tables, i) ensures Owned(s', i) {
      assert Owned(s, i);
      var d :| d in s.calls && DrainedBy(s.calls[d], i);
      assert d in s'.calls && DrainedBy(s'.calls[d], i);
    }
  }

  lemma LockStepKeeps(s: State, c: nat, ch: Choice)
    requires Inv(s) && c in s.calls && !EffectOf(s, s.calls[c], ch).Move?
    requires LockInv(Apply(s, c, EffectOf(s, s.calls[c], ch)))
    ensures Inv(Apply(s, c, EffectOf(s, s.calls[c], ch)))
  {
    var e := EffectOf(s, s.calls[c], ch);
    var s' := Apply(s, c, e);
    LockMoveKnows(s, s.calls[c], ch, s'.calls[c]);
    NoMoreIsKept(s.tables, s.calls[c], s'.calls[c]);
    RelockKeeps(s, c, s'.calls[c], s'.locks);
  }

  lemma {:induction false} InvStep(s: State, act: Action)
    requires Inv(s)
    ensures Inv(Step(s, act))
  {
    LockInvStep(s, act);
    if act.Advance? && act.call in s.calls {
      var e := EffectOf(s, s.calls[act.call], act.choice);
      if e.Move? {
        EffectIsSound(s, act.call, act.choice);
        MoveKeeps(s, act.call, e.tables, e.next);
      } else {
        LockStepKeeps(s, act.call, act.choice);
      }
    } else {
      OtherStepsKeep(s, act);
    }
  }

  lemma OtherStepsKeep(s: State, act: Action)
    requires Inv(s) && LockInv(Step(s, act)) && (act.Advance? ==> act.call !in s.calls)
    ensures Inv(Step(s, act))
  {
    var s' := Step(s, act);
    CallsOnlyBegin(s, act);
    forall i: nat | IsDraining(s'.tables, i) ensures Owned(s', i) {
      assert Owned(s, i);
      var d :| d in s.calls && DrainedBy(s.calls[d], i);
      assert d in s'.calls && DrainedBy(s'.calls[d], i);
    }
  }

  /** Without a call that advances the tables stay, and a call can only begin. */
  lemma CallsOnlyBegin(s: State, act: Action)
    requires act.Advance? ==> act.call !in s.calls
    ensures var s' := Step(s, act);
            && s'.tables == s.tables
            && (forall c :: c in s.calls ==> c in s'.calls && s'.calls[c] == s.calls[c])
            && (forall c :: c in s'.calls && c !in s.calls ==> Entry(s'.calls[c]))
  {
  }

  lemma {:induction false} InvRun(s: State, acts: seq<Action>)
    requires Inv(s)
    ensures Inv(Exec(s, acts))
    decreases |acts|
  {
    if acts != [] {
      InvStep(s, acts[0]);
      InvRun(Step(s, acts[0]), acts[1..]);
    }
  }

  /** A state with no call under way. */
  ghost predicate Idle(s: State) {
    && s.calls == map[] && s.locks == map[]
    && OneLive(s.tables) && KnownIps(s.tables) && (forall i: nat :: !IsDraining(s.tables, i))
  }

  lemma IdleInv(s: State)
    requires Idle(s)
    ensures Inv(s)
  {
  }

  /** In every state of every interleaving a broker has at most one active assignment, and none while
      one of its rotations drains. */
  lemma AtMostOneActive(init: State, acts: seq<Action>, i: nat, j: nat)
    requires Idle(init)
    requires var t := Exec(init, acts).tables;
             && i < |t.assignments| && j < |t.assignments| && t.assignments[i].broker == t.assignments[j].broker
             && t.assignments[i].status == Active
    ensures Exec(init, acts).tables.assignments[j].status == Active ==> i == j
    ensures forall c :: c in Exec(init, acts).calls && InDrain(Exec(init, acts).calls[c]) ==>
              Exec(init, acts).calls[c].plan.broker != Exec(init, acts).tables.assignments[i].broker
  {
    IdleInv(init);
    InvRun(init, acts);
    var s := Exec(init, acts);
    var t, b := s.tables, s.tables.assignments[i].broker;
    assert LiveFor(t, i, b);
    if t.assignments[j].status == Active {
      assert LiveFor(t, j, b);
    }
    forall c | c in s.calls && InDrain(s.calls[c]) ensures s.calls[c].plan.broker != b {
      assert CallInv(t, s.calls[c]);
    }
  }

  lemma LocksAreHeld(s: State, key: Key, c: nat)
    requires LockInv(s)
    ensures (key in s.locks && s.locks[key] == c) <==> (c in s.calls && key in Held(s.calls[c]))
  {
    var held := HeldBy(s.calls);
    if c in s.calls {
      assert held[c] == Held(s.calls[c]);
    }
  }

  /** Each lock is held by exactly the call inside its critical section, and when all calls are done
      the lock table is empty. */
  lemma {:induction false} LocksMatchSections(init: State, acts: seq<Action>, key: Key, c: nat)
    requires Idle(init)
    ensures var s := Exec(init, acts);
            (key in s.locks && s.locks[key] == c) <==> (c in s.calls && key in Held(s.calls[c]))
    ensures var s := Exec(init, acts);
            (forall d :: d in s.calls ==> s.calls[d].Done?) ==> key !in s.locks
  {
    IdleInv(init);
    InvRun(init, acts);
    var s := Exec(init, acts);
    LocksAreHeld(s, key, c);
    if key in s.locks {
      LocksAreHeld(s, key, s.locks[key]);
    }
  }
}
