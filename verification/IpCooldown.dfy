/** The reuse cooldown in the interleaved machine: as long as no release that has picked overlaps a
    rotation of the same IP, no broker gets an IP again before the cooldown of any of its releases. */
module IpCooldown {
  import opened Common
  import opened IpTables
  import opened Locks
  import opened IpProtocol
  import opened IpSafety
  import opened IpOverlap
  import opened UsageHistory

  /** The clock of a stretch; orders and new calls have none. */
  function ClockAfter(now: int, act: Action): int {
    if act.Advance? then act.choice.now else now
  }

  /** The clock never goes back. */
  ghost predicate Clocked(now: int, acts: seq<Action>)
    decreases |acts|
  {
    acts == [] || (now <= ClockAfter(now, acts[0]) && Clocked(ClockAfter(now, acts[0]), acts[1..]))
  }

  function LastClock(now: int, acts: seq<Action>): int
    decreases |acts|
  {
    if acts == [] then now else LastClock(ClockAfter(now, acts[0]), acts[1..])
  }

  // ---------------------------------------------------------------------------
  // What a call knows once it has checked the policy
  // ---------------------------------------------------------------------------

  predicate Checked(pc: Pc) {
    pc.AReuse? || pc.AClear? || (Allocates(pc) && !pc.ONew?)
  }

  /** The pair that a call has checked and may activate. */
  function PairOf(pc: Pc): (nat, nat)
    requires Checked(pc)
  {
    if pc.AReuse? || pc.AClear? then (pc.broker, pc.ip) else (pc.plan.broker, pc.plan.new_)
  }

  ghost predicate Cleared(t: Tables, pc: Pc, now: int) {
    && (Checked(pc) ==> ReuseAllowed(t.usage, PairOf(pc).0, PairOf(pc).1, now))
    && (Allocates(pc) ==> pc.plan.new_ != pc.plan.old_)
  }

  ghost predicate AllCleared(s: State, now: int) {
    forall c :: c in s.calls ==> Cleared(s.tables, s.calls[c], now)
  }

  /** The step closes usage rows of the pair: it commits a release of the IP that picked the broker, or a
      cutover that takes the IP from the broker. */
  predicate Closes(t: Tables, pc: Pc, b: nat, ip: nat) {
    || (pc.RPicked? && pc.ip == ip && PickedBroker(t.assignments, pc.picked, b))
    || (InDrain(pc) && pc.plan.broker == b && pc.plan.old_ == ip)
  }

  ghost predicate PairKept(u: seq<Usage>, u': seq<Usage>, b: nat, ip: nat) {
    && |u| <= |u'|
    && (forall i :: 0 <= i < |u| && u[i].broker == b && u[i].ip == ip ==> u'[i] == u[i])
    && (forall i :: |u| <= i < |u'| && u'[i].broker == b && u'[i].ip == ip ==> u'[i].eligibleAt.None?)
    && (forall i :: 0 <= i < |u| ==> u'[i].broker == u[i].broker && u'[i].ip == u[i].ip)
  }

  lemma KeptStaysAllowed(u: seq<Usage>, u': seq<Usage>, b: nat, ip: nat, now: int)
    requires PairKept(u, u', b, ip) && ReuseAllowed(u, b, ip, now)
    ensures ReuseAllowed(u', b, ip, now)
  {
  }

  lemma ReleaseKeepsPair(t: Tables, pc: Pc, b: nat, ip: nat)
    requires pc.RPicked? && pc.ip in t.ips && InRange(pc.picked, |t.assignments|) && !Closes(t, pc, b, ip)
    ensures PairKept(t.usage, ReleaseTx(t, pc.picked, pc.ip, pc.now, pc.cooldown).usage, b, ip)
  {
    var u' := ReleaseTx(t, pc.picked, pc.ip, pc.now, pc.cooldown).usage;
    forall i: nat | i < |t.usage|
      ensures u'[i].broker == t.usage[i].broker && u'[i].ip == t.usage[i].ip
      ensures t.usage[i].broker == b && t.usage[i].ip == ip ==> u'[i] == t.usage[i]
    {
      ClosesPickedUsage(t, pc.picked, pc.ip, pc.now, pc.now + pc.cooldown, i);
    }
  }

  lemma CutoverKeepsPair(t: Tables, p: Plan, now: int, cooldown: int, b: nat, ip: nat)
    requires PlanInv(t, p, true) && t.assignments[p.a].ip in t.ips && !(p.broker == b && p.old_ == ip)
    ensures PairKept(t.usage, CutoverTx(t, p.a, p.new_, now, cooldown).usage, b, ip)
  {
  }

  lemma EffectKeepsPair(s: State, c: nat, ch: Choice, b: nat, ip: nat)
    requires Inv(s) && c in s.calls && EffectOf(s, s.calls[c], ch).Move? && !Closes(s.tables, s.calls[c], b, ip)
    ensures PairKept(s.tables.usage, EffectOf(s, s.calls[c], ch).tables.usage, b, ip)
  {
    var pc, t := s.calls[c], s.tables;
    assert CallInv(t, pc);
    var t' := EffectOf(s, pc, ch).tables;
    if t'.usage == t.usage {
    } else if InAssign(pc) {
      assert pc.AClear?;
    } else if InRelease(pc) {
      ReleaseKeepsPair(t, pc, b, ip);
    } else {
      CutoverUsageChange(s, c, ch);
      CutoverKeepsPair(t, pc.plan, ch.now, ch.cooldown, b, ip);
    }
  }

  lemma CutoverUsageChange(s: State, c: nat, ch: Choice)
    requires Inv(s) && c in s.calls && !InAssign(s.calls[c]) && !InRelease(s.calls[c])
    requires EffectOf(s, s.calls[c], ch).Move? && EffectOf(s, s.calls[c], ch).tables.usage != s.tables.usage
    ensures var (pc, t) := (s.calls[c], s.tables);
            && (pc.ODrained? || pc.OLate?) && PlanInv(t, pc.plan, true) && t.assignments[pc.plan.a].ip in t.ips
            && EffectOf(s, pc, ch).tables == CutoverTx(t, pc.plan.a, pc.plan.new_, ch.now, ch.cooldown)
  {
    assert CallInv(s.tables, s.calls[c]);
    if !InPrepare(s.calls[c]) {
      assert EffectOf(s, s.calls[c], ch) == CutoverEffect(s.tables, s.orders, s.calls[c], ch);
    }
  }

  /** Nobody closes the usage of a pair that another call has checked. */
  lemma OthersCloseNothing(s: State, c: nat, d: nat)
    requires Calm(s) && c in s.calls && d in s.calls && c != d && Checked(s.calls[d])
    requires Allocates(s.calls[d]) ==> s.calls[d].plan.new_ != s.calls[d].plan.old_
    ensures !Closes(s.tables, s.calls[c], PairOf(s.calls[d]).0, PairOf(s.calls[d]).1)
  {
    var pc, qd, t := s.calls[c], s.calls[d], s.tables;
    var b := PairOf(qd).0;
    assert CallInv(t, pc) && CallInv(t, qd) && PickedStill(t, pc);
    assert BrokerKey(b) in Held(qd);
    if InDrain(pc) && pc.plan.broker == b {
      OneHolder(s, c, d, BrokerKey(b));
    }
    if pc.RPicked? && pc.ip == PairOf(qd).1 && PickedBroker(t.assignments, pc.picked, b) {
      if qd.AReuse? || qd.AClear? {
        OneHolder(s, c, d, IpKey(pc.ip));
      } else {
        PickedIsNotRotated(t, pc, qd);
      }
    }
  }

  lemma PickedIsNotRotated(t: Tables, pc: Pc, qd: Pc)
    requires pc.RPicked? && Allocates(qd) && PlanInv(t, qd.plan, InDrain(qd)) && PickedStill(t, pc)
    requires pc.ip == qd.plan.new_ && qd.plan.new_ != qd.plan.old_
    ensures !PickedBroker(t.assignments, pc.picked, qd.plan.broker)
  {
    if PickedBroker(t.assignments, pc.picked, qd.plan.broker) {
      var k :| 0 <= k < |pc.picked| && pc.picked[k] < |t.assignments|
               && t.assignments[pc.picked[k]].broker == qd.plan.broker;
      assert LiveFor(t, pc.picked[k], qd.plan.broker);
    }
  }

  // ---------------------------------------------------------------------------
  // Every step keeps the knowledge
  // ---------------------------------------------------------------------------

  lemma OwnCleared(s: State, c: nat, ch: Choice, now: int)
    requires Inv(s) && c in s.calls && EffectOf(s, s.calls[c], ch).Move? && Cleared(s.tables, s.calls[c], now) && now <= ch.now
    ensures Cleared(EffectOf(s, s.calls[c], ch).tables, EffectOf(s, s.calls[c], ch).next, ch.now)
  {
    var pc, t := s.calls[c], s.tables;
    assert CallInv(t, pc);
    if InAssign(pc) {
      AssignCleared(t, pc, ch, now);
    } else if InRelease(pc) {
      assert !Checked(ReleaseEffect(t, pc, ch).next) && !Allocates(ReleaseEffect(t, pc, ch).next);
    } else if InPrepare(pc) {
      PrepareCleared(t, pc, ch, now);
    } else {
      CutoverCleared(t, s.orders, pc, ch, now);
    }
  }

  lemma AssignCleared(t: Tables, pc: Pc, ch: Choice, now: int)
    requires InAssign(pc) && AssignEffect(t, pc, ch).Move? && Cleared(t, pc, now) && now <= ch.now
    ensures Cleared(AssignEffect(t, pc, ch).tables, AssignEffect(t, pc, ch).next, ch.now)
  {
  }

  lemma PrepareCleared(t: Tables, pc: Pc, ch: Choice, now: int)
    requires InPrepare(pc) && PrepareEffect(t, pc, ch).Move? && Cleared(t, pc, now) && now <= ch.now
    ensures Cleared(PrepareEffect(t, pc, ch).tables, PrepareEffect(t, pc, ch).next, ch.now)
  {
    assert PrepareEffect(t, pc, ch).tables.usage == t.usage;
  }

  lemma CutoverCleared(t: Tables, orders: map<nat, Order>, pc: Pc, ch: Choice, now: int)
    requires InCutover(pc) && CutoverEffect(t, orders, pc, ch).Move? && Cleared(t, pc, now) && now <= ch.now
    ensures Cleared(CutoverEffect(t, orders, pc, ch).tables, CutoverEffect(t, orders, pc, ch).next, ch.now)
  {
    var Move(next, t') := CutoverEffect(t, orders, pc, ch);
    assert Allocates(next) ==> t'.usage == t.usage && next.plan == pc.plan;
  }

  lemma MoveStaysCleared(s: State, c: nat, ch: Choice, now: int)
    requires Calm(s) && AllCleared(s, now) && now <= ch.now && c in s.calls && EffectOf(s, s.calls[c], ch).Move?
    ensures AllCleared(Step(s, Advance(c, ch)), ch.now)
  {
    var e := EffectOf(s, s.calls[c], ch);
    var s' := s.(calls := s.calls[c := e.next], tables := e.tables);
    assert Step(s, Advance(c, ch)) == s';
    forall d | d in s'.calls ensures Cleared(s'.tables, s'.calls[d], ch.now) {
      if d == c {
        OwnCleared(s, c, ch, now);
      } else {
        OtherCleared(s, c, ch, d, now);
      }
    }
  }

  lemma OtherCleared(s: State, c: nat, ch: Choice, d: nat, now: int)
    requires Calm(s) && AllCleared(s, now) && now <= ch.now && c in s.calls && EffectOf(s, s.calls[c], ch).Move?
    requires d in s.calls && d != c
    ensures Cleared(EffectOf(s, s.calls[c], ch).tables, s.calls[d], ch.now)
  {
    var qd := s.calls[d];
    assert Cleared(s.tables, qd, now);
    if Checked(qd) {
      var (b, ip) := PairOf(qd);
      OthersCloseNothing(s, c, d);
      EffectKeepsPair(s, c, ch, b, ip);
      KeptStaysAllowed(s.tables.usage, EffectOf(s, s.calls[c], ch).tables.usage, b, ip, now);
    }
  }

  lemma RecallCleared(s: State, c: nat, next: Pc, now: int, later: int)
    requires AllCleared(s, now) && now <= later && c in s.calls && KnowsNoMore(s.calls[c], next)
    requires next.AReuse? ==> false
    requires !Checked(s.calls[c]) ==> !Checked(next)
    ensures Cleared(s.tables, next, later)
  {
    assert Cleared(s.tables, s.calls[c], now);
  }

  lemma StaysCleared(s: State, act: Action, now: int)
    requires Calm(s) && AllCleared(s, now) && now <= ClockAfter(now, act)
    ensures AllCleared(Step(s, act), ClockAfter(now, act))
  {
    if act.Advance? && act.call in s.calls {
      if EffectOf(s, s.calls[act.call], act.choice).Move? {
        MoveStaysCleared(s, act.call, act.choice, now);
      } else {
        LockStaysCleared(s, act.call, act.choice, now);
      }
    } else {
      OtherStaysCleared(s, act, now);
    }
  }

  lemma OtherStaysCleared(s: State, act: Action, now: int)
    requires AllCleared(s, now) && now <= ClockAfter(now, act) && (act.Advance? ==> act.call !in s.calls)
    ensures AllCleared(Step(s, act), ClockAfter(now, act))
  {
    var s' := Step(s, act);
    forall d | d in s'.calls ensures Cleared(s'.tables, s'.calls[d], ClockAfter(now, act)) {
      assert d in s.calls ==> Cleared(s.tables, s.calls[d], now);
    }
  }

  /** Lock moves: no call checks the policy while it takes or gives back a lock. */
  lemma LockKeepsChecked(s: State, pc: Pc, ch: Choice, next: Pc)
    requires LockMove(EffectOf(s, pc, ch), next)
    ensures !next.AReuse? && (Checked(next) ==> Checked(pc))
  {
    if InAssign(pc) {
      assert !Checked(next);
    } else if InRelease(pc) {
      assert !Checked(next);
    } else if InPrepare(pc) {
      assert EffectOf(s, pc, ch) == PrepareEffect(s.tables, pc, ch);
    } else {
      assert next == Done;
    }
  }

  lemma LockStaysCleared(s: State, c: nat, ch: Choice, now: int)
    requires AllCleared(s, now) && now <= ch.now && c in s.calls && !EffectOf(s, s.calls[c], ch).Move?
    ensures AllCleared(Step(s, Advance(c, ch)), ch.now)
  {
    var s' := Step(s, Advance(c, ch));
    LockMoveKnows(s, s.calls[c], ch, s'.calls[c]);
    LockKeepsChecked(s, s.calls[c], ch, s'.calls[c]);
    RecallCleared(s, c, s'.calls[c], now, ch.now);
    forall d | d in s'.calls ensures Cleared(s'.tables, s'.calls[d], ch.now) {
      assert d in s.calls && Cleared(s.tables, s.calls[d], now);
    }
  }

  lemma {:induction false} ClearedRun(s: State, acts: seq<Action>, now: int)
    requires Calm(s) && AllCleared(s, now) && NeverOverlaps(s, acts) && Clocked(now, acts)
    ensures AllCleared(Exec(s, acts), LastClock(now, acts)) && Calm(Exec(s, acts)) && NoOverlap(Exec(s, acts))
    decreases |acts|
  {
    if acts != [] {
      CalmStep(s, acts[0]);
      StaysCleared(s, acts[0], now);
      ClearedRun(Step(s, acts[0]), acts[1..], ClockAfter(now, acts[0]));
    }
  }

  // ---------------------------------------------------------------------------
  // Freed pairs
  // ---------------------------------------------------------------------------

  /** The cooldown that a step puts on what it frees. */
  function Until(s: State, act: Action): int {
    if act.Advance? && act.call in s.calls then
      var pc := s.calls[act.call];
      if pc.RPicked? then pc.now + pc.cooldown else act.choice.now + act.choice.cooldown
    else 0
  }

  /** The step ends a live assignment of the pair. */
  ghost predicate Frees(s: State, act: Action, f: Freed) {
    && f.until == Until(s, act)
    && exists i :: 0 <= i < |s.tables.assignments| && LiveFor(s.tables, i, f.broker) && s.tables.assignments[i].ip == f.ip
                   && IsEnded(Step(s, act).tables, i)
  }

  lemma UsageExtends(s: State, act: Action)
    requires Inv(s)
    ensures Extends(s.tables.usage, Step(s, act).tables.usage)
  {
    if act.Advance? && act.call in s.calls && EffectOf(s, s.calls[act.call], act.choice).Move? {
      EffectExtends(s, act.call, act.choice);
    } else {
      assert Step(s, act).tables == s.tables;
    }
  }

  lemma EffectExtends(s: State, c: nat, ch: Choice)
    requires Inv(s) && c in s.calls && EffectOf(s, s.calls[c], ch).Move?
    ensures Extends(s.tables.usage, EffectOf(s, s.calls[c], ch).tables.usage)
  {
    var pc, t := s.calls[c], s.tables;
    assert CallInv(t, pc);
    if EffectOf(s, pc, ch).tables.usage == t.usage {
    } else if InAssign(pc) {
      assert pc.AClear?;
    } else if InRelease(pc) {
      ReleaseExtends(t, pc.picked, pc.ip, pc.now, pc.cooldown);
    } else {
      CutoverUsageChange(s, c, ch);
      StampingExtends(t.usage, pc.plan.broker, pc.plan.old_, ch.now, ch.now + ch.cooldown,
                      Usage(pc.plan.broker, pc.plan.new_, ch.now, None, None));
    }
  }

  lemma ReleasedWaits(t: Tables, pc: Pc, i: nat)
    requires pc.RPicked? && pc.ip in t.ips && LiveTracked(t) && PickedStill(t, pc) && i in pc.picked
    ensures i < |t.assignments|
    ensures Waits(ReleaseTx(t, pc.picked, pc.ip, pc.now, pc.cooldown).usage,
                  Freed(t.assignments[i].broker, pc.ip, pc.now + pc.cooldown))
  {
    var k :| 0 <= k < |pc.picked| && pc.picked[k] == i;
    var b := t.assignments[i].broker;
    assert OpenUsage(t.usage, b, pc.ip) && PickedBroker(t.assignments, pc.picked, b);
    var u :| 0 <= u < |t.usage| && t.usage[u].broker == b && t.usage[u].ip == pc.ip && t.usage[u].releasedAt.None?;
    ClosesPickedUsage(t, pc.picked, pc.ip, pc.now, pc.now + pc.cooldown, u);
  }

  /** Only a release commit and a cutover end a live assignment. */
  lemma OnlyTheseEnd(s: State, c: nat, ch: Choice, i: nat)
    requires Calm(s) && c in s.calls && EffectOf(s, s.calls[c], ch).Move?
    requires i < |s.tables.assignments| && IpSafety.Live(s.tables.assignments[i])
    requires IsEnded(EffectOf(s, s.calls[c], ch).tables, i)
    ensures var (pc, t) := (s.calls[c], s.tables);
            || (pc.RPicked? && pc.ip in t.ips && i in pc.picked
                && EffectOf(s, pc, ch).tables == ReleaseTx(t, pc.picked, pc.ip, pc.now, pc.cooldown))
            || ((pc.ODrained? || pc.OLate?) && PlanInv(t, pc.plan, true) && pc.plan.a == i && t.assignments[i].ip in t.ips
                && EffectOf(s, pc, ch).tables == CutoverTx(t, pc.plan.a, pc.plan.new_, ch.now, ch.cooldown))
  {
    var pc, t := s.calls[c], s.tables;
    assert CallInv(t, pc) && Settled(t, pc);
    EffectChangesOwn(s, c, ch);
    assert MayChange(pc, i);
    if pc.RPicked? {
      assert EffectOf(s, pc, ch) == ReleaseEffect(t, pc, ch);
    } else if !InPrepare(pc) {
      assert EffectOf(s, pc, ch) == CutoverEffect(t, s.orders, pc, ch);
    }
  }

  lemma FreedWaits(s: State, act: Action, f: Freed)
    requires Calm(s) && Frees(s, act, f)
    ensures Waits(Step(s, act).tables.usage, f)
  {
    var i :| 0 <= i < |s.tables.assignments| && LiveFor(s.tables, i, f.broker) && s.tables.assignments[i].ip == f.ip
             && IsEnded(Step(s, act).tables, i);
    if act.Advance? && act.call in s.calls && EffectOf(s, s.calls[act.call], act.choice).Move? {
      EndedWaits(s, act.call, act.choice, i);
    }
  }

  lemma EndedWaits(s: State, c: nat, ch: Choice, i: nat)
    requires Calm(s) && c in s.calls && EffectOf(s, s.calls[c], ch).Move?
    requires i < |s.tables.assignments| && IpSafety.Live(s.tables.assignments[i])
    requires IsEnded(EffectOf(s, s.calls[c], ch).tables, i)
    ensures var (x, u') := (s.tables.assignments[i], EffectOf(s, s.calls[c], ch).tables.usage);
            Waits(u', Freed(x.broker, x.ip, Until(s, Advance(c, ch))))
  {
    var pc, t := s.calls[c], s.tables;
    OnlyTheseEnd(s, c, ch, i);
    if pc.RPicked? {
      assert PickedStill(t, pc);
      ReleasedWaits(t, pc, i);
    } else {
      assert LiveFor(t, i, pc.plan.broker) && OpenUsage(t.usage, pc.plan.broker, pc.plan.old_);
      StampingExtends(t.usage, pc.plan.broker, pc.plan.old_, ch.now, ch.now + ch.cooldown,
                      Usage(pc.plan.broker, pc.plan.new_, ch.now, None, None));
    }
  }

  lemma {:induction false} WaitsRun(s: State, acts: seq<Action>, f: Freed)
    requires Inv(s) && Waits(s.tables.usage, f)
    ensures Waits(Exec(s, acts).tables.usage, f)
    decreases |acts|
  {
    if acts != [] {
      UsageExtends(s, acts[0]);
      WaitsStays(s.tables.usage, Step(s, acts[0]).tables.usage, f);
      InvStep(s, acts[0]);
      WaitsRun(Step(s, acts[0]), acts[1..], f);
    }
  }

  // ---------------------------------------------------------------------------
  // Reuse
  // ---------------------------------------------------------------------------

  /** The step makes an assignment of the pair active that was ended or did not exist. */
  ghost predicate Activates(s: State, act: Action, b: nat, ip: nat) {
    var (t, t') := (s.tables, Step(s, act).tables);
    exists i :: 0 <= i < |t'.assignments| && t'.assignments[i].status == Active
                && t'.assignments[i].broker == b && t'.assignments[i].ip == ip
                && (i >= |t.assignments| || IsEnded(t, i))
  }

  /** A new row is of the pair that the call has checked. */
  lemma NewRowIsChecked(s: State, c: nat, ch: Choice, i: nat)
    requires Inv(s) && c in s.calls && EffectOf(s, s.calls[c], ch).Move?
    requires |s.tables.assignments| <= i < |EffectOf(s, s.calls[c], ch).tables.assignments|
    ensures var (pc, x) := (s.calls[c], EffectOf(s, s.calls[c], ch).tables.assignments[i]);
            Checked(pc) && PairOf(pc) == (x.broker, x.ip)
  {
    var pc, t := s.calls[c], s.tables;
    assert CallInv(t, pc);
    if InAssign(pc) {
      assert pc.AClear?;
    } else if InCutover(pc) {
      CutoverRowIsChecked(t, s.orders, pc, ch, i);
    }
  }

  lemma CutoverRowIsChecked(t: Tables, orders: map<nat, Order>, pc: Pc, ch: Choice, i: nat)
    requires CallInv(t, pc) && InCutover(pc) && CutoverEffect(t, orders, pc, ch).Move?
    requires |t.assignments| <= i < |CutoverEffect(t, orders, pc, ch).tables.assignments|
    ensures var x := CutoverEffect(t, orders, pc, ch).tables.assignments[i];
            Checked(pc) && PairOf(pc) == (x.broker, x.ip)
  {
    assert pc.ODrained? || pc.OLate?;
  }

  /** A pair is activated by a new row: no ended one comes back. */
  lemma ActivatedRow(s: State, act: Action, b: nat, ip: nat) returns (i: nat)
    requires Calm(s) && Activates(s, act, b, ip)
    ensures var x := Step(s, act).tables.assignments;
            |s.tables.assignments| <= i < |x| && x[i].broker == b && x[i].ip == ip
  {
    var t, t' := s.tables, Step(s, act).tables;
    i :| i < |t'.assignments| && t'.assignments[i].status == Active
         && t'.assignments[i].broker == b && t'.assignments[i].ip == ip
         && (i >= |t.assignments| || IsEnded(t, i));
    if IsEnded(t, i) {
      EndedReturnsIff(s, act, i);
      NothingRevives(s, act, i);
    }
  }

  lemma ActivationWasChecked(s: State, act: Action, b: nat, ip: nat)
    requires Calm(s) && Activates(s, act, b, ip)
    ensures act.Advance? && act.call in s.calls && Checked(s.calls[act.call]) && PairOf(s.calls[act.call]) == (b, ip)
  {
    var i := ActivatedRow(s, act, b, ip);
    if act.Advance? && act.call in s.calls && EffectOf(s, s.calls[act.call], act.choice).Move? {
      NewRowIsChecked(s, act.call, act.choice, i);
    }
  }

  lemma WaitsForbids(s: State, act: Action, f: Freed, now: int)
    requires Calm(s) && AllCleared(s, now) && now <= ClockAfter(now, act)
    requires Waits(s.tables.usage, f) && Activates(s, act, f.broker, f.ip)
    ensures act.Advance? && f.until <= act.choice.now
  {
    ActivationWasChecked(s, act, f.broker, f.ip);
    assert Cleared(s.tables, s.calls[act.call], now);
    var u :| 0 <= u < |s.tables.usage| && s.tables.usage[u].broker == f.broker && s.tables.usage[u].ip == f.ip
             && s.tables.usage[u].releasedAt.Some? && s.tables.usage[u].eligibleAt == Some(f.until);
  }

  /** A run without overlap, on a clock that never goes back, leads from one state and time to another. */
  ghost predicate Leads(s: State, now: int, acts: seq<Action>, s': State, later: int) {
    && NeverOverlaps(s, acts) && Clocked(now, acts)
    && s' == Exec(s, acts) && later == LastClock(now, acts)
  }

  /** In every interleaving in which no release that has picked overlaps a rotation of its IP: once a
      step has freed a broker from an IP, no later step activates the pair before the cooldown in force at
      that release has elapsed. Here `init` is the start, `release` the step in the state s0 at time t0 that
      frees the pair, and `act` a step in the later state s1 at time t1. */
  lemma NoEarlyReuse(init: State, start: int, before: seq<Action>, s0: State, t0: int, release: Action,
                     after: seq<Action>, s1: State, t1: int, act: Action, f: Freed)
    requires Idle(init) && LiveTracked(init.tables) && Leads(init, start, before, s0, t0)
    requires Frees(s0, release, f) && t0 <= ClockAfter(t0, release)
    requires Leads(Step(s0, release), ClockAfter(t0, release), after, s1, t1)
    requires Activates(s1, act, f.broker, f.ip) && t1 <= ClockAfter(t1, act)
    ensures act.Advance? && f.until <= act.choice.now
  {
    IdleIsCalm(init);
    ClearedRun(init, before, start);
    FreedWaits(s0, release, f);
    CalmStep(s0, release);
    StaysCleared(s0, release, t0);
    var s := Step(s0, release);
    ClearedRun(s, after, ClockAfter(t0, release));
    WaitsRun(s, after, f);
    WaitsForbids(s1, act, f, t1);
  }
}
