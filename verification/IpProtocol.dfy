/** Allocate, assign, attach, detach, release and rotate as calls that interleave: each action is one stretch of
    one call up to its next await, and orders are routed, submitted and finished in between, routing and
    submission as one step or as one read for each broker and a submission. */
module IpProtocol {
  import opened Common
  import opened IpTables
  import opened Locks

  /** What a rotation has decided so far. */
  datatype Plan = Plan(broker: nat, force: bool, a: nat, old_: nat, new_: nat)

  datatype Pc =
    // assign
    | AStart(broker: nat, ip: nat)
    | ABroker(broker: nat, ip: nat)
    | AUndo(broker: nat)
    | ABoth(broker: nat, ip: nat)
    | AStatus(broker: nat, ip: nat, seen: IpStatus)
    | AReuse(broker: nat, ip: nat, seen: IpStatus)
    | AClear(broker: nat, ip: nat, seen: IpStatus)
    | ALeave(broker: nat, ip: nat)
    // release
    | RStart(ip: nat)
    | RHold(ip: nat)
    | RChecked(ip: nat)
    | RPicked(ip: nat, picked: seq<nat>, now: int, cooldown: int)
    | RLeave(ip: nat)
    // attach and detach
    | TStart(ip: nat, instance: Option<nat>)
    | THold(ip: nat, instance: Option<nat>)
    // allocate
    | NStart(region: string)
    // rotate
    | OStart(broker: nat, force: bool)
    | OHold(broker: nat, force: bool)
    | OSeen(broker: nat, force: bool, a: nat, old_: nat)
    | ONew(plan: Plan)
    | OAttach(plan: Plan)
    | OAttaching(plan: Plan)
    | OAttached(plan: Plan, ok: bool)
    | OReady(plan: Plan)
    | OPolling(plan: Plan)
    | ODrained(plan: Plan)
    | OLate(plan: Plan)
    | OClean(broker: nat, new_: nat)
    | OLeave(broker: nat)
    | Done

  /** An order: the IP it uses, and whether it has reached a terminal status. */
  datatype Order = Order(ip: Option<nat>, terminal: bool)

  /** `routed` holds, for each routed order, the IPs that routing has read so far, broker by broker. */
  datatype State = State(
    tables: Tables,
    locks: map<Key, nat>,
    calls: map<nat, Pc>,
    orders: map<nat, Order>,
    routed: map<nat, seq<Option<nat>>>)

  /** Everything the environment decides about one stretch of a call. */
  datatype Choice = Choice(ok: bool, id: nat, now: int, cooldown: int, late: bool, forcePolicy: bool)

  datatype Action =
    | Spawn(call: nat, pc: Pc)
    | Advance(call: nat, choice: Choice)
    | SubmitOrder(order: nat, broker: nat)
    | BeginRouting(order: nat)
    | ReadIp(order: nat, broker: nat)
    | SubmitRouted(order: nat, position: nat)
    | FinishOrder(order: nat)

  // ---------------------------------------------------------------------------
  // The calls, one stretch at a time
  // ---------------------------------------------------------------------------

  /** What a stretch does: write the tables and move on, or try a lock, or give one back. */
  datatype Effect =
    | Move(next: Pc, tables: Tables)
    | Take(key: Key, got: Pc, refused: Pc)
    | Drop(key: Key, next: Pc)

  predicate InAssign(pc: Pc) {
    pc.AStart? || pc.ABroker? || pc.AUndo? || pc.ABoth? || pc.AStatus? || pc.AReuse? || pc.AClear? || pc.ALeave?
  }

  function AssignEffect(t: Tables, pc: Pc, ch: Choice): Effect
    requires InAssign(pc)
  {
    match pc
    case AStart(b, ip) => Take(BrokerKey(b), ABroker(b, ip), Done)
    case ABroker(b, ip) => Take(IpKey(ip), ABoth(b, ip), AUndo(b))
    case AUndo(b) => Drop(BrokerKey(b), Done)
    case ABoth(b, ip) =>
      if ip !in t.ips || t.ips[ip].status == Quarantined || t.ips[ip].status == Attached || b !in t.brokers
      then Move(ALeave(b, ip), t) else Move(AStatus(b, ip, t.ips[ip].status), t)
    case AStatus(b, ip, seen) =>
      Move(if ReuseAllowed(t.usage, b, ip, ch.now) then AReuse(b, ip, seen) else ALeave(b, ip), t)
    case AReuse(b, ip, seen) =>
      Move(if ActiveOf(t.assignments, b, 0).None? then AClear(b, ip, seen) else ALeave(b, ip), t)
    case AClear(b, ip, seen) =>
      Move(ALeave(b, ip), if ip in t.ips && b in t.brokers then AssignTx(t, t.brokers[b], b, ip, seen, ch.now) else t)
    case ALeave(b, ip) => Drop(IpKey(ip), AUndo(b))
  }

  predicate InRelease(pc: Pc) {
    pc.RStart? || pc.RHold? || pc.RChecked? || pc.RPicked? || pc.RLeave? || pc.TStart? || pc.THold?
  }

  /** Release, and attach or detach, which end alike. The provider may fail before the commit. */
  function ReleaseEffect(t: Tables, pc: Pc, ch: Choice): Effect
    requires InRelease(pc)
  {
    match pc
    case RStart(ip) => Take(IpKey(ip), RHold(ip), Done)
    case RHold(ip) => Move(if ip !in t.ips || t.ips[ip].status == Attached then RLeave(ip) else RChecked(ip), t)
    case RChecked(ip) => Move(RPicked(ip, Holding(t.assignments, ip, 0), ch.now, ch.cooldown), t)
    case RPicked(ip, picked, now, cooldown) =>
      Move(RLeave(ip), if ch.ok && ip in t.ips && InRange(picked, |t.assignments|) then ReleaseTx(t, picked, ip, now, cooldown) else t)
    case RLeave(ip) => Drop(IpKey(ip), Done)
    case TStart(ip, instance) => Take(IpKey(ip), THold(ip, instance), Done)
    case THold(ip, instance) =>
      Move(RLeave(ip), if !ch.ok || ip !in t.ips then t
                       else if instance.Some? then AttachTx(t, ip, instance.value) else DetachTx(t, ip))
  }

  predicate InPrepare(pc: Pc) {
    pc.NStart? || pc.OStart? || pc.OHold? || pc.OSeen? || pc.ONew? || pc.OAttach? || pc.OAttaching? || pc.OAttached?
  }

  /** An allocation, and a rotation from the broker lock to a new IP that is ready to take over. An
      allocation may fail, and takes no lock. */
  function PrepareEffect(t: Tables, pc: Pc, ch: Choice): Effect
    requires InPrepare(pc)
  {
    match pc
    case NStart(region) => Move(Done, if ch.ok && ch.id !in t.ips then AllocateTx(t, ch.id, region) else t)
    case OStart(b, force) => Take(BrokerKey(b), OHold(b, force), Done)
    case OHold(b, force) =>
      var a := ActiveOf(t.assignments, b, 0);
      Move(if b !in t.brokers || a.None? then OLeave(b) else OSeen(b, force, a.value, t.assignments[a.value].ip), t)
    case OSeen(b, force, a, old_) =>
      if ch.ok && ch.id !in t.ips && old_ in t.ips
      then Move(ONew(Plan(b, force, a, old_, ch.id)), AllocateTx(t, ch.id, t.ips[old_].region))
      else Move(OLeave(b), t)
    case ONew(p) =>
      Move(if !ReuseAllowed(t.usage, p.broker, p.new_, ch.now) then OClean(p.broker, p.new_)
           else if ch.ok then OAttach(p) else OReady(p), t)
    case OAttach(p) => Take(IpKey(p.new_), OAttaching(p), OClean(p.broker, p.new_))
    case OAttaching(p) =>
      if ch.ok && p.new_ in t.ips then Move(OAttached(p, true), AttachTx(t, p.new_, ch.id)) else Move(OAttached(p, false), t)
    case OAttached(p, ok) => Drop(IpKey(p.new_), if ok then OReady(p) else OClean(p.broker, p.new_))
  }

  predicate InCutover(pc: Pc) {
    pc.OReady? || pc.OPolling? || pc.ODrained? || pc.OLate? || pc.OClean? || pc.OLeave? || pc.Done?
  }

  function InFlight(orders: map<nat, Order>, ip: nat): set<nat> {
    set o | o in orders && orders[o].ip == Some(ip) && !orders[o].terminal
  }

  /** From the draining commit to the end. */
  function CutoverEffect(t: Tables, orders: map<nat, Order>, pc: Pc, ch: Choice): Effect
    requires InCutover(pc)
  {
    match pc
    case OReady(p) =>
      if p.a < |t.assignments| then Move(OPolling(p), DrainTx(t, p.a)) else Move(OLeave(p.broker), t)
    case OPolling(p) =>
      Move(if InFlight(orders, p.old_) == {} then ODrained(p) else if ch.late then OLate(p) else OPolling(p), t)
    case ODrained(p) => Move(OLeave(p.broker), CutoverIfThere(t, p, ch))
    case OLate(p) =>
      if p.force || ch.forcePolicy then Move(OLeave(p.broker), CutoverIfThere(t, p, ch))
      else Move(OClean(p.broker, p.new_),
                if p.a < |t.assignments| && p.new_ in t.ips then AbortTx(t, p.a, p.new_, !ch.ok) else t)
    case OClean(b, new_) =>
      Move(OLeave(b), if new_ in t.ips && !ActiveOn(t.assignments, new_) && t.ips[new_].status != Retired
                      then CleanTx(t, new_, !ch.ok) else t)
    case OLeave(b) => Drop(BrokerKey(b), Done)
    case Done => Move(Done, t)
  }

  function CutoverIfThere(t: Tables, p: Plan, ch: Choice): Tables {
    if p.a < |t.assignments| && t.assignments[p.a].ip in t.ips then CutoverTx(t, p.a, p.new_, ch.now, ch.cooldown) else t
  }

  function EffectOf(s: State, pc: Pc, ch: Choice): Effect {
    if InAssign(pc) then AssignEffect(s.tables, pc, ch)
    else if InRelease(pc) then ReleaseEffect(s.tables, pc, ch)
    else if InPrepare(pc) then PrepareEffect(s.tables, pc, ch)
    else CutoverEffect(s.tables, s.orders, pc, ch)
  }

  /** The in-process lock, with the call as its token. */
  function Apply(s: State, c: nat, e: Effect): State {
    match e
    case Move(next, t) => s.(calls := s.calls[c := next], tables := t)
    case Take(key, got, refused) =>
      if key in s.locks && s.locks[key] != c then s.(calls := s.calls[c := refused])
      else s.(calls := s.calls[c := got], locks := s.locks[key := c])
    case Drop(key, next) =>
      if key in s.locks && s.locks[key] == c then s.(calls := s.calls[c := next], locks := s.locks - {key})
      else s.(calls := s.calls[c := next])
  }

  predicate Entry(pc: Pc) {
    pc.AStart? || pc.RStart? || pc.TStart? || pc.NStart? || pc.OStart?
  }

  /** The IP that routing reads for a broker. */
  function IpOf(t: Tables, broker: nat): Option<nat> {
    var a := ActiveOf(t.assignments, broker, 0);
    if a.Some? then Some(t.assignments[a.value].ip) else None
  }

  /** What routing read for one of the brokers of an order. */
  function RoutedTo(s: State, o: nat, k: nat): Option<nat> {
    if o in s.routed && k < |s.routed[o]| then s.routed[o][k] else None
  }

  predicate Finished(s: State, o: nat) {
    o in s.orders && s.orders[o].terminal
  }

  /** An order that is not finished goes out on an IP, or on none. */
  function Submitted(s: State, o: nat, ip: Option<nat>): State {
    if Finished(s, o) then s else s.(orders := s.orders[o := Order(ip, false)])
  }

  function Step(s: State, act: Action): State {
    match act
    case Spawn(c, pc) => if c in s.calls || !Entry(pc) then s else s.(calls := s.calls[c := pc])
    case Advance(c, ch) => if c in s.calls then Apply(s, c, EffectOf(s, s.calls[c], ch)) else s
    case SubmitOrder(o, b) => Submitted(s, o, IpOf(s.tables, b))
    case BeginRouting(o) => s.(routed := s.routed[o := []])
    case ReadIp(o, b) => if o in s.routed then s.(routed := s.routed[o := s.routed[o] + [IpOf(s.tables, b)]]) else s
    case SubmitRouted(o, k) =>
      if o in s.routed && k < |s.routed[o]| then Submitted(s, o, s.routed[o][k]) else s
    case FinishOrder(o) => if o in s.orders then s.(orders := s.orders[o := s.orders[o].(terminal := true)]) else s
  }

  function Exec(s: State, acts: seq<Action>): State
    decreases |acts|
  {
    if acts == [] then s else Exec(Step(s, acts[0]), acts[1..])
  }

  // ---------------------------------------------------------------------------
  // Locks
  // ---------------------------------------------------------------------------

  /** The locks that a call holds at each point. */
  function Held(pc: Pc): set<Key> {
    match pc
    case ABroker(b, _) => {BrokerKey(b)}
    case AUndo(b) => {BrokerKey(b)}
    case ABoth(b, ip) => {BrokerKey(b), IpKey(ip)}
    case AStatus(b, ip, _) => {BrokerKey(b), IpKey(ip)}
    case AReuse(b, ip, _) => {BrokerKey(b), IpKey(ip)}
    case AClear(b, ip, _) => {BrokerKey(b), IpKey(ip)}
    case ALeave(b, ip) => {BrokerKey(b), IpKey(ip)}
    case RHold(ip) => {IpKey(ip)}
    case RChecked(ip) => {IpKey(ip)}
    case RPicked(ip, _, _, _) => {IpKey(ip)}
    case RLeave(ip) => {IpKey(ip)}
    case THold(ip, _) => {IpKey(ip)}
    case OHold(b, _) => {BrokerKey(b)}
    case OSeen(b, _, _, _) => {BrokerKey(b)}
    case ONew(p) => {BrokerKey(p.broker)}
    case OAttach(p) => {BrokerKey(p.broker)}
    case OAttaching(p) => {BrokerKey(p.broker), IpKey(p.new_)}
    case OAttached(p, _) => {BrokerKey(p.broker), IpKey(p.new_)}
    case OReady(p) => {BrokerKey(p.broker)}
    case OPolling(p) => {BrokerKey(p.broker)}
    case ODrained(p) => {BrokerKey(p.broker)}
    case OLate(p) => {BrokerKey(p.broker)}
    case OClean(b, _) => {BrokerKey(b)}
    case OLeave(b) => {BrokerKey(b)}
    case _ => {}
  }

  function HeldBy(calls: map<nat, Pc>): map<nat, set<Key>> {
    map c | c in calls :: Held(calls[c])
  }

  ghost predicate Consistent(locks: map<Key, nat>, held: map<nat, set<Key>>) {
    && (forall key :: key in locks ==> locks[key] in held && key in held[locks[key]])
    && (forall c, key :: c in held && key in held[c] ==> key in locks && locks[key] == c)
  }

  /** The lock table says exactly who is inside which critical section. */
  ghost predicate LockInv(s: State) {
    Consistent(s.locks, HeldBy(s.calls))
  }

  lemma HeldAfter(calls: map<nat, Pc>, c: nat, pc: Pc)
    ensures HeldBy(calls[c := pc]) == HeldBy(calls)[c := Held(pc)]
  {
  }

  lemma TakeConsistent(locks: map<Key, nat>, held: map<nat, set<Key>>, c: nat, key: Key)
    requires Consistent(locks, held) && c in held && (key !in locks || locks[key] == c)
    ensures Consistent(locks[key := c], held[c := held[c] + {key}])
  {
  }

  lemma DropConsistent(locks: map<Key, nat>, held: map<nat, set<Key>>, c: nat, key: Key)
    requires Consistent(locks, held) && c in held && key in held[c]
    ensures Consistent(locks - {key}, held[c := held[c] - {key}])
  {
    var held' := held[c := held[c] - {key}];
    forall d, k | d in held' && k in held'[d]
      ensures k in locks - {key} && (locks - {key})[k] == d
    {
      assert k in held[d];
      assert locks[k] == d && locks[key] == c;
    }
  }

  /** The next point of a call holds exactly the locks it has after the effect. */
  predicate Balanced(pc: Pc, e: Effect) {
    match e
    case Move(next, _) => Held(next) == Held(pc)
    case Take(key, got, refused) => Held(got) == Held(pc) + {key} && Held(refused) == Held(pc)
    case Drop(key, next) => key in Held(pc) && Held(next) == Held(pc) - {key}
  }

  lemma AssignIsBalanced(t: Tables, pc: Pc, ch: Choice)
    requires InAssign(pc)
    ensures Balanced(pc, AssignEffect(t, pc, ch))
  {
  }

  lemma ReleaseIsBalanced(t: Tables, pc: Pc, ch: Choice)
    requires InRelease(pc)
    ensures Balanced(pc, ReleaseEffect(t, pc, ch))
  {
  }

  lemma PrepareIsBalanced(t: Tables, pc: Pc, ch: Choice)
    requires InPrepare(pc)
    ensures Balanced(pc, PrepareEffect(t, pc, ch))
  {
  }

  lemma CutoverIsBalanced(t: Tables, orders: map<nat, Order>, pc: Pc, ch: Choice)
    requires InCutover(pc)
    ensures Balanced(pc, CutoverEffect(t, orders, pc, ch))
  {
  }

  lemma EffectIsBalanced(s: State, pc: Pc, ch: Choice)
    ensures Balanced(pc, EffectOf(s, pc, ch))
  {
    if InAssign(pc) {
      AssignIsBalanced(s.tables, pc, ch);
    } else if InRelease(pc) {
      ReleaseIsBalanced(s.tables, pc, ch);
    } else if InPrepare(pc) {
      PrepareIsBalanced(s.tables, pc, ch);
    } else {
      CutoverIsBalanced(s.tables, s.orders, pc, ch);
    }
  }

  lemma BalancedKeepsLocks(s: State, c: nat, e: Effect)
    requires LockInv(s) && c in s.calls && Balanced(s.calls[c], e)
    ensures LockInv(Apply(s, c, e))
  {
    var s' := Apply(s, c, e);
    var pc, next := s.calls[c], s'.calls[c];
    if s'.locks == s.locks && Held(next) == Held(pc) {
      SameLocks(s, c, next);
    } else if e.Take? {
      LockTaken(s, c, e.key, next);
    } else {
      LockDropped(s, c, e.key, next);
    }
  }

  lemma SameLocks(s: State, c: nat, next: Pc)
    requires LockInv(s) && c in s.calls && Held(next) == Held(s.calls[c])
    ensures Consistent(s.locks, HeldBy(s.calls[c := next]))
  {
    HeldAfter(s.calls, c, next);
    assert HeldBy(s.calls)[c := Held(next)] == HeldBy(s.calls);
  }

  lemma LockTaken(s: State, c: nat, key: Key, next: Pc)
    requires LockInv(s) && c in s.calls && (key !in s.locks || s.locks[key] == c)
    requires Held(next) == Held(s.calls[c]) + {key}
    ensures Consistent(s.locks[key := c], HeldBy(s.calls[c := next]))
  {
    HeldAfter(s.calls, c, next);
    TakeConsistent(s.locks, HeldBy(s.calls), c, key);
  }

  lemma LockDropped(s: State, c: nat, key: Key, next: Pc)
    requires LockInv(s) && c in s.calls && key in Held(s.calls[c]) && Held(next) == Held(s.calls[c]) - {key}
    ensures key in s.locks && s.locks[key] == c
    ensures Consistent(s.locks - {key}, HeldBy(s.calls[c := next]))
  {
    HeldAfter(s.calls, c, next);
    assert key in HeldBy(s.calls)[c];
    DropConsistent(s.locks, HeldBy(s.calls), c, key);
  }

  lemma LockInvStep(s: State, act: Action)
    requires LockInv(s)
    ensures LockInv(Step(s, act))
  {
    match act
    case Spawn(c, pc) =>
      if c !in s.calls && Entry(pc) {
        HeldAfter(s.calls, c, pc);
      }
    case Advance(c, ch) =>
      if c in s.calls {
        EffectIsBalanced(s, s.calls[c], ch);
        BalancedKeepsLocks(s, c, EffectOf(s, s.calls[c], ch));
      }
    case SubmitOrder(o, b) =>
    case BeginRouting(o) =>
    case ReadIp(o, b) =>
    case SubmitRouted(o, k) =>
    case FinishOrder(o) =>
  }
}
