/** The interleaved machine and the service agree: every call of the service, run to completion, is a
    run of the machine that leaves the same tables and gives back its locks. */
module IpSolo {
  import opened Common
  import opened IpTables
  import opened Locks
  import opened IpProtocol
  import opened DrainSafety
  import IpService
  import IpManager
  import RotationReplies

  /** A state of one call among others: where it is, the locks, and the tables. */
  function Now(s: State, c: nat, pc: Pc, locks: map<Key, nat>, t: Tables): State {
    s.(calls := s.calls[c := pc], locks := locks, tables := t)
  }

  lemma Enters(s: State, c: nat, pc: Pc)
    requires c !in s.calls && Entry(pc)
    ensures Reaches(s, Now(s, c, pc, s.locks, s.tables), true)
  {
    ReachesItself(s);
    ReachesNext(s, s, Spawn(c, pc), Now(s, c, pc, s.locks, s.tables), true);
  }

  /** One stretch that writes the tables. */
  lemma Goes(init: State, s: State, c: nat, ch: Choice, pc: Pc, locks: map<Key, nat>, t: Tables, next: Pc, t': Tables)
    requires Reaches(init, Now(s, c, pc, locks, t), true)
    requires EffectOf(Now(s, c, pc, locks, t), pc, ch) == Move(next, t')
    ensures Reaches(init, Now(s, c, next, locks, t'), true)
  {
    var here := Now(s, c, pc, locks, t);
    assert Now(s, c, next, locks, t').calls == here.calls[c := next];
    ReachesNext(init, here, Advance(c, ch), Now(s, c, next, locks, t'), true);
  }

  /** One stretch that takes a free lock. */
  lemma Takes(init: State, s: State, c: nat, ch: Choice, pc: Pc, locks: map<Key, nat>, t: Tables, key: Key, got: Pc, refused: Pc)
    requires Reaches(init, Now(s, c, pc, locks, t), true) && key !in locks
    requires EffectOf(Now(s, c, pc, locks, t), pc, ch) == Take(key, got, refused)
    ensures Reaches(init, Now(s, c, got, locks[key := c], t), true)
  {
    var here := Now(s, c, pc, locks, t);
    assert Now(s, c, got, locks[key := c], t).calls == here.calls[c := got];
    ReachesNext(init, here, Advance(c, ch), Now(s, c, got, locks[key := c], t), true);
  }

  /** One stretch that gives a lock back. */
  lemma Gives(init: State, s: State, c: nat, ch: Choice, pc: Pc, locks: map<Key, nat>, t: Tables, key: Key, next: Pc)
    requires key !in locks && Reaches(init, Now(s, c, pc, locks[key := c], t), true)
    requires EffectOf(Now(s, c, pc, locks[key := c], t), pc, ch) == Drop(key, next)
    ensures Reaches(init, Now(s, c, next, locks, t), true)
  {
    var here := Now(s, c, pc, locks[key := c], t);
    assert Now(s, c, next, locks, t).calls == here.calls[c := next];
    assert locks[key := c] - {key} == locks;
    ReachesNext(init, here, Advance(c, ch), Now(s, c, next, locks, t), true);
  }

  // ---------------------------------------------------------------------------
  // Allocate
  // ---------------------------------------------------------------------------

  /** An allocation that is not refused by the provider or by eight collisions. */
  lemma AllocateIsARun(s: State, c: nat, region: string, ch: Choice)
    requires c !in s.calls
    ensures Reaches(s, Now(s, c, Done, s.locks, if ch.ok && ch.id !in s.tables.ips then AllocateTx(s.tables, ch.id, region)
                                                else s.tables), true)
  {
    var t := s.tables;
    Enters(s, c, NStart(region));
    Goes(s, s, c, ch, NStart(region), s.locks, t, Done, if ch.ok && ch.id !in t.ips then AllocateTx(t, ch.id, region) else t);
  }

  // ---------------------------------------------------------------------------
  // Assign
  // ---------------------------------------------------------------------------

  lemma AssignWorks(s: State, c: nat, b: nat, ip: nat, ch: Choice, locks: map<Key, nat>)
    requires Reaches(s, Now(s, c, ABoth(b, ip), locks, s.tables), true)
    ensures Reaches(s, Now(s, c, ALeave(b, ip), locks, IpService.Assigned(s.tables, b, ip, None, ch.now)), true)
  {
    var t := s.tables;
    if ip !in t.ips || t.ips[ip].status == Quarantined || t.ips[ip].status == Attached || b !in t.brokers {
      Goes(s, s, c, ch, ABoth(b, ip), locks, t, ALeave(b, ip), t);
    } else {
      var seen := t.ips[ip].status;
      Goes(s, s, c, ch, ABoth(b, ip), locks, t, AStatus(b, ip, seen), t);
      if !ReuseAllowed(t.usage, b, ip, ch.now) {
        Goes(s, s, c, ch, AStatus(b, ip, seen), locks, t, ALeave(b, ip), t);
      } else {
        Goes(s, s, c, ch, AStatus(b, ip, seen), locks, t, AReuse(b, ip, seen), t);
        AssignCommits(s, c, b, ip, ch, locks);
      }
    }
  }

  lemma AssignCommits(s: State, c: nat, b: nat, ip: nat, ch: Choice, locks: map<Key, nat>)
    requires ip in s.tables.ips && b in s.tables.brokers
    requires s.tables.ips[ip].status != Quarantined && s.tables.ips[ip].status != Attached
    requires ReuseAllowed(s.tables.usage, b, ip, ch.now)
    requires Reaches(s, Now(s, c, AReuse(b, ip, s.tables.ips[ip].status), locks, s.tables), true)
    ensures Reaches(s, Now(s, c, ALeave(b, ip), locks, IpService.Assigned(s.tables, b, ip, None, ch.now)), true)
  {
    var t, seen := s.tables, s.tables.ips[ip].status;
    if ActiveOf(t.assignments, b, 0).Some? {
      Goes(s, s, c, ch, AReuse(b, ip, seen), locks, t, ALeave(b, ip), t);
    } else {
      Goes(s, s, c, ch, AReuse(b, ip, seen), locks, t, AClear(b, ip, seen), t);
      Goes(s, s, c, ch, AClear(b, ip, seen), locks, t, ALeave(b, ip), AssignTx(t, t.brokers[b], b, ip, seen, ch.now));
    }
  }

  lemma AssignIsARun(s: State, c: nat, b: nat, ip: nat, ch: Choice)
    requires c !in s.calls && BrokerKey(b) !in s.locks && IpKey(ip) !in s.locks
    ensures Reaches(s, Now(s, c, Done, s.locks, IpService.Assigned(s.tables, b, ip, None, ch.now)), true)
  {
    var t, t' := s.tables, IpService.Assigned(s.tables, b, ip, None, ch.now);
    var one := s.locks[BrokerKey(b) := c];
    Enters(s, c, AStart(b, ip));
    Takes(s, s, c, ch, AStart(b, ip), s.locks, t, BrokerKey(b), ABroker(b, ip), Done);
    Takes(s, s, c, ch, ABroker(b, ip), one, t, IpKey(ip), ABoth(b, ip), AUndo(b));
    AssignWorks(s, c, b, ip, ch, one[IpKey(ip) := c]);
    Gives(s, s, c, ch, ALeave(b, ip), one, t', IpKey(ip), AUndo(b));
    Gives(s, s, c, ch, AUndo(b), s.locks, t', BrokerKey(b), Done);
  }

  // ---------------------------------------------------------------------------
  // Attach and detach
  // ---------------------------------------------------------------------------

  /** What an attach, or with no instance a detach, leaves by the service's checks. */
  function AttachOrDetach(t: Tables, ip: nat, instance: Option<nat>, fails: bool): Tables {
    match instance
    case Some(i) => if IpService.AttachCheck(t, ip, i, fails).Some? then t else AttachTx(t, ip, i)
    case None => if IpService.DetachCheck(t, ip, fails).Some? then t else DetachTx(t, ip)
  }

  lemma AttachWorks(s: State, c: nat, ip: nat, instance: Option<nat>, fails: bool, locks: map<Key, nat>)
    requires Reaches(s, Now(s, c, THold(ip, instance), locks, s.tables), true)
    ensures Reaches(s, Now(s, c, RLeave(ip), locks, AttachOrDetach(s.tables, ip, instance, fails)), true)
  {
    var t := s.tables;
    var works := if instance.Some? then IpService.AttachCheck(t, ip, instance.value, fails).None? else !fails;
    Goes(s, s, c, Simple(works, 0, 0), THold(ip, instance), locks, t, RLeave(ip), AttachOrDetach(t, ip, instance, fails));
  }

  lemma AttachIsARun(s: State, c: nat, ip: nat, instance: Option<nat>, fails: bool)
    requires c !in s.calls && IpKey(ip) !in s.locks
    ensures Reaches(s, Now(s, c, Done, s.locks, AttachOrDetach(s.tables, ip, instance, fails)), true)
  {
    var t' := AttachOrDetach(s.tables, ip, instance, fails);
    Enters(s, c, TStart(ip, instance));
    Takes(s, s, c, Simple(true, 0, 0), TStart(ip, instance), s.locks, s.tables, IpKey(ip), THold(ip, instance), Done);
    AttachWorks(s, c, ip, instance, fails, s.locks[IpKey(ip) := c]);
    Gives(s, s, c, Simple(true, 0, 0), RLeave(ip), s.locks, t', IpKey(ip), Done);
  }

  // ---------------------------------------------------------------------------
  // Release
  // ---------------------------------------------------------------------------

  lemma ReleaseWorks(s: State, c: nat, ip: nat, ch: Choice, locks: map<Key, nat>)
    requires Reaches(s, Now(s, c, RHold(ip), locks, s.tables), true)
    ensures Reaches(s, Now(s, c, RLeave(ip), locks, IpService.Released(s.tables, ip, ch.now, ch.cooldown, !ch.ok)), true)
  {
    var t, picked := s.tables, Holding(s.tables.assignments, ip, 0);
    if ip !in t.ips || t.ips[ip].status == Attached {
      Goes(s, s, c, ch, RHold(ip), locks, t, RLeave(ip), t);
    } else {
      Goes(s, s, c, ch, RHold(ip), locks, t, RChecked(ip), t);
      Goes(s, s, c, ch, RChecked(ip), locks, t, RPicked(ip, picked, ch.now, ch.cooldown), t);
      ReleaseCommits(s, c, ip, ch, locks);
    }
  }

  lemma ReleaseCommits(s: State, c: nat, ip: nat, ch: Choice, locks: map<Key, nat>)
    requires ip in s.tables.ips && s.tables.ips[ip].status != Attached
    requires Reaches(s, Now(s, c, RPicked(ip, Holding(s.tables.assignments, ip, 0), ch.now, ch.cooldown), locks, s.tables), true)
    ensures Reaches(s, Now(s, c, RLeave(ip), locks, IpService.Released(s.tables, ip, ch.now, ch.cooldown, !ch.ok)), true)
  {
    var t, picked := s.tables, Holding(s.tables.assignments, ip, 0);
    assert InRange(picked, |t.assignments|);
    Goes(s, s, c, ch, RPicked(ip, picked, ch.now, ch.cooldown), locks, t, RLeave(ip),
         IpService.Released(t, ip, ch.now, ch.cooldown, !ch.ok));
  }

  lemma ReleaseIsARun(s: State, c: nat, ip: nat, ch: Choice)
    requires c !in s.calls && IpKey(ip) !in s.locks
    ensures Reaches(s, Now(s, c, Done, s.locks, IpService.Released(s.tables, ip, ch.now, ch.cooldown, !ch.ok)), true)
  {
    var t' := IpService.Released(s.tables, ip, ch.now, ch.cooldown, !ch.ok);
    Enters(s, c, RStart(ip));
    Takes(s, s, c, ch, RStart(ip), s.locks, s.tables, IpKey(ip), RHold(ip), Done);
    ReleaseWorks(s, c, ip, ch, s.locks[IpKey(ip) := c]);
    Gives(s, s, c, ch, RLeave(ip), s.locks, t', IpKey(ip), Done);
  }

  // ---------------------------------------------------------------------------
  // Rotate
  // ---------------------------------------------------------------------------

  /** The environment allows the script: the new IP is unknown, the reuse policy lets it pass unless the
      rotation is reverted, and a drain times out only with an order in flight and nothing forced. A
      rotation that is reverted failed the reuse policy, or could not lock or attach the new IP. */
  ghost predicate Allows(s: State, b: nat, a: nat, script: IpService.Script, forced: bool, now: int) {
    && a < |s.tables.assignments| && ActiveOf(s.tables.assignments, b, 0) == Some(a) && b in s.tables.brokers
    && s.tables.assignments[a].ip in s.tables.ips
    && !script.Refused?
    && script.new_ !in s.tables.ips
    && (!script.Reverted? ==> IpKey(script.new_) !in s.locks && ReuseAllowed(s.tables.usage, b, script.new_, now))
    && (script.TimedOut? ==> InFlight(s.orders, s.tables.assignments[a].ip) != {} && !forced)
  }

  function PlanFor(s: State, b: nat, a: nat, script: IpService.Script, force: bool): Plan
    requires a < |s.tables.assignments| && !script.Refused?
  {
    Plan(b, force, a, s.tables.assignments[a].ip, script.new_)
  }

  function Simple(ok: bool, id: nat, now: int): Choice {
    Choice(ok, id, now, 0, false, false)
  }

  /** A rotation that enters the broker's critical section, or leaves it. */
  lemma RotateEnters(s: State, c: nat, b: nat, force: bool)
    requires c !in s.calls && BrokerKey(b) !in s.locks
    ensures Reaches(s, Now(s, c, OHold(b, force), s.locks[BrokerKey(b) := c], s.tables), true)
  {
    Enters(s, c, OStart(b, force));
    Takes(s, s, c, Simple(true, 0, 0), OStart(b, force), s.locks, s.tables, BrokerKey(b), OHold(b, force), Done);
  }

  lemma RotateLeaves(init: State, s: State, c: nat, b: nat, locks: map<Key, nat>, t: Tables)
    requires BrokerKey(b) !in locks && Reaches(init, Now(s, c, OLeave(b), locks[BrokerKey(b) := c], t), true)
    ensures Reaches(init, Now(s, c, Done, locks, t), true)
  {
    Gives(init, s, c, Simple(true, 0, 0), OLeave(b), locks, t, BrokerKey(b), Done);
  }

  lemma RotateAllocates(s: State, c: nat, b: nat, a: nat, script: IpService.Script, force: bool, forced: bool, now: int)
    requires c !in s.calls && BrokerKey(b) !in s.locks && Allows(s, b, a, script, forced, now)
    ensures var (p, locks) := (PlanFor(s, b, a, script, force), s.locks[BrokerKey(b) := c]);
            Reaches(s, Now(s, c, ONew(p), locks, AllocateTx(s.tables, p.new_, s.tables.ips[p.old_].region)), true)
  {
    var p, locks, t := PlanFor(s, b, a, script, force), s.locks[BrokerKey(b) := c], s.tables;
    var ch := Simple(true, p.new_, now);
    RotateEnters(s, c, b, force);
    Goes(s, s, c, ch, OHold(b, force), locks, t, OSeen(b, force, a, p.old_), t);
    Goes(s, s, c, ch, OSeen(b, force, a, p.old_), locks, t, ONew(p), AllocateTx(t, p.new_, t.ips[p.old_].region));
  }

  lemma RotatePrepares(s: State, c: nat, b: nat, a: nat, script: IpService.Script, force: bool, forced: bool, now: int)
    requires c !in s.calls && BrokerKey(b) !in s.locks && Allows(s, b, a, script, forced, now) && !script.Reverted?
    ensures var (p, locks) := (PlanFor(s, b, a, script, force), s.locks[BrokerKey(b) := c]);
            Reaches(s, Now(s, c, OReady(p), locks, IpService.Prepared(s.tables, a, p.new_, script.attached)), true)
  {
    var p, locks := PlanFor(s, b, a, script, force), s.locks[BrokerKey(b) := c];
    var t := AllocateTx(s.tables, p.new_, s.tables.ips[p.old_].region);
    RotateAllocates(s, c, b, a, script, force, forced, now);
    if script.attached.None? {
      Goes(s, s, c, Simple(false, 0, now), ONew(p), locks, t, OReady(p), t);
    } else {
      Goes(s, s, c, Simple(true, 0, now), ONew(p), locks, t, OAttach(p), t);
      AttachOnTheWay(s, c, p, script.attached.value, locks, t);
    }
  }

  lemma AttachBegins(s: State, c: nat, p: Plan, locks: map<Key, nat>, t: Tables)
    requires IpKey(p.new_) !in locks && Reaches(s, Now(s, c, OAttach(p), locks, t), true)
    ensures Reaches(s, Now(s, c, OAttaching(p), locks[IpKey(p.new_) := c], t), true)
  {
    Takes(s, s, c, Simple(true, 0, 0), OAttach(p), locks, t, IpKey(p.new_), OAttaching(p), OClean(p.broker, p.new_));
  }

  lemma AttachOnTheWay(s: State, c: nat, p: Plan, instance: nat, locks: map<Key, nat>, t: Tables)
    requires p.new_ in t.ips && IpKey(p.new_) !in locks
    requires Reaches(s, Now(s, c, OAttach(p), locks, t), true)
    ensures Reaches(s, Now(s, c, OReady(p), locks, AttachTx(t, p.new_, instance)), true)
  {
    var t' := AttachTx(t, p.new_, instance);
    AttachBegins(s, c, p, locks, t);
    Goes(s, s, c, Simple(true, instance, 0), OAttaching(p), locks[IpKey(p.new_) := c], t, OAttached(p, true), t');
    Gives(s, s, c, Simple(true, 0, 0), OAttached(p, true), locks, t', IpKey(p.new_), OReady(p));
  }

  /** Up to the poll, with the old assignment draining. */
  lemma RotateDrains(s: State, c: nat, b: nat, a: nat, script: IpService.Script, force: bool, forced: bool, now: int)
    requires c !in s.calls && BrokerKey(b) !in s.locks && Allows(s, b, a, script, forced, now) && !script.Reverted?
    ensures var (p, locks) := (PlanFor(s, b, a, script, force), s.locks[BrokerKey(b) := c]);
            Reaches(s, Now(s, c, OPolling(p), locks, DrainTx(IpService.Prepared(s.tables, a, p.new_, script.attached), a)), true)
  {
    var p, locks := PlanFor(s, b, a, script, force), s.locks[BrokerKey(b) := c];
    var ready := IpService.Prepared(s.tables, a, p.new_, script.attached);
    RotatePrepares(s, c, b, a, script, force, forced, now);
    Goes(s, s, c, Simple(true, 0, now), OReady(p), locks, ready, OPolling(p), DrainTx(ready, a));
  }

  // The orders on the old IP finish one by one between two polls.

  function Finish(orders: map<nat, Order>, os: set<nat>): map<nat, Order> {
    map o | o in orders :: if o in os then orders[o].(terminal := true) else orders[o]
  }

  lemma {:induction false} OrdersFinish(init: State, s: State, os: set<nat>)
    requires Reaches(init, s, true) && os <= s.orders.Keys
    ensures Reaches(init, s.(orders := Finish(s.orders, os)), true)
    decreases |os|
  {
    if os == {} {
      assert Finish(s.orders, os) == s.orders;
    } else {
      var o :| o in os;
      var s' := s.(orders := s.orders[o := s.orders[o].(terminal := true)]);
      ReachesNext(init, s, FinishOrder(o), s', true);
      OrdersFinish(init, s', os - {o});
      assert Finish(s'.orders, os - {o}) == Finish(s.orders, os);
    }
  }

  lemma FinishedAreNotInFlight(orders: map<nat, Order>, ip: nat)
    ensures InFlight(Finish(orders, InFlight(orders, ip)), ip) == {}
  {
  }

  /** A poll that sees no order in flight, and the cutover. */
  lemma CutsOver(init: State, s: State, c: nat, p: Plan, locks: map<Key, nat>, t: Tables, now: int, cooldown: int)
    requires Reaches(init, Now(s, c, OPolling(p), locks, t), true) && InFlight(s.orders, p.old_) == {}
    requires p.a < |t.assignments| && t.assignments[p.a].ip in t.ips
    ensures Reaches(init, Now(s, c, OLeave(p.broker), locks, CutoverTx(t, p.a, p.new_, now, cooldown)), true)
  {
    var ch := Choice(true, 0, now, cooldown, false, false);
    Goes(init, s, c, ch, OPolling(p), locks, t, ODrained(p), t);
    Goes(init, s, c, ch, ODrained(p), locks, t, OLeave(p.broker), CutoverTx(t, p.a, p.new_, now, cooldown));
  }

  /** A drain that times out, and the cutover that the caller or the policy forces. */
  lemma ForcesOver(s: State, c: nat, p: Plan, locks: map<Key, nat>, t: Tables, policy: bool, now: int, cooldown: int)
    requires Reaches(s, Now(s, c, OPolling(p), locks, t), true) && InFlight(s.orders, p.old_) != {} && (p.force || policy)
    requires p.a < |t.assignments| && t.assignments[p.a].ip in t.ips
    ensures Reaches(s, Now(s, c, OLeave(p.broker), locks, CutoverTx(t, p.a, p.new_, now, cooldown)), true)
  {
    var ch := Choice(true, 0, now, cooldown, true, policy);
    Goes(s, s, c, ch, OPolling(p), locks, t, OLate(p), t);
    Goes(s, s, c, ch, OLate(p), locks, t, OLeave(p.broker), CutoverTx(t, p.a, p.new_, now, cooldown));
  }

  lemma TimesOut(s: State, c: nat, p: Plan, locks: map<Key, nat>, t: Tables, detachFails: bool)
    requires Reaches(s, Now(s, c, OPolling(p), locks, t), true) && InFlight(s.orders, p.old_) != {} && !p.force
    requires p.a < |t.assignments| && p.new_ in t.ips
    ensures Reaches(s, Now(s, c, OClean(p.broker, p.new_), locks, AbortTx(t, p.a, p.new_, detachFails)), true)
  {
    var ch := Choice(!detachFails, 0, 0, 0, true, false);
    Goes(s, s, c, ch, OPolling(p), locks, t, OLate(p), t);
    Goes(s, s, c, ch, OLate(p), locks, t, OClean(p.broker, p.new_), AbortTx(t, p.a, p.new_, detachFails));
  }

  /** The final clean-up finds the new IP retired already. */
  lemma NothingToClean(s: State, c: nat, b: nat, new_: nat, locks: map<Key, nat>, t: Tables)
    requires Reaches(s, Now(s, c, OClean(b, new_), locks, t), true) && new_ in t.ips && t.ips[new_].status == Retired
    ensures Reaches(s, Now(s, c, OLeave(b), locks, t), true)
  {
    Goes(s, s, c, Simple(true, 0, 0), OClean(b, new_), locks, t, OLeave(b), t);
  }

  /** The attach of the new IP finds its lock held. */
  lemma AttachRefused(s: State, c: nat, p: Plan, locks: map<Key, nat>, t: Tables)
    requires IpKey(p.new_) in locks && locks[IpKey(p.new_)] != c
    requires Reaches(s, Now(s, c, OAttach(p), locks, t), true)
    ensures Reaches(s, Now(s, c, OClean(p.broker, p.new_), locks, t), true)
  {
    var here, there := Now(s, c, OAttach(p), locks, t), Now(s, c, OClean(p.broker, p.new_), locks, t);
    assert there.calls == here.calls[c := OClean(p.broker, p.new_)];
    ReachesNext(s, here, Advance(c, Simple(false, 0, 0)), there, true);
  }

  /** ... or the provider fails it. */
  lemma AttachFails(s: State, c: nat, p: Plan, locks: map<Key, nat>, t: Tables)
    requires IpKey(p.new_) !in locks
    requires Reaches(s, Now(s, c, OAttach(p), locks, t), true)
    ensures Reaches(s, Now(s, c, OClean(p.broker, p.new_), locks, t), true)
  {
    var ch := Simple(false, 0, 0);
    AttachBegins(s, c, p, locks, t);
    Goes(s, s, c, ch, OAttaching(p), locks[IpKey(p.new_) := c], t, OAttached(p, false), t);
    Gives(s, s, c, ch, OAttached(p, false), locks, t, IpKey(p.new_), OClean(p.broker, p.new_));
  }

  /** The orders when the rotation is over: an unforced cutover waits until those on the old IP are
      finished. */
  function OrdersAfter(s: State, a: nat, script: IpService.Script, forced: bool): map<nat, Order>
    requires a < |s.tables.assignments|
  {
    if script.CutOver? && !forced then Finish(s.orders, InFlight(s.orders, s.tables.assignments[a].ip)) else s.orders
  }

  lemma RotateCutsOver(s: State, c: nat, b: nat, a: nat, script: IpService.Script, force: bool, policy: bool, now: int)
    requires c !in s.calls && BrokerKey(b) !in s.locks && Allows(s, b, a, script, force || policy, now) && script.CutOver?
    ensures var after := s.(orders := OrdersAfter(s, a, script, force || policy));
            Reaches(s, Now(after, c, OLeave(b), s.locks[BrokerKey(b) := c], IpService.Rotated(s.tables, a, script)), true)
  {
    var p, locks := PlanFor(s, b, a, script, force), s.locks[BrokerKey(b) := c];
    var drains := DrainTx(IpService.Prepared(s.tables, a, p.new_, script.attached), a);
    RotateDrains(s, c, b, a, script, force, force || policy, now);
    if !force && !policy {
      var after := s.(orders := OrdersAfter(s, a, script, false));
      OrdersFinish(s, Now(s, c, OPolling(p), locks, drains), InFlight(s.orders, p.old_));
      FinishedAreNotInFlight(s.orders, p.old_);
      assert Now(s, c, OPolling(p), locks, drains).(orders := after.orders) == Now(after, c, OPolling(p), locks, drains);
      CutsOver(s, after, c, p, locks, drains, script.now, script.cooldown);
    } else if InFlight(s.orders, p.old_) == {} {
      CutsOver(s, s, c, p, locks, drains, script.now, script.cooldown);
    } else {
      ForcesOver(s, c, p, locks, drains, policy, script.now, script.cooldown);
    }
  }

  lemma RotateTimesOut(s: State, c: nat, b: nat, a: nat, script: IpService.Script, now: int)
    requires c !in s.calls && BrokerKey(b) !in s.locks && Allows(s, b, a, script, false, now) && script.TimedOut?
    ensures Reaches(s, Now(s, c, OLeave(b), s.locks[BrokerKey(b) := c], IpService.Rotated(s.tables, a, script)), true)
  {
    var p, locks := PlanFor(s, b, a, script, false), s.locks[BrokerKey(b) := c];
    var drains := DrainTx(IpService.Prepared(s.tables, a, p.new_, script.attached), a);
    RotateDrains(s, c, b, a, script, false, false, now);
    TimesOut(s, c, p, locks, drains, script.detachFails);
    NothingToClean(s, c, b, p.new_, locks, AbortTx(drains, a, p.new_, script.detachFails));
  }

  lemma RotateGivesUp(s: State, c: nat, p: Plan, locks: map<Key, nat>, t: Tables, now: int)
    requires Reaches(s, Now(s, c, ONew(p), locks, t), true)
    requires IpKey(p.new_) in locks ==> locks[IpKey(p.new_)] != c
    ensures Reaches(s, Now(s, c, OClean(p.broker, p.new_), locks, t), true)
  {
    if !ReuseAllowed(t.usage, p.broker, p.new_, now) {
      Goes(s, s, c, Simple(true, 0, now), ONew(p), locks, t, OClean(p.broker, p.new_), t);
    } else {
      Goes(s, s, c, Simple(true, 0, now), ONew(p), locks, t, OAttach(p), t);
      if IpKey(p.new_) in locks {
        AttachRefused(s, c, p, locks, t);
      } else {
        AttachFails(s, c, p, locks, t);
      }
    }
  }

  lemma RotateReverts(s: State, c: nat, b: nat, a: nat, script: IpService.Script, force: bool, forced: bool, now: int)
    requires c !in s.calls && c !in s.locks.Values && BrokerKey(b) !in s.locks
    requires Allows(s, b, a, script, forced, now) && script.Reverted?
    requires forall i :: 0 <= i < |s.tables.assignments| ==> s.tables.assignments[i].ip in s.tables.ips
    ensures Reaches(s, Now(s, c, OLeave(b), s.locks[BrokerKey(b) := c], IpService.Rotated(s.tables, a, script)), true)
  {
    var p, locks := PlanFor(s, b, a, script, force), s.locks[BrokerKey(b) := c];
    var t := AllocateTx(s.tables, p.new_, s.tables.ips[p.old_].region);
    RotateAllocates(s, c, b, a, script, force, forced, now);
    RotateGivesUp(s, c, p, locks, t, now);
    assert !ActiveOn(t.assignments, p.new_);
    Goes(s, s, c, Simple(true, 0, now), OClean(b, p.new_), locks, t, OLeave(b), CleanTx(t, p.new_, false));
  }

  /** A rotation is refused, with nothing changed: the broker lock is held, the broker is unknown or has
      no active assignment, or no new IP can be allocated. */
  lemma RefusalIsARun(s: State, c: nat, b: nat, force: bool)
    requires c !in s.calls && c !in s.locks.Values
    ensures Reaches(s, Now(s, c, Done, s.locks, s.tables), true)
  {
    if BrokerKey(b) in s.locks {
      Enters(s, c, OStart(b, force));
      IsRefused(s, c, b, force);
    } else {
      RotateEnters(s, c, b, force);
      TurnsBack(s, c, b, force, s.locks[BrokerKey(b) := c]);
      RotateLeaves(s, s, c, b, s.locks, s.tables);
    }
  }

  lemma TurnsBack(s: State, c: nat, b: nat, force: bool, locks: map<Key, nat>)
    requires Reaches(s, Now(s, c, OHold(b, force), locks, s.tables), true)
    ensures Reaches(s, Now(s, c, OLeave(b), locks, s.tables), true)
  {
    var t, ch, a := s.tables, Simple(false, 0, 0), ActiveOf(s.tables.assignments, b, 0);
    if b !in t.brokers || a.None? {
      Goes(s, s, c, ch, OHold(b, force), locks, t, OLeave(b), t);
    } else {
      var old_ := t.assignments[a.value].ip;
      Goes(s, s, c, ch, OHold(b, force), locks, t, OSeen(b, force, a.value, old_), t);
      Goes(s, s, c, ch, OSeen(b, force, a.value, old_), locks, t, OLeave(b), t);
    }
  }

  lemma IsRefused(s: State, c: nat, b: nat, force: bool)
    requires Reaches(s, Now(s, c, OStart(b, force), s.locks, s.tables), true)
    requires BrokerKey(b) in s.locks && c !in s.locks.Values
    ensures Reaches(s, Now(s, c, Done, s.locks, s.tables), true)
  {
    var here := Now(s, c, OStart(b, force), s.locks, s.tables);
    assert s.locks[BrokerKey(b)] in s.locks.Values;
    assert Now(s, c, Done, s.locks, s.tables).calls == here.calls[c := Done];
    ReachesNext(s, here, Advance(c, Simple(false, 0, 0)), Now(s, c, Done, s.locks, s.tables), true);
  }

  lemma RotationSettles(s: State, c: nat, b: nat, a: nat, script: IpService.Script, force: bool, policy: bool, now: int)
    requires c !in s.calls && c !in s.locks.Values && BrokerKey(b) !in s.locks
    requires Allows(s, b, a, script, force || policy, now)
    requires forall i :: 0 <= i < |s.tables.assignments| ==> s.tables.assignments[i].ip in s.tables.ips
    ensures var after := s.(orders := OrdersAfter(s, a, script, force || policy));
            Reaches(s, Now(after, c, OLeave(b), s.locks[BrokerKey(b) := c], IpService.Rotated(s.tables, a, script)), true)
  {
    match script
    case Reverted(_) => RotateReverts(s, c, b, a, script, force, force || policy, now);
    case TimedOut(_, _, _) => RotateTimesOut(s, c, b, a, script, now);
    case CutOver(_, _, _, _) => RotateCutsOver(s, c, b, a, script, force, policy, now);
  }

  /** Every rotation that the service can go through is a run of the machine: refused, reverted, timed
      out, cut over once the orders on the old IP are finished, or cut over by force with orders in
      flight. */
  lemma RotationIsARun(s: State, c: nat, b: nat, a: nat, script: IpService.Script, force: bool, policy: bool, now: int)
    requires c !in s.calls && c !in s.locks.Values
    requires a < |s.tables.assignments| && s.tables.assignments[a].ip in s.tables.ips
    requires !script.Refused? ==> BrokerKey(b) !in s.locks && Allows(s, b, a, script, force || policy, now)
    requires forall i :: 0 <= i < |s.tables.assignments| ==> s.tables.assignments[i].ip in s.tables.ips
    ensures var after := s.(orders := OrdersAfter(s, a, script, force || policy));
            Reaches(s, Now(after, c, Done, s.locks, IpService.Rotated(s.tables, a, script)), true)
  {
    if script.Refused? {
      RefusalIsARun(s, c, b, force);
    } else {
      RotationSettles(s, c, b, a, script, force, policy, now);
      RotateLeaves(s, s.(orders := OrdersAfter(s, a, script, force || policy)), c, b, s.locks,
                   IpService.Rotated(s.tables, a, script));
    }
  }

  /** The first poll sees the orders of the state, and the addresses that the provider creates are new. */
  ghost predicate Observes(s: State, env: IpManager.Environment) {
    && (forall ip :: RotationReplies.Busy(env.polls.orders(0), ip) <==> InFlight(s.orders, ip) != {})
    && (forall n :: env.tries(n).Creates? ==> env.tries(n).ip !in s.tables.ips && IpKey(env.tries(n).ip) !in s.locks)
  }

  /** So is every rotation of the service object: the reply's tables are those of a run of the machine, in
      which orders on the old IP may have finished. */
  lemma ServiceRotationIsARun(s: State, c: nat, b: nat, force: bool, env: IpManager.Environment)
    returns (orders: map<nat, Order>)
    requires c !in s.calls && c !in s.locks.Values && IpService.Refers(s.tables) && Observes(s, env)
    ensures Reaches(s, Now(s.(orders := orders), c, Done, s.locks, IpManager.AfterRotation(s.tables, s.locks, b, force, env)), true)
  {
    var script := IpManager.ScriptOf(s.tables, s.locks, b, force, env);
    orders := s.orders;
    if script.Refused? {
      RefusalIsARun(s, c, b, force);
      assert s.(orders := orders) == s;
    } else {
      var a := IpManager.Rotating(s.tables, s.locks, b, env);
      ScriptIsAllowed(s, b, force, env);
      orders := OrdersAfter(s, a, script, force || env.forcePolicy);
      RotationIsARun(s, c, b, a, script, force, env.forcePolicy, env.reuseAt);
    }
  }

  lemma ScriptIsAllowed(s: State, b: nat, force: bool, env: IpManager.Environment)
    requires IpService.Refers(s.tables) && Observes(s, env)
    requires !IpManager.ScriptOf(s.tables, s.locks, b, force, env).Refused?
    ensures var (script, a) := (IpManager.ScriptOf(s.tables, s.locks, b, force, env), IpManager.Rotating(s.tables, s.locks, b, env));
            Allows(s, b, a, script, force || env.forcePolicy, env.reuseAt) && BrokerKey(b) !in s.locks
  {
    var a, new_ := IpManager.Rotating(s.tables, s.locks, b, env), IpManager.Allocation(env.tries, 0).value;
    AllocatedIsNew(env.tries, 0);
    assert ReuseAllowed(s.tables.usage, b, new_, env.reuseAt);
    var old_ := s.tables.assignments[a].ip;
    RotationReplies.DrainsIff(env.polls, old_, env.timeout);
    if InFlight(s.orders, old_) == {} {
      assert !RotationReplies.Busy(env.polls.orders(0), old_);
    }
  }

  lemma {:induction false} AllocatedIsNew(tries: nat -> IpManager.Try, n: nat)
    ensures IpManager.Allocation(tries, n).Ok? ==> exists k :: tries(k) == IpManager.Creates(IpManager.Allocation(tries, n).value)
    decreases 8 - n
  {
    if n < 8 && tries(n).Collides? {
      AllocatedIsNew(tries, n + 1);
    }
  }
}
