/** What draining protects: the orders in flight on the old IP of a rotation, as long as no other broker
    is assigned the IP and no order is submitted on a chain that was routed before the drain. Without
    either condition the protection fails. */
module DrainSafety {
  import opened Common
  import opened IpTables
  import opened Locks
  import opened IpProtocol
  import opened IpSafety

  predicate OnIp(t: Tables, broker: nat, ip: nat) {
    IpOf(t, broker) == Some(ip)
  }

  /** No other broker is actively assigned the IP that is being drained. */
  ghost predicate Alone(s: State, p: Plan) {
    forall b :: b != p.broker ==> !OnIp(s.tables, b, p.old_)
  }

  ghost predicate AllAlone(s: State) {
    forall c :: c in s.calls && InDrain(s.calls[c]) ==> Alone(s, s.calls[c].plan)
  }

  predicate Submits(s: State, act: Action, ip: nat) {
    || (act.SubmitOrder? && OnIp(s.tables, act.broker, ip))
    || (act.SubmitRouted? && RoutedTo(s, act.order, act.position) == Some(ip))
  }

  /** The orders in flight on an IP gain a member exactly when a new or moved order is submitted there. */
  lemma GrowsIffSubmitted(s: State, act: Action, ip: nat)
    ensures !(InFlight(Step(s, act).orders, ip) <= InFlight(s.orders, ip))
            <==> Submits(s, act, ip) && act.order !in InFlight(s.orders, ip)
                 && !Finished(s, act.order)
  {
    var after := Step(s, act).orders;
    if act.SubmitOrder? || act.SubmitRouted? {
      assert forall o :: o != act.order ==> (o in InFlight(after, ip) <==> o in InFlight(s.orders, ip));
      var moves := Submits(s, act, ip) && !Finished(s, act.order);
      assert moves ==> act.order in InFlight(after, ip);
    } else if act.FinishOrder? {
      assert forall o :: o in InFlight(after, ip) ==> o in InFlight(s.orders, ip);
    }
  }

  /** While a rotation drains, its own broker has no active assignment at all. */
  lemma DrainedBrokerIsNowhere(s: State, c: nat, ip: nat)
    requires Inv(s) && c in s.calls && InDrain(s.calls[c])
    ensures !OnIp(s.tables, s.calls[c].plan.broker, ip)
  {
    var p, t := s.calls[c].plan, s.tables;
    assert CallInv(t, s.calls[c]);
    var a := ActiveOf(t.assignments, p.broker, 0);
    assert a.Some? ==> LiveFor(t, a.value, p.broker);
  }

  /** While draining, exactly another broker on the same IP, or a chain routed to it, lets the orders in
      flight grow. */
  lemma DrainGrowsIff(s: State, c: nat, act: Action)
    requires Inv(s) && c in s.calls && InDrain(s.calls[c])
    ensures var p := s.calls[c].plan;
            !(InFlight(Step(s, act).orders, p.old_) <= InFlight(s.orders, p.old_))
            <==> Submits(s, act, p.old_) && (act.SubmitOrder? ==> act.broker != p.broker)
                 && act.order !in InFlight(s.orders, p.old_) && !Finished(s, act.order)
  {
    var p := s.calls[c].plan;
    GrowsIffSubmitted(s, act, p.old_);
    DrainedBrokerIsNowhere(s, c, p.old_);
  }

  // ---------------------------------------------------------------------------
  // Runs
  // ---------------------------------------------------------------------------

  predicate Atomic(acts: seq<Action>) {
    forall i :: 0 <= i < |acts| ==> !acts[i].SubmitRouted?
  }

  /** The call drains, alone on its IP, in every state of the run. */
  ghost predicate DrainsAlone(s: State, acts: seq<Action>, c: nat, p: Plan)
    decreases |acts|
  {
    && c in s.calls && InDrain(s.calls[c]) && s.calls[c].plan == p && Alone(s, p)
    && (acts != [] ==> DrainsAlone(Step(s, acts[0]), acts[1..], c, p))
  }

  lemma AloneNeverGrows(s: State, c: nat, act: Action)
    requires Inv(s) && c in s.calls && InDrain(s.calls[c]) && Alone(s, s.calls[c].plan) && !act.SubmitRouted?
    ensures InFlight(Step(s, act).orders, s.calls[c].plan.old_) <= InFlight(s.orders, s.calls[c].plan.old_)
  {
    DrainGrowsIff(s, c, act);
  }

  /** Once an assignment drains, the set of orders in flight on its IP never grows. */
  lemma {:induction false} DrainNeverGrows(s: State, acts: seq<Action>, c: nat, p: Plan)
    requires Inv(s) && Atomic(acts) && DrainsAlone(s, acts, c, p)
    ensures InFlight(Exec(s, acts).orders, p.old_) <= InFlight(s.orders, p.old_)
    decreases |acts|
  {
    if acts != [] {
      assert !acts[0].SubmitRouted?;
      AloneNeverGrows(s, c, acts[0]);
      InvStep(s, acts[0]);
      DrainNeverGrows(Step(s, acts[0]), acts[1..], c, p);
    }
  }

  /** The order is routed afresh somewhere in the run. */
  predicate Rerouted(acts: seq<Action>, o: nat) {
    exists i :: 0 <= i < |acts| && acts[i].BeginRouting? && acts[i].order == o
  }

  lemma ReroutedTail(acts: seq<Action>, o: nat)
    requires acts != []
    ensures Rerouted(acts, o) <==> (acts[0].BeginRouting? && acts[0].order == o) || Rerouted(acts[1..], o)
  {
    if i :| 0 <= i < |acts| && acts[i].BeginRouting? && acts[i].order == o {
      assert i > 0 ==> acts[1..][i - 1] == acts[i];
    }
    if i :| 0 <= i < |acts[1..]| && acts[1..][i].BeginRouting? && acts[1..][i].order == o {
      assert acts[i + 1] == acts[1..][i];
    }
  }

  /** Routing during the drain never reads the draining IP. */
  lemma RoutingAvoidsDrain(s: State, c: nat, act: Action, o: nat, k: nat)
    requires Inv(s) && c in s.calls && InDrain(s.calls[c]) && Alone(s, s.calls[c].plan)
    ensures var ip := Some(s.calls[c].plan.old_);
            RoutedTo(Step(s, act), o, k) == ip
            <==> RoutedTo(s, o, k) == ip && !(act.BeginRouting? && act.order == o)
  {
    var p := s.calls[c].plan;
    if act.ReadIp? && act.order == o && o in s.routed {
      DrainedBrokerIsNowhere(s, c, p.old_);
      assert !OnIp(s.tables, act.broker, p.old_);
    }
  }

  /** What routing read for a broker is the draining IP exactly if it was when the drain began and the order
      has not been routed afresh; a routing that the draining commit splits reads it only before. */
  lemma {:induction false} RoutedBeforeDrain(s: State, acts: seq<Action>, c: nat, p: Plan, o: nat, k: nat)
    requires Inv(s) && DrainsAlone(s, acts, c, p)
    ensures RoutedTo(Exec(s, acts), o, k) == Some(p.old_)
            <==> RoutedTo(s, o, k) == Some(p.old_) && !Rerouted(acts, o)
    ensures Inv(Exec(s, acts))
    ensures var s' := Exec(s, acts); c in s'.calls && InDrain(s'.calls[c]) && s'.calls[c].plan == p && Alone(s', p)
    decreases |acts|
  {
    if acts != [] {
      var s' := Step(s, acts[0]);
      RoutingAvoidsDrain(s, c, acts[0], o, k);
      InvStep(s, acts[0]);
      ReroutedTail(acts, o);
      RoutedBeforeDrain(s', acts[1..], c, p, o, k);
    }
  }

  /** From the draining commit on, as long as the rotation is alone on its IP, the orders in flight there
      grow exactly when an order is submitted with a broker for which routing read the IP before that commit,
      and not afresh since. */
  lemma DrainGrowsIffRoutedBefore(s: State, c: nat, ch: Choice, acts: seq<Action>, act: Action)
    requires Inv(s) && c in s.calls && s.calls[c].OReady?
    requires DrainsAlone(Step(s, Advance(c, ch)), acts, c, s.calls[c].plan)
    ensures var (s', ip) := (Exec(Step(s, Advance(c, ch)), acts), s.calls[c].plan.old_);
            !(InFlight(Step(s', act).orders, ip) <= InFlight(s'.orders, ip))
            <==> act.SubmitRouted? && RoutedTo(s, act.order, act.position) == Some(ip) && !Rerouted(acts, act.order)
                 && act.order !in InFlight(s'.orders, ip) && !Finished(s', act.order)
  {
    var drains := Step(s, Advance(c, ch));
    InvStep(s, Advance(c, ch));
    assert drains.routed == s.routed;
    DrainGrowsIffRouted(drains, c, acts, act, s.calls[c].plan);
  }

  /** The same from any state of the drain. */
  lemma DrainGrowsIffRouted(drains: State, c: nat, acts: seq<Action>, act: Action, p: Plan)
    requires Inv(drains) && DrainsAlone(drains, acts, c, p)
    ensures var (s', ip) := (Exec(drains, acts), p.old_);
            !(InFlight(Step(s', act).orders, ip) <= InFlight(s'.orders, ip))
            <==> act.SubmitRouted? && RoutedTo(drains, act.order, act.position) == Some(ip) && !Rerouted(acts, act.order)
                 && act.order !in InFlight(s'.orders, ip) && !Finished(s', act.order)
  {
    var o, k := if act.SubmitRouted? then act.order else 0, if act.SubmitRouted? then act.position else 0;
    RoutedBeforeDrain(drains, acts, c, p, o, k);
    DrainGrowsIff(Exec(drains, acts), c, act);
  }

  /** A rotation that has seen the IP drained finds it so until it cuts over. */
  ghost predicate StaysDrained(s: State) {
    forall c :: c in s.calls && s.calls[c].ODrained? ==> InFlight(s.orders, s.calls[c].plan.old_) == {}
  }

  lemma StaysDrainedStep(s: State, act: Action)
    requires Inv(s) && AllAlone(s) && !act.SubmitRouted? && StaysDrained(s)
    ensures StaysDrained(Step(s, act))
  {
    var s' := Step(s, act);
    forall c | c in s'.calls && s'.calls[c].ODrained? ensures InFlight(s'.orders, s'.calls[c].plan.old_) == {} {
      if c in s.calls && s.calls[c] == s'.calls[c] {
        AloneNeverGrows(s, c, act);
      } else {
        OnlyAdvanceDrains(s, act, c);
        ReachesDrained(s, c, act.choice);
      }
    }
  }

  lemma OnlyAdvanceDrains(s: State, act: Action, c: nat)
    requires c in Step(s, act).calls && Step(s, act).calls[c].ODrained?
    requires !(c in s.calls && s.calls[c] == Step(s, act).calls[c])
    ensures act.Advance? && act.call == c && c in s.calls && Step(s, act).orders == s.orders
  {
  }

  /** The poll that ends the drain loop saw no order in flight. */
  lemma ReachesDrained(s: State, c: nat, ch: Choice)
    requires c in s.calls && !s.calls[c].ODrained? && Step(s, Advance(c, ch)).calls[c].ODrained?
    ensures InFlight(s.orders, Step(s, Advance(c, ch)).calls[c].plan.old_) == {}
  {
    var pc := s.calls[c];
    if InAssign(pc) {
      NotDrained(s, c, ch, AssignEffect(s.tables, pc, ch));
    } else if InRelease(pc) {
      NotDrained(s, c, ch, ReleaseEffect(s.tables, pc, ch));
    } else if InPrepare(pc) {
      NotDrained(s, c, ch, PrepareEffect(s.tables, pc, ch));
    }
  }

  predicate LeadsToDrained(e: Effect) {
    match e
    case Move(next, _) => next.ODrained?
    case Take(_, got, refused) => got.ODrained? || refused.ODrained?
    case Drop(_, next) => next.ODrained?
  }

  lemma NotDrained(s: State, c: nat, ch: Choice, e: Effect)
    requires c in s.calls && EffectOf(s, s.calls[c], ch) == e && !LeadsToDrained(e)
    ensures !Step(s, Advance(c, ch)).calls[c].ODrained?
  {
  }

  ghost predicate AloneThroughout(s: State, acts: seq<Action>)
    decreases |acts|
  {
    AllAlone(s) && (acts != [] ==> AloneThroughout(Step(s, acts[0]), acts[1..]))
  }

  lemma {:induction false} StaysDrainedRun(s: State, acts: seq<Action>)
    requires Inv(s) && StaysDrained(s) && Atomic(acts) && AloneThroughout(s, acts)
    ensures StaysDrained(Exec(s, acts))
    decreases |acts|
  {
    if acts != [] {
      assert !acts[0].SubmitRouted?;
      StaysDrainedStep(s, acts[0]);
      InvStep(s, acts[0]);
      StaysDrainedRun(Step(s, acts[0]), acts[1..]);
    }
  }

  /** The step that announces a rotation. */
  predicate Rotates(s: State, c: nat, ch: Choice) {
    && c in s.calls && InDrain(s.calls[c])
    && Step(s, Advance(c, ch)).tables.outbox
       == s.tables.outbox + [IpRotated(s.calls[c].plan.broker, s.calls[c].plan.old_, s.calls[c].plan.new_)]
  }

  /** In every interleaving, an unforced rotation cuts over only when no order is in flight on the IP
      that it takes away. */
  lemma UnforcedCutoverIsDrained(init: State, acts: seq<Action>, c: nat, ch: Choice)
    requires Idle(init) && Atomic(acts) && AloneThroughout(init, acts)
    requires Rotates(Exec(init, acts), c, ch)
    requires !Exec(init, acts).calls[c].plan.force && !ch.forcePolicy
    ensures InFlight(Exec(init, acts).orders, Exec(init, acts).calls[c].plan.old_) == {}
  {
    IdleInv(init);
    StaysDrainedRun(init, acts);
    var s := Exec(init, acts);
    OnlyDrainedRotates(s, c, ch);
  }

  lemma OnlyDrainedRotates(s: State, c: nat, ch: Choice)
    requires Rotates(s, c, ch) && !s.calls[c].plan.force && !ch.forcePolicy
    ensures s.calls[c].ODrained?
  {
  }

  // ---------------------------------------------------------------------------
  // Reaching a state
  // ---------------------------------------------------------------------------

  /** Some run leads from one state to the other; `atomic` forbids orders that were routed earlier. */
  ghost predicate Reaches(s: State, s': State, atomic: bool) {
    exists acts :: (atomic ==> Atomic(acts)) && Exec(s, acts) == s'
  }

  lemma {:induction false} ExecSnoc(s: State, acts: seq<Action>, act: Action)
    ensures Exec(s, acts + [act]) == Step(Exec(s, acts), act)
    decreases |acts|
  {
    if acts != [] {
      assert (acts + [act])[1..] == acts[1..] + [act];
      ExecSnoc(Step(s, acts[0]), acts[1..], act);
    } else {
      assert acts + [act] == [act];
      assert [act][1..] == [];
    }
  }

  lemma ReachesItself(s: State)
    ensures Reaches(s, s, true)
  {
    assert Atomic([]) && Exec(s, []) == s;
  }

  lemma ReachesNext(init: State, s: State, act: Action, s': State, atomic: bool)
    requires Reaches(init, s, atomic) && (atomic ==> !act.SubmitRouted?) && Step(s, act) == s'
    ensures Reaches(init, s', atomic)
  {
    var acts :| (atomic ==> Atomic(acts)) && Exec(init, acts) == s;
    ExecSnoc(init, acts, act);
    assert atomic ==> Atomic(acts + [act]);
  }

  lemma ReachesSpawn(init: State, s: State, c: nat, pc: Pc)
    requires Reaches(init, s, true) && c !in s.calls && Entry(pc)
    ensures Reaches(init, s.(calls := s.calls[c := pc]), true)
  {
    ReachesNext(init, s, Spawn(c, pc), s.(calls := s.calls[c := pc]), true);
  }

  lemma ReachesSubmit(init: State, s: State, o: nat, b: nat)
    requires Reaches(init, s, true)
    ensures Reaches(init, Submitted(s, o, IpOf(s.tables, b)), true)
  {
    ReachesNext(init, s, SubmitOrder(o, b), Submitted(s, o, IpOf(s.tables, b)), true);
  }

  /** One more stretch of a call that takes a free lock. */
  lemma ReachesTake(init: State, s: State, c: nat, ch: Choice, key: Key, got: Pc, refused: Pc)
    requires Reaches(init, s, true) && c in s.calls && key !in s.locks
    requires EffectOf(s, s.calls[c], ch) == Take(key, got, refused)
    ensures Reaches(init, s.(calls := s.calls[c := got], locks := s.locks[key := c]), true)
  {
    ReachesNext(init, s, Advance(c, ch), s.(calls := s.calls[c := got], locks := s.locks[key := c]), true);
  }

  /** One more stretch of a call that writes the tables and takes or drops no lock. */
  lemma ReachesMove(init: State, s: State, c: nat, ch: Choice, s': State)
    requires Reaches(init, s, true) && c in s.calls && EffectOf(s, s.calls[c], ch).Move?
    requires var e := EffectOf(s, s.calls[c], ch);
             s' == s.(calls := s.calls[c := e.next], tables := e.tables)
    ensures Reaches(init, s', true)
  {
    ReachesNext(init, s, Advance(c, ch), s', true);
  }

  lemma ReachesCutover(init: State, s: State, c: nat, ch: Choice, next: Pc, t': Tables)
    requires Reaches(init, s, true) && c in s.calls && InCutover(s.calls[c])
    requires CutoverEffect(s.tables, s.orders, s.calls[c], ch) == Move(next, t')
    ensures Reaches(init, s.(calls := s.calls[c := next], tables := t'), true)
  {
    ReachesMove(init, s, c, ch, s.(calls := s.calls[c := next], tables := t'));
  }

  lemma ReachesLoosely(init: State, s: State)
    requires Reaches(init, s, true)
    ensures Reaches(init, s, false)
  {
    var acts :| Atomic(acts) && Exec(init, acts) == s;
    assert Exec(init, acts) == s;
  }
}
