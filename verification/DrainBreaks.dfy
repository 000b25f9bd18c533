/** Runs in which draining does not protect, and in which a rotation brings back what a release has ended. */
module DrainBreaks {
  import opened Common
  import opened IpTables
  import opened Locks
  import opened IpProtocol
  import opened IpSafety
  import opened DrainSafety

  /** Brokers 1 and 2; broker 1 holds IP 10, and so does broker 2 if the IP is shared. */
  function Start(shared: bool): State {
    var own := Assignment(1, 1, 10, Active, None);
    var other := Assignment(2, 2, 10, Active, None);
    State(Tables(if shared then [own, other] else [own],
                 map[10 := StaticIp("r", Allocated, None)],
                 if shared then [Usage(1, 10, 0, None, None), Usage(2, 10, 0, None, None)] else [Usage(1, 10, 0, None, None)],
                 map[1 := 1, 2 := 2], map[], []),
          map[], map[], map[], map[])
  }

  function Go(ok: bool, late: bool): Choice {
    Choice(ok, 11, 1, 24, late, false)
  }

  const ROTATION := Plan(1, false, 0, 10, 11)

  /** A rotation of broker 1 under way in otherwise unchanged tables. */
  function Under(shared: bool, pc: Pc): State {
    Start(shared).(calls := map[0 := pc], locks := map[BrokerKey(1) := 0])
  }

  /** ... with the new IP 11 allocated and nothing attached to it. */
  function WithNewIp(shared: bool, pc: Pc): State {
    Under(shared, pc).(tables := AllocateTx(Start(shared).tables, 11, "r"))
  }

  /** ... and the old assignment draining. */
  function Drains(shared: bool, pc: Pc): State {
    Under(shared, pc).(tables := DrainTx(WithNewIp(shared, pc).tables, 0))
  }

  lemma ToHold(shared: bool)
    ensures Reaches(Start(shared), Under(shared, OHold(1, false)), true)
  {
    var init := Start(shared);
    var spawned := init.(calls := map[0 := OStart(1, false)]);
    ReachesItself(init);
    ReachesNext(init, init, Spawn(0, OStart(1, false)), spawned, true);
    ReachesNext(init, spawned, Advance(0, Go(true, false)), Under(shared, OHold(1, false)), true);
  }

  lemma ToSeen(shared: bool)
    ensures Reaches(Start(shared), Under(shared, OSeen(1, false, 0, 10)), true)
  {
    ToHold(shared);
    ReachesMove(Start(shared), Under(shared, OHold(1, false)), 0, Go(true, false), Under(shared, OSeen(1, false, 0, 10)));
  }

  lemma ToNew(shared: bool)
    ensures Reaches(Start(shared), WithNewIp(shared, ONew(ROTATION)), true)
  {
    ToSeen(shared);
    ReachesMove(Start(shared), Under(shared, OSeen(1, false, 0, 10)), 0, Go(true, false), WithNewIp(shared, ONew(ROTATION)));
  }

  lemma ToReady(shared: bool)
    ensures Reaches(Start(shared), WithNewIp(shared, OReady(ROTATION)), true)
  {
    ToNew(shared);
    ReachesMove(Start(shared), WithNewIp(shared, ONew(ROTATION)), 0, Go(false, false), WithNewIp(shared, OReady(ROTATION)));
  }

  lemma ToPolling(shared: bool)
    ensures Reaches(Start(shared), Drains(shared, OPolling(ROTATION)), true)
  {
    var ready, polling := WithNewIp(shared, OReady(ROTATION)), Drains(shared, OPolling(ROTATION));
    ToReady(shared);
    ReachesCutover(Start(shared), ready, 0, Go(true, false), OPolling(ROTATION), polling.tables);
    assert polling == ready.(calls := ready.calls[0 := OPolling(ROTATION)], tables := polling.tables);
  }

  lemma ToDrained(shared: bool)
    ensures Reaches(Start(shared), Drains(shared, ODrained(ROTATION)), true)
  {
    var polling, drained := Drains(shared, OPolling(ROTATION)), Drains(shared, ODrained(ROTATION));
    ToPolling(shared);
    assert InFlight(polling.orders, 10) == {};
    ReachesCutover(Start(shared), polling, 0, Go(true, false), ODrained(ROTATION), polling.tables);
    assert drained == polling.(calls := polling.calls[0 := ODrained(ROTATION)]);
  }

  /** An unforced rotation is about to be announced with an order in flight on the old IP. */
  ghost predicate BreaksDrain(s: State) {
    && 0 in s.calls && s.calls[0] == ODrained(ROTATION)
    && Rotates(s, 0, Go(true, false))
    && 5 in InFlight(s.orders, ROTATION.old_)
  }

  /** The rotation with an order submitted on the old IP at the last moment. */
  function Late(shared: bool): State {
    Drains(shared, ODrained(ROTATION)).(orders := map[5 := Order(Some(10), false)])
  }

  lemma LateBreaksDrain(shared: bool, routed: map<nat, seq<Option<nat>>>)
    ensures BreaksDrain(Late(shared).(routed := routed))
  {
    var s := Late(shared).(routed := routed);
    assert EffectOf(s, s.calls[0], Go(true, false)) == Move(OLeave(1), CutoverTx(s.tables, 0, 11, 1, 24));
  }

  /** Another broker's order goes out on the IP after it was seen drained. */
  lemma SharedGoesOut()
    ensures Reaches(Start(true), Late(true), true)
  {
    var s := Drains(true, ODrained(ROTATION));
    ToDrained(true);
    assert ActiveOf(s.tables.assignments, 2, 0) == Some(1);
    ReachesSubmit(Start(true), s, 5, 2);
    assert Submitted(s, 5, Some(10)) == Late(true);
  }

  /** If another broker is assigned the IP, an unforced rotation can cut over with an order in flight. */
  lemma SharedIpBreaksDrain()
    ensures Idle(Start(true))
    ensures exists s :: Reaches(Start(true), s, true) && BreaksDrain(s)
  {
    SharedGoesOut();
    LateBreaksDrain(true, map[]);
    assert Late(true).(routed := map[]) == Late(true);
  }

  /** If an order is routed before the draining commit and submitted during the drain, the same happens
      on an IP that nobody shares: the run routes order 5 in the state `ready`, which is about to drain,
      and submits it on that chain once the IP was seen drained. */
  lemma SplitRoutingBreaksDrain()
    ensures Idle(Start(false))
    ensures exists ready, s ::
              && Reaches(Start(false), ready, true) && 0 in ready.calls && ready.calls[0] == OReady(ROTATION)
              && Reaches(Step(Step(ready, BeginRouting(5)), ReadIp(5, 1)), s, false) && BreaksDrain(s)
  {
    var ready := WithNewIp(false, OReady(ROTATION));
    ToReady(false);
    RoutesToOld();
    RoutedGoesOut();
    LateBreaksDrain(false, ROUTED);
  }

  /** Order 5 is routed to the old IP. */
  const ROUTED: map<nat, seq<Option<nat>>> := map[5 := [Some(10)]]

  lemma RoutesToOld()
    ensures Step(Step(WithNewIp(false, OReady(ROTATION)), BeginRouting(5)), ReadIp(5, 1))
            == WithNewIp(false, OReady(ROTATION)).(routed := ROUTED)
  {
    var ready := WithNewIp(false, OReady(ROTATION));
    assert ActiveOf(ready.tables.assignments, 1, 0) == Some(0);
    assert Step(ready, BeginRouting(5)).routed[5] + [Some(10)] == [Some(10)];
  }

  /** The routed rotation drains, with no order in flight yet ... */
  lemma RoutedDrains()
    ensures Reaches(WithNewIp(false, OReady(ROTATION)).(routed := ROUTED),
                    Drains(false, ODrained(ROTATION)).(routed := ROUTED), false)
  {
    var routed := WithNewIp(false, OReady(ROTATION)).(routed := ROUTED);
    var polling := Drains(false, OPolling(ROTATION)).(routed := ROUTED);
    var drained := Drains(false, ODrained(ROTATION)).(routed := ROUTED);
    ReachesItself(routed);
    ReachesCutover(routed, routed, 0, Go(true, false), OPolling(ROTATION), polling.tables);
    assert polling == routed.(calls := routed.calls[0 := OPolling(ROTATION)], tables := polling.tables);
    assert InFlight(polling.orders, 10) == {};
    ReachesCutover(routed, polling, 0, Go(true, false), ODrained(ROTATION), polling.tables);
    assert drained == polling.(calls := polling.calls[0 := ODrained(ROTATION)]);
    ReachesLoosely(routed, drained);
  }

  /** ... and then the order goes out on its old chain. */
  lemma RoutedGoesOut()
    ensures Reaches(WithNewIp(false, OReady(ROTATION)).(routed := ROUTED), Late(false).(routed := ROUTED), false)
  {
    RoutedDrains();
    ReachesNext(WithNewIp(false, OReady(ROTATION)).(routed := ROUTED), Drains(false, ODrained(ROTATION)).(routed := ROUTED),
                SubmitRouted(5, 0), Late(false).(routed := ROUTED), false);
  }

  // ---------------------------------------------------------------------------
  // A release that overlaps a rotation of the same IP
  // ---------------------------------------------------------------------------

  /** An order is in flight, the rotation is about to drain, and a release of IP 10 has come to the
      given point. */
  function Releasing(pc: Pc): State {
    WithNewIp(false, OReady(ROTATION)).(
      calls := map[0 := OReady(ROTATION), 1 := pc],
      locks := if pc.RStart? then map[BrokerKey(1) := 0] else map[BrokerKey(1) := 0, IpKey(10) := 1],
      orders := map[5 := Order(Some(10), false)])
  }

  lemma ToStarted()
    ensures Reaches(Start(false), Releasing(RStart(10)), true)
  {
    var init, ready := Start(false), WithNewIp(false, OReady(ROTATION));
    var busy := ready.(orders := map[5 := Order(Some(10), false)]);
    ToReady(false);
    ReachesSubmit(init, ready, 5, 1);
    assert Submitted(ready, 5, IpOf(ready.tables, 1)) == busy;
    ReachesSpawn(init, busy, 1, RStart(10));
    assert Releasing(RStart(10)) == busy.(calls := busy.calls[1 := RStart(10)]);
  }

  lemma ToReleasing()
    ensures Reaches(Start(false), Releasing(RHold(10)), true)
  {
    var started := Releasing(RStart(10));
    ToStarted();
    ReachesTake(Start(false), started, 1, Go(true, false), IpKey(10), RHold(10), Done);
    assert Releasing(RHold(10)) == started.(calls := started.calls[1 := RHold(10)], locks := started.locks[IpKey(10) := 1]);
  }

  /** ... and has ended the assignment. */
  function Gone(): State {
    Releasing(RLeave(10)).(tables := ReleaseTx(Releasing(RLeave(10)).tables, [0], 10, 1, 24))
  }

  lemma ToPicked()
    ensures Reaches(Start(false), Releasing(RPicked(10, [0], 1, 24)), true)
  {
    var init, checked := Start(false), Releasing(RChecked(10));
    ToReleasing();
    ReachesMove(init, Releasing(RHold(10)), 1, Go(true, false), checked);
    var held := Holding(checked.tables.assignments, 10, 0);
    assert held == [0] by {
      assert Holding(checked.tables.assignments, 10, 1) == [];
    }
    assert EffectOf(checked, checked.calls[1], Go(true, false)) == Move(RPicked(10, held, 1, 24), checked.tables);
    ReachesMove(init, checked, 1, Go(true, false), Releasing(RPicked(10, [0], 1, 24)));
  }

  lemma ToReleased()
    ensures Reaches(Start(false), Gone(), true)
  {
    ToPicked();
    ReachesMove(Start(false), Releasing(RPicked(10, [0], 1, 24)), 1, Go(true, false), Gone());
  }

  lemma GoneHasEnded()
    ensures |Gone().tables.assignments| == 1 && |Gone().tables.usage| == 1
    ensures Gone().tables.assignments[0] == Assignment(1, 1, 10, Ended, Some(1))
    ensures Gone().tables.usage[0].releasedAt.Some?
    ensures Gone().tables.ips.Keys == {10, 11} && Gone().tables.ips[10].status == Retired
  {
    var t := Releasing(RLeave(10)).tables;
    EndsPickedAssignments(t, [0], 10, 1, 25, 0);
    ClosesPickedUsage(t, [0], 10, 1, 25, 0);
  }

  /** The assignment is active again although its IP is retired and its usage is closed. */
  ghost predicate Resurrected(t: Tables) {
    && |t.assignments| == 1 && |t.usage| == 1
    && t.assignments[0].status == Active && t.assignments[0].endedAt.Some? && t.usage[0].releasedAt.Some?
    && t.assignments[0].ip == 10 && 10 in t.ips && t.ips[10].status == Retired
  }

  /** One instance: a release that picked the old assignment commits between the rotation's read and its
      draining commit, the drain times out, and the abort brings the ended assignment back. */
  lemma ReleaseDuringRotationIsUndone()
    ensures Idle(Start(false))
    ensures exists s :: Reaches(Start(false), s, true) && Resurrected(s.tables)
  {
    var init, gone := Start(false), Gone();
    ToReleased();
    GoneHasEnded();
    var drained := DrainTx(gone.tables, 0);
    ReachesCutover(init, gone, 0, Go(true, false), OPolling(ROTATION), drained);
    var polling := gone.(calls := gone.calls[0 := OPolling(ROTATION)], tables := drained);
    assert 5 in InFlight(polling.orders, 10);
    ReachesCutover(init, polling, 0, Go(true, true), OLate(ROTATION), drained);
    var late := polling.(calls := polling.calls[0 := OLate(ROTATION)], tables := drained);
    var undone := AbortTx(drained, 0, 11, false);
    ReachesCutover(init, late, 0, Go(true, true), OClean(1, 11), undone);
    assert Resurrected(late.(calls := late.calls[0 := OClean(1, 11)], tables := undone).tables);
  }
}
