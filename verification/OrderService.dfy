/** The order service and the recovery scanner as they run, over tables updated in place. */
module OrderService {
  import opened Common
  import opened OrderEngine
  import opened OrderRuns
  import Routing

  datatype Plan = Plan(route: Option<Chain>, replies: seq<Reply>)

  predicate Fits(p: Plan) {
    p.route.Some? ==> |p.replies| == |p.route.value|
  }

  /** Enough commits for one recovery to finish. */
  function Ample(p: Plan): nat {
    if p.route.Some? then Enough(|p.route.value|) + 1 else 1
  }

  datatype RecoveryEnd = Recovered | Skipped | NotRecovered | Raised

  function RecoveryEndOf(db: Db, id: nat, p: Plan): RecoveryEnd
    requires id in db.orders && Fits(p)
  {
    if Terminal(db.orders[id].status) then Skipped
    else if Adoptable(db.attempts, id).Some? then Recovered
    else if p.route.None? then Raised
    else if EndAt(p.replies, StopAt(p.replies, 0)) == Placed then Recovered
    else NotRecovered
  }

  datatype Summary = Summary(scanned: nat, retried: nat, recovered: nat, skipped: nat, failed: nat)

  predicate IsStuck(s: OrderStatus) {
    s == Created || s == Submitting || s == InDoubt
  }

  /** The oldest `limit` stuck orders; `byAge` lists the orders by the time of their last update. */
  function Stuck(db: Db, byAge: seq<nat>, limit: nat): seq<nat>
    requires forall i :: 0 <= i < |byAge| ==> byAge[i] in db.orders
  {
    if byAge == [] || limit == 0 then []
    else if IsStuck(db.orders[byAge[0]].status) then [byAge[0]] + Stuck(db, byAge[1..], limit - 1)
    else Stuck(db, byAge[1..], limit)
  }

  /** Recover the listed orders one after the other. */
  function RecoverAll(db: Db, ids: seq<nat>, plans: nat -> Plan): Db
    requires forall id :: Fits(plans(id))
  {
    if ids == [] then db
    else
      var last := ids[|ids| - 1];
      Recover(RecoverAll(db, ids[..|ids| - 1], plans), last, plans(last).route, plans(last).replies, Ample(plans(last)))
  }

  /** One more scanned order under its heading; a resubmission is also a retry. */
  function Counted(s: Summary, end: RecoveryEnd): Summary {
    match end
    case Recovered => Summary(s.scanned + 1, s.retried + 1, s.recovered + 1, s.skipped, s.failed)
    case Skipped => Summary(s.scanned + 1, s.retried, s.recovered, s.skipped + 1, s.failed)
    case NotRecovered => Summary(s.scanned + 1, s.retried + 1, s.recovered, s.skipped, s.failed + 1)
    case Raised => Summary(s.scanned + 1, s.retried, s.recovered, s.skipped, s.failed + 1)
  }

  ghost predicate AllStored(db: Db, ids: seq<nat>) {
    forall i :: 0 <= i < |ids| ==> ids[i] in db.orders
  }

  /** The listed orders counted by how they end, each in the state that it finds. */
  function Tally(db: Db, ids: seq<nat>, plans: nat -> Plan): (s: Summary)
    requires (forall id :: Fits(plans(id))) && AllStored(db, ids)
    ensures s.scanned == |ids| == s.recovered + s.skipped + s.failed
    ensures s.recovered <= s.retried <= s.recovered + s.failed
  {
    if ids == [] then Summary(0, 0, 0, 0, 0)
    else
      var init, last := ids[..|ids| - 1], ids[|ids| - 1];
      RecoverAllKeepsOrders(db, init, plans);
      Counted(Tally(db, init, plans), RecoveryEndOf(RecoverAll(db, init, plans), last, plans(last)))
  }

  /** The first i listed orders have been recovered and counted. */
  ghost predicate Scanned(db: Db, ids: seq<nat>, plans: nat -> Plan, i: nat, now: Db, s: Summary)
    requires (forall id :: Fits(plans(id))) && AllStored(db, ids) && i <= |ids|
  {
    now == RecoverAll(db, ids[..i], plans) && s == Tally(db, ids[..i], plans)
  }

  /** One turn of the scan, from what the turns before it left and counted. */
  lemma ScansNext(db: Db, ids: seq<nat>, plans: nat -> Plan, i: nat, now: Db, s: Summary)
    requires (forall id :: Fits(plans(id))) && AllStored(db, ids) && i < |ids| && Scanned(db, ids, plans, i, now, s)
    ensures ids[i] in now.orders
    ensures var p := plans(ids[i]);
            Scanned(db, ids, plans, i + 1, Recover(now, ids[i], p.route, p.replies, Ample(p)),
                    Counted(s, RecoveryEndOf(now, ids[i], p)))
  {
    assert ids[..i + 1][..i] == ids[..i];
    RecoverAllKeepsOrders(db, ids[..i], plans);
  }

  lemma RecoverKeepsOrders(db: Db, id: nat, p: Plan)
    requires id in db.orders && Fits(p)
    ensures Recover(db, id, p.route, p.replies, Ample(p)).orders.Keys == db.orders.Keys
  {
    if !Terminal(db.orders[id].status) && Adoptable(db.attempts, id).None? && p.route.Some? {
      var doubted := db.orders[id].status == InDoubt;
      var db1 := if doubted then db.(orders := db.orders[id := db.orders[id].(status := Created)]) else db;
      WalkTells(db1, id, p.route.value, p.replies, 0, "", if doubted then Ample(p) - 1 else Ample(p));
    }
  }

  lemma {:induction false} RecoverAllKeepsOrders(db: Db, ids: seq<nat>, plans: nat -> Plan)
    requires (forall id :: Fits(plans(id))) && AllStored(db, ids)
    ensures RecoverAll(db, ids, plans).orders.Keys == db.orders.Keys
  {
    if ids != [] {
      RecoverAllKeepsOrders(db, ids[..|ids| - 1], plans);
      var before, last := RecoverAll(db, ids[..|ids| - 1], plans), ids[|ids| - 1];
      RecoverKeepsOrders(before, last, plans(last));
    }
  }

  /** A recovery that is not cut short, finds a route and a session settles its order for good: it
      ends submitted or failed (or, if someone cancelled it first, stays cancelled), never stuck. */
  lemma RecoverySettles(db: Db, id: nat, p: Plan)
    requires id in db.orders && Fits(p) && p.route.Some?
    requires EndAt(p.replies, StopAt(p.replies, 0)) != SessionEnd
    ensures var after := Recover(db, id, p.route, p.replies, Ample(p));
            && id in after.orders && Terminal(after.orders[id].status)
            && (RecoveryEndOf(db, id, p) == Recovered ==> after.orders[id].status == Submitted)
            && (RecoveryEndOf(db, id, p) == NotRecovered ==> after.orders[id].status == Failed)
  {
    if !Terminal(db.orders[id].status) && Adoptable(db.attempts, id).None? {
      var doubted := db.orders[id].status == InDoubt;
      var db1 := if doubted then db.(orders := db.orders[id := db.orders[id].(status := Created)]) else db;
      WalkTells(db1, id, p.route.value, p.replies, 0, "", if doubted then Ample(p) - 1 else Ample(p));
    }
  }

  /** What the caller of a placement sees. */
  datatype PlaceReply = Replayed(order: nat) | Returned(order: nat) | NoRoute | Raises(end: End)

  class Service {
    var orders: map<nat, Order>
    var attempts: seq<Attempt>
    var outbox: seq<Event>
    var failovers: seq<Failover>
    var lastRun: Option<Summary>

    function View(): Db
      reads this
    {
      Db(orders, attempts, outbox, failovers)
    }

    constructor ()
      ensures View() == EMPTY && lastRun == None
    {
      orders, attempts, outbox, failovers, lastRun := map[], [], [], [], None;
    }

    method SubmitInline(o: nat, chain: Chain, replies: seq<Reply>, ghost budget: nat) returns (end: End)
      requires o in orders && |replies| == |chain| && Enough(|chain|) <= budget
      modifies this`orders, this`attempts, this`outbox, this`failovers
      ensures Outcome(View(), end) == Walk(old(View()), o, chain, replies, 0, "", budget)
    {
      var lastCode := "";
      var k := 0;
      ghost var left := budget;
      while k < |chain|
        invariant k <= |chain| && o in orders && Enough(|chain| - k) <= left
        invariant Walk(old(View()), o, chain, replies, 0, "", budget) == Walk(View(), o, chain, replies, k, lastCode, left)
      {
        var r := replies[k];
        ghost var before := View();
        if r.Denied? && r.rejects {
          orders := orders[o := orders[o].(status := Failed, errorCode := Some("RATE_LIMITED"))];
          return RateLimitedEnd;
        }
        if r.SessionFails? {
          return SessionEnd;
        }
        if !r.Denied? {
          attempts := attempts + [Attempt(o, k + 1, chain[k].broker, chain[k].ip, InFlight, None)];
          orders := orders[o := orders[o].(status := Submitting, broker := Some(chain[k].broker), ip := chain[k].ip)];
          assert View() == Send(before, o, chain[k], k);
          ghost var sent := View();
          assert Walk(before, o, chain, replies, k, lastCode, left) == Ask(sent, o, chain, replies, k, left - 1);
          var n := |attempts| - 1;
          if r.Accepts? {
            attempts := attempts[n := attempts[n].(status := Taken, brokerOrderId := r.brokerOrderId)];
            orders := orders[o := orders[o].(status := Submitted, brokerOrderId := r.brokerOrderId, errorCode := None)];
            outbox := outbox + [OrderSubmitted(o, chain[k].broker, chain[k].ip, r.brokerOrderId)];
            return Placed;
          }
          attempts := attempts[n := attempts[n].(status := Lost)];
          if r.Refuses? && !r.retryable {
            orders := orders[o := orders[o].(status := Failed, errorCode := Some(r.code))];
            return RejectedEnd(r.code);
          }
        }
        var reason := ReasonOf(r);
        if k + 1 < |chain| {
          failovers := failovers + [Failover(o, chain[k].broker, chain[k + 1].broker, reason)];
        }
        assert View() == Passed(before, o, chain, replies, k);
        left := WalkPasses(before, o, chain, replies, k, lastCode, left);
        lastCode := reason;
        k := k + 1;
      }
      orders := orders[o := orders[o].(status := Failed, errorCode := Some(FinalCode(lastCode)))];
      end := ExhaustedEnd;
    }

    /** A replay returns the stored order; a placement returns the new one, unless no route is found or
        the walk raises, which the caller sees although the order is stored. */
    method PlaceOrder(id: nat, client: nat, clientOrderId: string, p: Plan) returns (reply: PlaceReply)
      requires id !in orders && Fits(p)
      modifies this`orders, this`attempts, this`outbox, this`failovers
      ensures View() == Place(old(View()), id, client, clientOrderId, p.route, p.replies, Ample(p))
      ensures reply.Replayed? <==> exists o :: o in old(orders) && old(orders)[o].client == client
                                               && old(orders)[o].clientOrderId == clientOrderId
      ensures reply.Replayed? ==> reply.order in old(orders) && orders[reply.order].client == client
                                  && orders[reply.order].clientOrderId == clientOrderId
      ensures !reply.Replayed? ==> id in orders && orders[id].client == client && orders[id].clientOrderId == clientOrderId
      ensures forall o :: o in old(orders) ==> o in orders && orders[o] == old(orders)[o]
      ensures reply.NoRoute? <==> !reply.Replayed? && p.route.None?
      ensures reply.NoRoute? ==> orders[id] == Order(id, client, clientOrderId, Created, None, None, None, None)
      ensures !reply.Replayed? && p.route.Some? ==>
                var end := EndAt(p.replies, StopAt(p.replies, 0));
                reply == (if end == Placed then Returned(id) else Raises(end))
      ensures reply.Returned? ==> orders[id].status == Submitted
    {
      if KeyTaken(View(), client, clientOrderId) {
        var order :| order in orders && HasKey(orders[order], client, clientOrderId);
        return Replayed(order);
      }
      orders := orders[id := NewOrder(id, client, clientOrderId)];
      if p.route.None? {
        return NoRoute;
      }
      ghost var placed := View();
      var end := SubmitInline(id, p.route.value, p.replies, Enough(|p.route.value|));
      WalkTells(placed, id, p.route.value, p.replies, 0, "", Enough(|p.route.value|));
      FinalOrderKeepsKey(placed.orders[id], p.route.value, p.replies, "", 0, StopAt(p.replies, 0));
      reply := if end == Placed then Returned(id) else Raises(end);
    }

    method CancelOrder(id: nat, agrees: bool) returns (cancelled: bool)
      requires id in orders
      modifies this`orders, this`outbox
      ensures View() == Cancel(old(View()), id, agrees)
      ensures var x := old(orders)[id];
              && (cancelled <==> x.status in {Created, Submitting, Submitted}
                                 && (agrees || x.brokerOrderId == None || x.brokerOrderId == Some("")))
              && orders == (if cancelled then old(orders)[id := x.(status := Cancelled)] else old(orders))
              && outbox == old(outbox) + (if cancelled
                                          then [OrderCancelled(id, if x.brokerOrderId == Some("") then None else x.brokerOrderId)]
                                          else [])
    {
      var order := orders[id];
      if order.status == Cancelled || order.status == Failed {
        return false;
      }
      if order.status != Submitted && order.status != Submitting && order.status != Created {
        return false;
      }
      if NonEmpty(order.brokerOrderId) && !agrees {
        return false;
      }
      orders := orders[id := order.(status := Cancelled)];
      outbox := outbox + [OrderCancelled(id, if NonEmpty(order.brokerOrderId) then order.brokerOrderId else None)];
      cancelled := true;
    }

    method RecoverOne(id: nat, p: Plan) returns (end: RecoveryEnd)
      requires id in orders && Fits(p)
      modifies this`orders, this`attempts, this`outbox, this`failovers
      ensures View() == Recover(old(View()), id, p.route, p.replies, Ample(p))
      ensures end == RecoveryEndOf(old(View()), id, p)
      ensures orders.Keys == old(orders.Keys)
    {
      if Terminal(orders[id].status) {
        return Skipped;
      }
      var a := Adoptable(attempts, id);
      if a.Some? {
        orders := orders[id := orders[id].(status := Submitted, brokerOrderId := a.value.brokerOrderId,
                                           broker := Some(a.value.broker), ip := a.value.ip, errorCode := None)];
        return Recovered;
      }
      ghost var budget := Ample(p);
      if orders[id].status == InDoubt {
        orders := orders[id := orders[id].(status := Created)];
        budget := budget - 1;
      }
      if p.route.None? {
        return Raised;
      }
      ghost var before := View();
      var walked := SubmitInline(id, p.route.value, p.replies, budget);
      WalkTells(before, id, p.route.value, p.replies, 0, "", budget);
      end := if walked == Placed then Recovered else NotRecovered;
    }

    /** One scan: every listed order is counted under exactly one heading, and one order's failure
        does not stop the others. */
    method RunReplay(byAge: seq<nat>, limit: nat, plans: nat -> Plan) returns (s: Summary)
      requires forall i :: 0 <= i < |byAge| ==> byAge[i] in orders
      requires forall id :: Fits(plans(id))
      modifies this
      ensures View() == RecoverAll(old(View()), Stuck(old(View()), byAge, limit), plans)
      ensures AllStored(old(View()), Stuck(old(View()), byAge, limit))
      ensures s == Tally(old(View()), Stuck(old(View()), byAge, limit), plans)
      ensures lastRun == Some(s)
    {
      var stuck := Stuck(View(), byAge, limit);
      StuckExist(View(), byAge, limit);
      s := RecoverListed(stuck, plans);
      lastRun := Some(s);
    }

    /** The loop over the orders that the query returned. */
    method RecoverListed(stuck: seq<nat>, plans: nat -> Plan) returns (s: Summary)
      requires (forall id :: Fits(plans(id))) && AllStored(View(), stuck)
      modifies this`orders, this`attempts, this`outbox, this`failovers
      ensures View() == RecoverAll(old(View()), stuck, plans)
      ensures s == Tally(old(View()), stuck, plans)
    {
      var retried, recovered, skipped, failed := 0, 0, 0, 0;
      ghost var db := View();
      for i := 0 to |stuck|
        invariant Scanned(db, stuck, plans, i, View(), Summary(i, retried, recovered, skipped, failed))
      {
        ScansNext(db, stuck, plans, i, View(), Summary(i, retried, recovered, skipped, failed));
        var end := RecoverOne(stuck[i], plans(stuck[i]));
        match end
        case Recovered => recovered, retried := recovered + 1, retried + 1;
        case Skipped => skipped := skipped + 1;
        case NotRecovered => failed, retried := failed + 1, retried + 1;
        case Raised => failed := failed + 1;
      }
      assert stuck[..|stuck|] == stuck;
      s := Summary(|stuck|, retried, recovered, skipped, failed);
    }
  }

  lemma {:induction false} StuckExist(db: Db, byAge: seq<nat>, limit: nat)
    requires forall i :: 0 <= i < |byAge| ==> byAge[i] in db.orders
    ensures |Stuck(db, byAge, limit)| <= limit
    ensures forall i :: 0 <= i < |Stuck(db, byAge, limit)| ==>
              Stuck(db, byAge, limit)[i] in db.orders && IsStuck(db.orders[Stuck(db, byAge, limit)[i]].status)
  {
    if byAge != [] && limit != 0 {
      if IsStuck(db.orders[byAge[0]].status) {
        StuckExist(db, byAge[1..], limit - 1);
      } else {
        StuckExist(db, byAge[1..], limit);
      }
    }
  }

  lemma {:induction false} FinalOrderKeepsKey(order: Order, chain: Chain, replies: seq<Reply>, last: string, j: nat, k: nat)
    requires |replies| == |chain| && k <= |chain|
    ensures FinalOrder(order, chain, replies, last, j, k).client == order.client
    ensures FinalOrder(order, chain, replies, last, j, k).clientOrderId == order.clientOrderId
  {
    PointingKeepsKey(order, chain, replies, j, k);
  }

  lemma {:induction false} PointingKeepsKey(order: Order, chain: Chain, replies: seq<Reply>, j: nat, k: nat)
    requires |replies| == |chain| && k <= |chain|
    ensures Pointing(order, chain, replies, j, k).client == order.client
    ensures Pointing(order, chain, replies, j, k).clientOrderId == order.clientOrderId
    decreases k - j
  {
    if j < k {
      var next := if Asks(replies[j])
                  then order.(status := Submitting, broker := Some(chain[j].broker), ip := chain[j].ip) else order;
      PointingKeepsKey(next, chain, replies, j + 1, k);
    }
  }
}
