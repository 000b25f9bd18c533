/** Placements, walks and adoptions told by the replies of the brokers and the columns of the tables. */
module OrderFacts {
  import opened Common
  import opened OrderEngine
  import opened OrderRuns
  import Routing

  // ---------------------------------------------------------------------------
  // One order for each key
  // ---------------------------------------------------------------------------

  /** The order of this client and key. */
  predicate Carries(db: Db, o: nat, client: nat, key: string) {
    o in db.orders && db.orders[o].client == client && db.orders[o].clientOrderId == key
  }

  /** A walk changes no other order, and not whose order it is. */
  ghost predicate KeepsKeys(db: Db, db': Db, o: nat) {
    && db'.orders.Keys == db.orders.Keys
    && (forall x :: x in db.orders && x != o ==> db'.orders[x] == db.orders[x])
    && (o in db.orders ==> db'.orders[o].client == db.orders[o].client
                           && db'.orders[o].clientOrderId == db.orders[o].clientOrderId && db'.orders[o].id == db.orders[o].id)
  }

  lemma {:induction false} WalkKeepsKeys(db: Db, o: nat, chain: Chain, replies: seq<Reply>, k: nat, last: string, budget: nat)
    requires o in db.orders && |replies| == |chain| && k <= |chain|
    ensures KeepsKeys(db, Walk(db, o, chain, replies, k, last, budget).db, o)
    decreases |chain| - k, 1
  {
    if k < |chain| {
      var r := replies[k];
      if r.Denied? && !r.rejects {
        MoveOnKeepsKeys(db, o, chain, replies, k, budget);
      } else if Asks(r) && !Stops(r) && budget > 1 {
        var sent := Send(db, o, chain[k], k);
        assert Walk(db, o, chain, replies, k, last, budget) == Ask(sent, o, chain, replies, k, budget - 1);
        MoveOnKeepsKeys(Lose(sent), o, chain, replies, k, budget - 2);
      }
    }
  }

  lemma {:induction false} MoveOnKeepsKeys(db: Db, o: nat, chain: Chain, replies: seq<Reply>, k: nat, budget: nat)
    requires o in db.orders && |replies| == |chain| && k < |chain|
    ensures KeepsKeys(db, MoveOn(db, o, chain, replies, k, budget).db, o)
    decreases |chain| - k, 0
  {
    var reason := ReasonOf(replies[k]);
    if k + 1 < |chain| {
      if budget > 0 {
        WalkKeepsKeys(NoteFailover(db, o, chain, k, reason), o, chain, replies, k + 1, reason, budget - 1);
      }
    } else {
      WalkKeepsKeys(db, o, chain, replies, k + 1, reason, budget);
    }
  }

  /** What a step leaves of who owns which key: at most a new order, for a placement whose client has no order
      of that key. */
  lemma StepKeepsKeys(db: Db, a: Action, o: nat, client: nat, key: string)
    ensures Carries(db, o, client, key) ==> Carries(Step(db, a), o, client, key)
    ensures Carries(Step(db, a), o, client, key) && !Carries(db, o, client, key) ==>
              a.PlaceOrder? && a.id == o && a.client == client && a.clientOrderId == key && o !in db.orders
              && forall x :: !Carries(db, x, client, key)
  {
    var w := WalkOf(db, a);
    if w.Some? {
      WalkKeepsKeys(Started(db, a), a.id, w.value.chain, w.value.replies, 0, "", w.value.budget);
    }
    if x :| Carries(db, x, client, key) {
      assert HasKey(db.orders[x], client, key) && KeyTaken(db, client, key);
    }
  }

  /** Over any serialized run with crashes a client has at most one order of a key. */
  lemma {:induction false} OneOrderForEachKey(actions: seq<Action>, o: nat, x: nat, client: nat, key: string)
    requires Carries(Run(actions), o, client, key) && Carries(Run(actions), x, client, key)
    ensures o == x
  {
    if actions != [] {
      var last := |actions| - 1;
      var db := Run(actions[..last]);
      StepKeepsKeys(db, actions[last], o, client, key);
      StepKeepsKeys(db, actions[last], x, client, key);
      if Carries(db, o, client, key) && Carries(db, x, client, key) {
        OneOrderForEachKey(actions[..last], o, x, client, key);
      }
    }
  }

  /** A placement stores a new order exactly if its client has none of that key, whatever the orders of other
      clients are. */
  lemma PlacesIff(db: Db, id: nat, client: nat, key: string, route: Option<Chain>, replies: seq<Reply>, budget: nat)
    requires id !in db.orders && budget > 0 && (route.Some? ==> |replies| == |route.value|)
    ensures var db' := Place(db, id, client, key, route, replies, budget);
            && (id in db'.orders <==> forall x :: !Carries(db, x, client, key))
            && (id in db'.orders ==> Carries(db', id, client, key))
            && (id !in db'.orders ==> db' == db)
  {
    if x :| Carries(db, x, client, key) {
      assert HasKey(db.orders[x], client, key);
    } else {
      assert !KeyTaken(db, client, key) by {
        if y :| y in db.orders && HasKey(db.orders[y], client, key) {
          assert Carries(db, y, client, key);
        }
      }
      var db1 := db.(orders := db.orders[id := NewOrder(id, client, key)]);
      if route.Some? {
        WalkKeepsKeys(db1, id, route.value, replies, 0, "", budget - 1);
      }
    }
  }

  /** Two clients that use the same key each get an order of their own. */
  lemma ClientsDoNotReplayEachOther(db: Db, id: nat, client: nat, id': nat, client': nat, key: string,
                                    route: Option<Chain>, replies: seq<Reply>, budget: nat)
    requires client != client' && id != id' && id !in db.orders && id' !in db.orders && budget > 0
    requires route.Some? ==> |replies| == |route.value|
    requires forall x :: !Carries(db, x, client, key) && !Carries(db, x, client', key)
    ensures var db1 := Place(db, id, client, key, route, replies, budget);
            var db2 := Place(db1, id', client', key, route, replies, budget);
            Carries(db2, id, client, key) && Carries(db2, id', client', key)
  {
    var a := PlaceOrder(id, client, key, route, replies, budget);
    var db1 := Place(db, id, client, key, route, replies, budget);
    PlacesIff(db, id, client, key, route, replies, budget);
    forall x ensures !Carries(db1, x, client', key) {
      StepKeepsKeys(db, a, x, client', key);
    }
    assert id' !in db1.orders by {
      if id' in db1.orders {
        StepKeepsKeys(db, a, id', db1.orders[id'].client, db1.orders[id'].clientOrderId);
      }
    }
    PlacesIff(db1, id', client', key, route, replies, budget);
    StepKeepsKeys(db1, PlaceOrder(id', client', key, route, replies, budget), id, client, key);
  }

  // ---------------------------------------------------------------------------
  // Where a walk ends, and what it leaves
  // ---------------------------------------------------------------------------

  /** The walk goes on to the next broker. */
  predicate PassesOn(r: Reply) {
    match r
    case Denied(rejects) => !rejects
    case SessionFails => false
    case Accepts(_) => false
    case Refuses(_, retryable) => retryable
    case Breaks => true
  }

  /** Position k is the first whose reply does not pass on, or the end of the chain. */
  predicate EndsIn(replies: seq<Reply>, k: nat) {
    k <= |replies| && (forall i :: 0 <= i < k ==> PassesOn(replies[i])) && (k < |replies| ==> !PassesOn(replies[k]))
  }

  predicate Reached(r: Reply) {
    r.Accepts? || r.Refuses? || r.Breaks?
  }

  function Why(r: Reply): string {
    match r
    case Denied(_) => "RATE_LIMITED"
    case SessionFails => "BROKER_ERROR"
    case Accepts(_) => "BROKER_ERROR"
    case Refuses(code, _) => code
    case Breaks => "BROKER_ERROR"
  }

  lemma {:induction false} EndsAtStop(replies: seq<Reply>, j: nat, k: nat)
    requires EndsIn(replies, k) && j <= k
    ensures StopAt(replies, j) == k
    decreases k - j
  {
    if j < k {
      assert PassesOn(replies[j]);
      EndsAtStop(replies, j + 1, k);
    }
  }

  /** How a walk that ends at position k leaves its order. */
  predicate Leaves(x: Order, x': Order, chain: Chain, replies: seq<Reply>, k: nat)
    requires |replies| == |chain| && k <= |chain|
  {
    if k == |chain| then
      && x'.status == Failed && x'.brokerOrderId == x.brokerOrderId
      && x'.errorCode == Some(if k == 0 || Why(replies[k - 1]) == "" then "FAILOVER_EXHAUSTED" else Why(replies[k - 1]))
    else
      match replies[k]
      case Denied(_) =>
        x'.status == Failed && x'.errorCode == Some("RATE_LIMITED") && x'.brokerOrderId == x.brokerOrderId
      case SessionFails =>
        && x'.errorCode == x.errorCode && x'.brokerOrderId == x.brokerOrderId
        && x'.status == (if exists i :: 0 <= i < k && Reached(replies[i]) then Submitting else x.status)
      case Accepts(id) =>
        && x'.status == Submitted && x'.errorCode == None && x'.brokerOrderId == id
        && x'.broker == Some(chain[k].broker) && x'.ip == chain[k].ip
      case Refuses(code, _) =>
        && x'.status == Failed && x'.errorCode == Some(code) && x'.brokerOrderId == x.brokerOrderId
        && x'.broker == Some(chain[k].broker) && x'.ip == chain[k].ip
      case Breaks => false
  }

  /** What the caller of a walk that ends at position k sees. */
  function EndBy(replies: seq<Reply>, k: nat): End
    requires k <= |replies|
  {
    if k == |replies| then ExhaustedEnd
    else
      match replies[k]
      case Denied(_) => RateLimitedEnd
      case SessionFails => SessionEnd
      case Accepts(_) => Placed
      case Refuses(code, _) => RejectedEnd(code)
      case Breaks => ExhaustedEnd
  }

  lemma FinalLeaves(x: Order, chain: Chain, replies: seq<Reply>, k: nat)
    requires |replies| == |chain| && EndsIn(replies, k)
    ensures Leaves(x, FinalOrder(x, chain, replies, "", 0, k), chain, replies, k)
  {
    PointingTells(x, chain, replies, 0, k);
  }

  lemma WalkWrites(db: Db, o: nat, chain: Chain, replies: seq<Reply>, k: nat)
    requires o in db.orders && |replies| == |chain| && EndsIn(replies, k)
    ensures var r := Walk(db, o, chain, replies, 0, "", Enough(|chain|));
            r.end == EndBy(replies, k) && r.db.orders == db.orders[o := FinalOrder(db.orders[o], chain, replies, "", 0, k)]
  {
    EndsAtStop(replies, 0, k);
    WalkTells(db, o, chain, replies, 0, "", Enough(|chain|));
  }

  lemma OneWritten(orders: map<nat, Order>, o: nat, x: Order)
    requires o in orders
    ensures var orders' := orders[o := x];
            orders'.Keys == orders.Keys && orders'[o] == x && forall y :: y in orders && y != o ==> orders'[y] == orders[y]
  {
  }

  /** The outcome of the order, by the reply at which its walk ends; every other order stays. */
  lemma WalkSettlesOrder(db: Db, o: nat, chain: Chain, replies: seq<Reply>, k: nat)
    requires o in db.orders && |replies| == |chain| && EndsIn(replies, k)
    ensures var r := Walk(db, o, chain, replies, 0, "", Enough(|chain|));
            && r.end == EndBy(replies, k) && r.db.orders.Keys == db.orders.Keys
            && (forall y :: y in db.orders && y != o ==> r.db.orders[y] == db.orders[y])
            && Leaves(db.orders[o], r.db.orders[o], chain, replies, k)
  {
    WalkWrites(db, o, chain, replies, k);
    FinalLeaves(db.orders[o], chain, replies, k);
    OneWritten(db.orders, o, FinalOrder(db.orders[o], chain, replies, "", 0, k));
  }

  lemma {:induction false} PointingTells(order: Order, chain: Chain, replies: seq<Reply>, j: nat, k: nat)
    requires |replies| == |chain| && k <= |chain|
    ensures var x := Pointing(order, chain, replies, j, k);
            && x.brokerOrderId == order.brokerOrderId && x.errorCode == order.errorCode
            && x.status == (if exists i :: j <= i < k && Reached(replies[i]) then Submitting else order.status)
    decreases k - j
  {
    if j < k {
      var next := if Asks(replies[j])
                  then order.(status := Submitting, broker := Some(chain[j].broker), ip := chain[j].ip) else order;
      PointingTells(next, chain, replies, j + 1, k);
    }
  }

  /** The broker that a failed order names is the last one that the walk reached. */
  lemma {:induction false} PointsToLast(order: Order, chain: Chain, replies: seq<Reply>, j: nat, k: nat, i: nat)
    requires |replies| == |chain| && j <= i < k <= |chain| && Reached(replies[i])
    requires forall n :: i < n < k ==> !Reached(replies[n])
    ensures Pointing(order, chain, replies, j, k).broker == Some(chain[i].broker)
    ensures Pointing(order, chain, replies, j, k).ip == chain[i].ip
    decreases k - j
  {
    var next := if Asks(replies[j])
                then order.(status := Submitting, broker := Some(chain[j].broker), ip := chain[j].ip) else order;
    if j < i {
      PointsToLast(next, chain, replies, j + 1, k, i);
    } else {
      NoneReached(next, chain, replies, i + 1, k);
    }
  }

  lemma {:induction false} NoneReached(order: Order, chain: Chain, replies: seq<Reply>, j: nat, k: nat)
    requires |replies| == |chain| && k <= |chain| && forall n :: j <= n < k ==> !Reached(replies[n])
    ensures Pointing(order, chain, replies, j, k) == order
    decreases k - j
  {
    if j < k {
      NoneReached(order, chain, replies, j + 1, k);
    }
  }

  lemma WalkPointsToLast(db: Db, o: nat, chain: Chain, replies: seq<Reply>, k: nat, i: nat)
    requires o in db.orders && |replies| == |chain| && EndsIn(replies, k)
    requires i <= k && i < |chain| && Reached(replies[i]) && forall n :: i < n < |chain| && n <= k ==> !Reached(replies[n])
    ensures var x := Walk(db, o, chain, replies, 0, "", Enough(|chain|)).db.orders[o];
            x.broker == Some(chain[i].broker) && x.ip == chain[i].ip
  {
    EndsAtStop(replies, 0, k);
    WalkTells(db, o, chain, replies, 0, "", Enough(|chain|));
    if i < k {
      PointsToLast(db.orders[o], chain, replies, 0, k, i);
    }
  }

  // ---------------------------------------------------------------------------
  // Failovers, attempts and events
  // ---------------------------------------------------------------------------

  lemma {:induction false} HopAt(o: nat, chain: Chain, replies: seq<Reply>, j: nat, k: nat, i: nat)
    requires |replies| == |chain| && j <= k < |chain| && i < k - j
    ensures |Hops(o, chain, replies, j, k)| == k - j
    ensures Hops(o, chain, replies, j, k)[i]
            == Failover(o, chain[j + i].broker, chain[j + i + 1].broker, Why(replies[j + i]))
    decreases k - j
  {
    HopsCount(o, chain, replies, j, k);
    if i > 0 {
      HopAt(o, chain, replies, j + 1, k, i - 1);
    }
  }

  /** The i-th failover event of a walk goes from the i-th broker to the next one, for the reason that the
      i-th reply gives. */
  lemma FailoverTells(db: Db, o: nat, chain: Chain, replies: seq<Reply>, k: nat, i: nat)
    requires o in db.orders && |replies| == |chain| && EndsIn(replies, k) && i < k && i + 1 < |chain|
    ensures var f := Walk(db, o, chain, replies, 0, "", Enough(|chain|)).db.failovers;
            && |f| == |db.failovers| + (if k == |chain| then k - 1 else k)
            && f[|db.failovers| + i] == Failover(o, chain[i].broker, chain[i + 1].broker, Why(replies[i]))
  {
    EndsAtStop(replies, 0, k);
    WalkTells(db, o, chain, replies, 0, "", Enough(|chain|));
    HopAt(o, chain, replies, 0, LastVisited(|chain|, k), i);
  }

  /** What a walk records of the broker at position i. */
  function AttemptAt(o: nat, chain: Chain, replies: seq<Reply>, i: nat): Attempt
    requires |replies| == |chain| && i < |chain|
  {
    Attempt(o, i + 1, chain[i].broker, chain[i].ip,
            if replies[i].Accepts? then Taken else Lost, if replies[i].Accepts? then replies[i].brokerOrderId else None)
  }

  /** How many brokers before position k were reached. */
  function ReachedBefore(replies: seq<Reply>, j: nat, k: nat): nat
    requires k <= |replies|
    decreases k - j
  {
    if j >= k then 0 else (if Reached(replies[j]) then 1 else 0) + ReachedBefore(replies, j + 1, k)
  }

  lemma {:induction false} LostCount(o: nat, chain: Chain, replies: seq<Reply>, j: nat, k: nat)
    requires |replies| == |chain| && k <= |chain|
    ensures |LostAttempts(o, chain, replies, j, k)| == ReachedBefore(replies, j, k)
    decreases k - j
  {
    if j < k {
      LostCount(o, chain, replies, j + 1, k);
    }
  }

  lemma {:induction false} LostAt(o: nat, chain: Chain, replies: seq<Reply>, j: nat, k: nat, i: nat)
    requires |replies| == |chain| && k <= |chain| && (forall n :: j <= n < k ==> PassesOn(replies[n]))
    requires j <= i < k && Reached(replies[i])
    ensures ReachedBefore(replies, j, i) < |LostAttempts(o, chain, replies, j, k)|
    ensures LostAttempts(o, chain, replies, j, k)[ReachedBefore(replies, j, i)] == AttemptAt(o, chain, replies, i)
    decreases k - j
  {
    assert PassesOn(replies[j]);
    var rest := LostAttempts(o, chain, replies, j + 1, k);
    if j < i {
      LostAt(o, chain, replies, j + 1, k, i);
      assert LostAttempts(o, chain, replies, j, k) == (if Asks(replies[j]) then [AttemptAt(o, chain, replies, j)] else []) + rest;
    } else {
      assert ReachedBefore(replies, j, i) == 0;
      assert LostAttempts(o, chain, replies, j, k) == [AttemptAt(o, chain, replies, j)] + rest;
    }
  }

  /** A walk adds one attempt for each broker that it reached, in the order of the chain, numbered by
      position: taken with the broker's id where it accepted, lost elsewhere. */
  lemma AttemptTells(db: Db, o: nat, chain: Chain, replies: seq<Reply>, k: nat, i: nat)
    requires o in db.orders && |replies| == |chain| && EndsIn(replies, k)
    requires i <= k && i < |chain| && Reached(replies[i])
    ensures var a := Walk(db, o, chain, replies, 0, "", Enough(|chain|)).db.attempts;
            && |a| == |db.attempts| + ReachedBefore(replies, 0, if k == |chain| then k else k + 1)
            && |db.attempts| + ReachedBefore(replies, 0, i) < |a|
            && a[|db.attempts| + ReachedBefore(replies, 0, i)] == AttemptAt(o, chain, replies, i)
  {
    EndsAtStop(replies, 0, k);
    WalkTells(db, o, chain, replies, 0, "", Enough(|chain|));
    LostCount(o, chain, replies, 0, k);
    if i < k {
      LostAt(o, chain, replies, 0, k, i);
    }
    if k < |chain| {
      ReachedOneMore(replies, 0, k);
    }
  }

  lemma {:induction false} ReachedOneMore(replies: seq<Reply>, j: nat, k: nat)
    requires j <= k < |replies|
    ensures ReachedBefore(replies, j, k + 1) == ReachedBefore(replies, j, k) + if Reached(replies[k]) then 1 else 0
    decreases k - j
  {
    if j < k {
      ReachedOneMore(replies, j + 1, k);
    }
  }

  /** A walk announces its order exactly if a broker accepts it, with that broker's data. */
  lemma EventTells(db: Db, o: nat, chain: Chain, replies: seq<Reply>, k: nat)
    requires o in db.orders && |replies| == |chain| && EndsIn(replies, k)
    ensures Walk(db, o, chain, replies, 0, "", Enough(|chain|)).db.outbox
            == db.outbox + if k < |chain| && replies[k].Accepts?
                           then [OrderSubmitted(o, chain[k].broker, chain[k].ip, replies[k].brokerOrderId)] else []
  {
    EndsAtStop(replies, 0, k);
    WalkTells(db, o, chain, replies, 0, "", Enough(|chain|));
  }

  // ---------------------------------------------------------------------------
  // What a recovery adopts
  // ---------------------------------------------------------------------------

  /** A taken attempt of the order that names its broker order. */
  predicate NamedOf(a: Attempt, o: nat) {
    a.order == o && a.status == Taken && a.brokerOrderId.Some? && a.brokerOrderId.value != ""
  }

  /** The one with the highest number is adopted. */
  lemma {:induction false} AdoptsHighest(attempts: seq<Attempt>, o: nat)
    ensures Adoptable(attempts, o).Some? <==> exists i :: 0 <= i < |attempts| && NamedOf(attempts[i], o)
    ensures var found := Adoptable(attempts, o);
            found.Some? ==> found.value in attempts && NamedOf(found.value, o)
                            && forall i :: 0 <= i < |attempts| && NamedOf(attempts[i], o) ==> attempts[i].no <= found.value.no
  {
    if attempts != [] {
      var init := attempts[..|attempts| - 1];
      AdoptsHighest(init, o);
      assert forall i :: 0 <= i < |init| ==> init[i] == attempts[i];
      if i :| 0 <= i < |init| && NamedOf(init[i], o) {
        assert NamedOf(attempts[i], o);
      }
    }
  }

  /** A recovery of an unfinished order that finds such an attempt takes over its broker, IP and id, and
      writes nothing else. */
  lemma RecoveryAdopts(db: Db, o: nat, route: Option<Chain>, replies: seq<Reply>, budget: nat, i: nat)
    requires o in db.orders && db.orders[o].status in {Created, Submitting, InDoubt} && budget > 0
    requires (route.Some? ==> |replies| == |route.value|) && i < |db.attempts| && NamedOf(db.attempts[i], o)
    ensures exists a :: a in db.attempts && NamedOf(a, o) && db.attempts[i].no <= a.no
              && Recover(db, o, route, replies, budget)
                 == db.(orders := db.orders[o := db.orders[o].(status := Submitted, errorCode := None,
                                                               broker := Some(a.broker), ip := a.ip, brokerOrderId := a.brokerOrderId)])
  {
    AdoptsHighest(db.attempts, o);
    var a := Adoptable(db.attempts, o).value;
    assert a in db.attempts && NamedOf(a, o);
  }
}
