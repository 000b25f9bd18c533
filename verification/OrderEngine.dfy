/** The order tables and the failover walk that submits an order along a chain of brokers. */
module OrderEngine {
  import opened Common
  import Routing

  datatype OrderStatus = Created | Submitting | Submitted | Failed | Cancelled | InDoubt

  datatype Order = Order(
    id: nat,
    client: nat,
    clientOrderId: string,
    status: OrderStatus,
    broker: Option<nat>,
    ip: Option<nat>,
    errorCode: Option<string>,
    brokerOrderId: Option<string>)

  datatype AttemptStatus = InFlight | Taken | Lost

  datatype Attempt = Attempt(
    order: nat,
    no: nat,
    broker: nat,
    ip: Option<nat>,
    status: AttemptStatus,
    brokerOrderId: Option<string>)

  datatype Failover = Failover(order: nat, from: nat, to: nat, reason: string)

  datatype Event =
    | OrderSubmitted(order: nat, broker: nat, ip: Option<nat>, brokerOrderId: Option<string>)
    | OrderCancelled(order: nat, brokerOrderId: Option<string>)

  datatype Db = Db(orders: map<nat, Order>, attempts: seq<Attempt>, outbox: seq<Event>, failovers: seq<Failover>)

  /** What happens at one position of the chain, chosen by the environment. */
  datatype Reply =
    | Denied(rejects: bool)
    | SessionFails
    | Accepts(brokerOrderId: Option<string>)
    | Refuses(code: string, retryable: bool)
    | Breaks

  datatype End = Crashed | Placed | RateLimitedEnd | SessionEnd | RejectedEnd(code: string) | ExhaustedEnd

  datatype Outcome = Outcome(db: Db, end: End)

  // ---------------------------------------------------------------------------
  // The commits
  // ---------------------------------------------------------------------------

  function Fail(db: Db, o: nat, code: string): Db
    requires o in db.orders
  {
    db.(orders := db.orders[o := db.orders[o].(status := Failed, errorCode := Some(code))])
  }

  function Send(db: Db, o: nat, c: Routing.Candidate, k: nat): Db
    requires o in db.orders
  {
    db.(orders := db.orders[o := db.orders[o].(status := Submitting, broker := Some(c.broker), ip := c.ip)],
        attempts := db.attempts + [Attempt(o, k + 1, c.broker, c.ip, InFlight, None)])
  }

  function Accept(db: Db, o: nat, c: Routing.Candidate, brokerOrderId: Option<string>): Db
    requires o in db.orders && db.attempts != []
  {
    var n := |db.attempts| - 1;
    db.(orders := db.orders[o := db.orders[o].(status := Submitted, brokerOrderId := brokerOrderId, errorCode := None)],
        attempts := db.attempts[n := db.attempts[n].(status := Taken, brokerOrderId := brokerOrderId)],
        outbox := db.outbox + [OrderSubmitted(o, c.broker, c.ip, brokerOrderId)])
  }

  function Lose(db: Db): Db
    requires db.attempts != []
  {
    var n := |db.attempts| - 1;
    db.(attempts := db.attempts[n := db.attempts[n].(status := Lost)])
  }

  function NoteFailover(db: Db, o: nat, chain: seq<Routing.Candidate>, k: nat, reason: string): Db
    requires k + 1 < |chain|
  {
    db.(failovers := db.failovers + [Failover(o, chain[k].broker, chain[k + 1].broker, reason)])
  }

  function FinalCode(last: string): string {
    if last == "" then "FAILOVER_EXHAUSTED" else last
  }

  // ---------------------------------------------------------------------------
  // The walk, which may crash when its budget of commits runs out
  // ---------------------------------------------------------------------------

  function Walk(db: Db, o: nat, chain: seq<Routing.Candidate>, replies: seq<Reply>, k: nat, last: string, budget: nat): (r: Outcome)
    requires o in db.orders && |replies| == |chain| && k <= |chain|
    ensures o in r.db.orders
    decreases |chain| - k, 1
  {
    if k == |chain| then
      if budget == 0 then Outcome(db, Crashed) else Outcome(Fail(db, o, FinalCode(last)), ExhaustedEnd)
    else
      var r := replies[k];
      if r.Denied? && r.rejects then
        if budget == 0 then Outcome(db, Crashed) else Outcome(Fail(db, o, "RATE_LIMITED"), RateLimitedEnd)
      else if r.Denied? then MoveOn(db, o, chain, replies, k, budget)
      else if r.SessionFails? then Outcome(db, SessionEnd)
      else if budget == 0 then Outcome(db, Crashed)
      else Ask(Send(db, o, chain[k], k), o, chain, replies, k, budget - 1)
  }

  /** The broker has been asked; its reply is recorded by the next commit. */
  function Ask(db: Db, o: nat, chain: seq<Routing.Candidate>, replies: seq<Reply>, k: nat, budget: nat): (r: Outcome)
    requires o in db.orders && |replies| == |chain| && k < |chain| && db.attempts != []
    ensures o in r.db.orders
    decreases |chain| - k, 0, 1
  {
    var r := replies[k];
    if budget == 0 then Outcome(db, Crashed)
    else if r.Accepts? then Outcome(Accept(db, o, chain[k], r.brokerOrderId), Placed)
    else if r.Refuses? && !r.retryable then
      if budget == 1 then Outcome(Lose(db), Crashed) else Outcome(Fail(Lose(db), o, r.code), RejectedEnd(r.code))
    else MoveOn(Lose(db), o, chain, replies, k, budget - 1)
  }

  function MoveOn(db: Db, o: nat, chain: seq<Routing.Candidate>, replies: seq<Reply>, k: nat, budget: nat): (r: Outcome)
    requires o in db.orders && |replies| == |chain| && k < |chain|
    ensures o in r.db.orders
    decreases |chain| - k, 0, 0
  {
    var reason := ReasonOf(replies[k]);
    if k + 1 < |chain| then
      if budget == 0 then Outcome(db, Crashed)
      else Walk(NoteFailover(db, o, chain, k, reason), o, chain, replies, k + 1, reason, budget - 1)
    else Walk(db, o, chain, replies, k + 1, reason, budget)
  }

  /** Enough commits for a walk over n brokers to finish. */
  function Enough(n: nat): nat {
    3 * n + 1
  }

  // ---------------------------------------------------------------------------
  // The declarative reading of a walk that does not crash
  // ---------------------------------------------------------------------------

  /** The broker is actually asked. */
  predicate Asks(r: Reply) {
    r.Accepts? || r.Refuses? || r.Breaks?
  }

  predicate Stops(r: Reply) {
    r == Denied(true) || r.SessionFails? || r.Accepts? || (r.Refuses? && !r.retryable)
  }

  function ReasonOf(r: Reply): string {
    match r
    case Denied(_) => "RATE_LIMITED"
    case Refuses(code, _) => code
    case _ => "BROKER_ERROR"
  }

  /** The first position at or after j where the walk stops, or the end of the chain. */
  function StopAt(replies: seq<Reply>, j: nat): (k: nat)
    requires j <= |replies|
    ensures j <= k <= |replies|
    ensures forall i :: j <= i < k ==> !Stops(replies[i])
    ensures k < |replies| ==> Stops(replies[k])
    decreases |replies| - j
  {
    if j == |replies| || Stops(replies[j]) then j else StopAt(replies, j + 1)
  }

  /** The failover event of position j, if a next broker is there. */
  function Hop(o: nat, chain: seq<Routing.Candidate>, replies: seq<Reply>, j: nat): seq<Failover>
    requires |replies| == |chain| && j < |chain|
  {
    if j + 1 < |chain| then [Failover(o, chain[j].broker, chain[j + 1].broker, ReasonOf(replies[j]))] else []
  }

  /** One failover event for each of the consecutive pairs j, ..., k-1. */
  function Hops(o: nat, chain: seq<Routing.Candidate>, replies: seq<Reply>, j: nat, k: nat): seq<Failover>
    requires |replies| == |chain| && k < |chain|
    decreases k - j
  {
    if j >= k then []
    else [Failover(o, chain[j].broker, chain[j + 1].broker, ReasonOf(replies[j]))] + Hops(o, chain, replies, j + 1, k)
  }

  /** One lost attempt for each position j, ..., k-1 whose broker was asked. */
  function LostAttempts(o: nat, chain: seq<Routing.Candidate>, replies: seq<Reply>, j: nat, k: nat): seq<Attempt>
    requires |replies| == |chain| && k <= |chain|
    decreases k - j
  {
    if j >= k then []
    else (if Asks(replies[j]) then [Attempt(o, j + 1, chain[j].broker, chain[j].ip, Lost, None)] else [])
         + LostAttempts(o, chain, replies, j + 1, k)
  }

  /** Where the order points after positions j, ..., k-1 failed: at the last broker asked. */
  function Pointing(order: Order, chain: seq<Routing.Candidate>, replies: seq<Reply>, j: nat, k: nat): Order
    requires |replies| == |chain| && k <= |chain|
    decreases k - j
  {
    if j >= k then order
    else if Asks(replies[j]) then
      Pointing(order.(status := Submitting, broker := Some(chain[j].broker), ip := chain[j].ip), chain, replies, j + 1, k)
    else Pointing(order, chain, replies, j + 1, k)
  }

  function LastReason(replies: seq<Reply>, last: string, j: nat, k: nat): string
    requires k <= |replies|
  {
    if j >= k then last else ReasonOf(replies[k - 1])
  }

  /** The attempt at the position where the walk stops, if its broker was asked. */
  function FinalAttempt(o: nat, chain: seq<Routing.Candidate>, replies: seq<Reply>, k: nat): seq<Attempt>
    requires |replies| == |chain| && k <= |chain|
  {
    if k == |chain| || !Asks(replies[k]) then []
    else
      match replies[k]
      case Accepts(id) => [Attempt(o, k + 1, chain[k].broker, chain[k].ip, Taken, id)]
      case _ => [Attempt(o, k + 1, chain[k].broker, chain[k].ip, Lost, None)]
  }

  function FinalOrder(order: Order, chain: seq<Routing.Candidate>, replies: seq<Reply>, last: string, j: nat, k: nat): Order
    requires |replies| == |chain| && k <= |chain|
  {
    var seen := Pointing(order, chain, replies, j, k);
    if k == |chain| then seen.(status := Failed, errorCode := Some(FinalCode(LastReason(replies, last, j, k))))
    else
      match replies[k]
      case Denied(_) => seen.(status := Failed, errorCode := Some("RATE_LIMITED"))
      case SessionFails => seen
      case Accepts(id) =>
        seen.(status := Submitted, broker := Some(chain[k].broker), ip := chain[k].ip, brokerOrderId := id, errorCode := None)
      case Refuses(code, _) =>
        seen.(status := Failed, broker := Some(chain[k].broker), ip := chain[k].ip, errorCode := Some(code))
      case Breaks => seen
  }

  function FinalEvents(o: nat, chain: seq<Routing.Candidate>, replies: seq<Reply>, k: nat): seq<Event>
    requires |replies| == |chain| && k <= |chain|
  {
    if k < |chain| && replies[k].Accepts?
    then [OrderSubmitted(o, chain[k].broker, chain[k].ip, replies[k].brokerOrderId)] else []
  }

  function EndAt(replies: seq<Reply>, k: nat): End
    requires k <= |replies|
  {
    if k == |replies| then ExhaustedEnd
    else
      match replies[k]
      case Denied(_) => RateLimitedEnd
      case SessionFails => SessionEnd
      case Accepts(_) => Placed
      case Refuses(code, _) => RejectedEnd(code)
      case Breaks => ExhaustedEnd
  }

  /** The last position the walk visits. */
  function LastVisited(n: nat, k: nat): nat
    requires n > 0
  {
    if k == n then n - 1 else k
  }

  /** What a walk from position j leaves behind, told by the position k where it stops. */
  ghost predicate Tells(before: Db, r: Outcome, o: nat, chain: seq<Routing.Candidate>, replies: seq<Reply>, last: string, j: nat, k: nat)
    requires o in before.orders && |replies| == |chain| && j <= k <= |chain|
  {
    && r.end == EndAt(replies, k)
    && r.db.orders == before.orders[o := FinalOrder(before.orders[o], chain, replies, last, j, k)]
    && r.db.attempts == before.attempts + LostAttempts(o, chain, replies, j, k) + FinalAttempt(o, chain, replies, k)
    && r.db.outbox == before.outbox + FinalEvents(o, chain, replies, k)
    && r.db.failovers == before.failovers + (if chain == [] then [] else Hops(o, chain, replies, j, LastVisited(|chain|, k)))
  }

  /** The tables after position j failed and the walk moved on. */
  function Passed(db: Db, o: nat, chain: seq<Routing.Candidate>, replies: seq<Reply>, j: nat): Db
    requires o in db.orders && |replies| == |chain| && j < |chain|
  {
    var asked := if Asks(replies[j]) then Lose(Send(db, o, chain[j], j)) else db;
    if j + 1 < |chain| then NoteFailover(asked, o, chain, j, ReasonOf(replies[j])) else asked
  }

  lemma PassedTables(db: Db, o: nat, chain: seq<Routing.Candidate>, replies: seq<Reply>, j: nat)
    requires o in db.orders && |replies| == |chain| && j < |chain|
    ensures var p := Passed(db, o, chain, replies, j);
            && p.orders == db.orders[o := Pointing(db.orders[o], chain, replies, j, j + 1)]
            && p.attempts == db.attempts + LostAttempts(o, chain, replies, j, j + 1)
            && p.outbox == db.outbox
            && p.failovers == db.failovers
                 + Hop(o, chain, replies, j)
  {
    assert LostAttempts(o, chain, replies, j + 1, j + 1) == [];
    if !Asks(replies[j]) {
      assert db.orders == db.orders[o := db.orders[o]];
    }
  }

  lemma {:induction false} WalkPasses(db: Db, o: nat, chain: seq<Routing.Candidate>, replies: seq<Reply>, j: nat, last: string, budget: nat)
    returns (left: nat)
    requires o in db.orders && |replies| == |chain| && j < |chain| && !Stops(replies[j]) && Enough(|chain| - j) <= budget
    ensures Enough(|chain| - j - 1) <= left
    ensures Walk(db, o, chain, replies, j, last, budget)
            == Walk(Passed(db, o, chain, replies, j), o, chain, replies, j + 1, ReasonOf(replies[j]), left)
  {
    var asked := if Asks(replies[j]) then Lose(Send(db, o, chain[j], j)) else db;
    var spent := if Asks(replies[j]) then budget - 2 else budget;
    assert Walk(db, o, chain, replies, j, last, budget) == MoveOn(asked, o, chain, replies, j, spent);
    left := if j + 1 < |chain| then spent - 1 else spent;
    assert Enough(|chain| - j - 1) <= left;
    assert MoveOn(asked, o, chain, replies, j, spent)
           == Walk(Passed(db, o, chain, replies, j), o, chain, replies, j + 1, ReasonOf(replies[j]), left);
  }

  lemma LostAttemptsSplit(o: nat, chain: seq<Routing.Candidate>, replies: seq<Reply>, j: nat, k: nat)
    requires |replies| == |chain| && j < k <= |chain|
    ensures LostAttempts(o, chain, replies, j, k)
            == LostAttempts(o, chain, replies, j, j + 1) + LostAttempts(o, chain, replies, j + 1, k)
  {
    assert LostAttempts(o, chain, replies, j + 1, j + 1) == [];
  }

  lemma HopsSplit(o: nat, chain: seq<Routing.Candidate>, replies: seq<Reply>, j: nat, k: nat)
    requires |replies| == |chain| && j < k <= |chain|
    ensures Hops(o, chain, replies, j, LastVisited(|chain|, k))
            == Hop(o, chain, replies, j) + Hops(o, chain, replies, j + 1, LastVisited(|chain|, k))
  {
  }

  lemma OrderSplit(order: Order, chain: seq<Routing.Candidate>, replies: seq<Reply>, last: string, j: nat, k: nat)
    requires |replies| == |chain| && j < k <= |chain|
    ensures FinalOrder(order, chain, replies, last, j, k)
            == FinalOrder(Pointing(order, chain, replies, j, j + 1), chain, replies, ReasonOf(replies[j]), j + 1, k)
  {
    PointingSteps(order, chain, replies, j, k);
    assert LastReason(replies, last, j, k) == LastReason(replies, ReasonOf(replies[j]), j + 1, k);
  }

  lemma AttemptsTold(db: Db, p: Db, r: Db, o: nat, chain: seq<Routing.Candidate>, replies: seq<Reply>, j: nat, k: nat)
    requires |replies| == |chain| && j < k <= |chain|
    requires p.attempts == db.attempts + LostAttempts(o, chain, replies, j, j + 1)
    requires r.attempts == p.attempts + LostAttempts(o, chain, replies, j + 1, k) + FinalAttempt(o, chain, replies, k)
    ensures r.attempts == db.attempts + LostAttempts(o, chain, replies, j, k) + FinalAttempt(o, chain, replies, k)
  {
    LostAttemptsSplit(o, chain, replies, j, k);
    Associates(db.attempts, LostAttempts(o, chain, replies, j, j + 1), LostAttempts(o, chain, replies, j + 1, k));
  }

  lemma FailoversTold(db: Db, p: Db, r: Db, o: nat, chain: seq<Routing.Candidate>, replies: seq<Reply>, j: nat, k: nat)
    requires |replies| == |chain| && j < k <= |chain|
    requires p.failovers == db.failovers + Hop(o, chain, replies, j)
    requires r.failovers == p.failovers + Hops(o, chain, replies, j + 1, LastVisited(|chain|, k))
    ensures r.failovers == db.failovers + Hops(o, chain, replies, j, LastVisited(|chain|, k))
  {
    HopsSplit(o, chain, replies, j, k);
    Associates(db.failovers, Hop(o, chain, replies, j), Hops(o, chain, replies, j + 1, LastVisited(|chain|, k)));
  }

  /** What is told from position j + 1 on is told from j, once position j has passed. */
  lemma TellsFromBefore(db: Db, p: Db, r: Outcome, o: nat, chain: seq<Routing.Candidate>, replies: seq<Reply>, last: string, j: nat, k: nat)
    requires o in db.orders && |replies| == |chain| && j < k <= |chain|
    requires p == Passed(db, o, chain, replies, j)
    requires Tells(p, r, o, chain, replies, ReasonOf(replies[j]), j + 1, k)
    ensures Tells(db, r, o, chain, replies, last, j, k)
  {
    PassedTables(db, o, chain, replies, j);
    OrderSplit(db.orders[o], chain, replies, last, j, k);
    AttemptsTold(db, p, r.db, o, chain, replies, j, k);
    FailoversTold(db, p, r.db, o, chain, replies, j, k);
    Told(db, p, r, o, FinalOrder(db.orders[o], chain, replies, last, j, k), Pointing(db.orders[o], chain, replies, j, j + 1));
  }

  lemma Told(db: Db, p: Db, r: Outcome, o: nat, final: Order, passed: Order)
    requires p.orders == db.orders[o := passed] && r.db.orders == p.orders[o := final]
    ensures r.db.orders == db.orders[o := final]
  {
  }

  lemma Associates<T>(a: seq<T>, b: seq<T>, c: seq<T>)
    ensures a + (b + c) == a + b + c
  {
  }

  lemma PointingSteps(order: Order, chain: seq<Routing.Candidate>, replies: seq<Reply>, j: nat, k: nat)
    requires |replies| == |chain| && j < k <= |chain|
    ensures Pointing(order, chain, replies, j, k)
            == Pointing(Pointing(order, chain, replies, j, j + 1), chain, replies, j + 1, k)
  {
  }

  /** A walk with commits to spare does what the declarative reading says: it submits at the first
      position whose broker accepts if every earlier one was denied a hit, failed retryably or broke,
      with one failover event for each consecutive pair before it; a refusal or a rejecting denial at
      k stops it there; a chain of n exhausted brokers gives n - 1 events and a failed order. */
  lemma {:induction false} WalkTells(db: Db, o: nat, chain: seq<Routing.Candidate>, replies: seq<Reply>, j: nat, last: string, budget: nat)
    requires o in db.orders && |replies| == |chain| && j <= |chain| && Enough(|chain| - j) <= budget
    ensures Tells(db, Walk(db, o, chain, replies, j, last, budget), o, chain, replies, last, j, StopAt(replies, j))
    decreases |chain| - j
  {
    var r := Walk(db, o, chain, replies, j, last, budget);
    if j < |chain| && !Stops(replies[j]) {
      var left := WalkPasses(db, o, chain, replies, j, last, budget);
      WalkTells(Passed(db, o, chain, replies, j), o, chain, replies, j + 1, ReasonOf(replies[j]), left);
      TellsFromBefore(db, Passed(db, o, chain, replies, j), r, o, chain, replies, last, j, StopAt(replies, j + 1));
    } else {
      WalkStopsHere(db, o, chain, replies, j, last, budget);
    }
  }

  lemma {:induction false} WalkStopsHere(db: Db, o: nat, chain: seq<Routing.Candidate>, replies: seq<Reply>, j: nat, last: string, budget: nat)
    requires o in db.orders && |replies| == |chain| && j <= |chain| && Enough(|chain| - j) <= budget
    requires j == |chain| || Stops(replies[j])
    ensures Tells(db, Walk(db, o, chain, replies, j, last, budget), o, chain, replies, last, j, j)
  {
    assert LostAttempts(o, chain, replies, j, j) == [];
    if j < |chain| && Asks(replies[j]) {
      var sent := Send(db, o, chain[j], j);
      assert Walk(db, o, chain, replies, j, last, budget) == Ask(sent, o, chain, replies, j, budget - 1);
    } else if j < |chain| && replies[j].SessionFails? {
      assert db.orders == db.orders[o := db.orders[o]];
    }
  }

  lemma {:induction false} HopsCount(o: nat, chain: seq<Routing.Candidate>, replies: seq<Reply>, j: nat, k: nat)
    requires |replies| == |chain| && j <= k < |chain|
    ensures |Hops(o, chain, replies, j, k)| == k - j
    decreases k - j
  {
    if j < k {
      HopsCount(o, chain, replies, j + 1, k);
    }
  }

  /** Stopping at k leaves k failover events; exhausting n >= 1 brokers leaves n - 1. */
  lemma FailoversCounted(db: Db, o: nat, chain: seq<Routing.Candidate>, replies: seq<Reply>)
    requires o in db.orders && |replies| == |chain| && chain != []
    ensures var r, k := Walk(db, o, chain, replies, 0, "", Enough(|chain|)), StopAt(replies, 0);
            |r.db.failovers| == |db.failovers| + (if k == |chain| then |chain| - 1 else k)
  {
    WalkTells(db, o, chain, replies, 0, "", Enough(|chain|));
    HopsCount(o, chain, replies, 0, LastVisited(|chain|, StopAt(replies, 0)));
  }
}
