/** Whole runs of place, cancel and recovery, with a crash possible at any commit. */
module OrderRuns {
  import opened Common
  import opened OrderEngine
  import Routing

  type Chain = seq<Routing.Candidate>

  function NonEmpty(id: Option<string>): bool {
    id.Some? && id.value != ""
  }

  // ---------------------------------------------------------------------------
  // The operations
  // ---------------------------------------------------------------------------

  predicate HasKey(order: Order, client: nat, clientOrderId: string) {
    order.client == client && order.clientOrderId == clientOrderId
  }

  predicate KeyTaken(db: Db, client: nat, clientOrderId: string) {
    exists id :: id in db.orders && HasKey(db.orders[id], client, clientOrderId)
  }

  function NewOrder(id: nat, client: nat, clientOrderId: string): Order {
    Order(id, client, clientOrderId, Created, None, None, None, None)
  }

  /** `route` is absent when no route is found, which leaves the order CREATED. */
  function Place(db: Db, id: nat, client: nat, clientOrderId: string, route: Option<Chain>, replies: seq<Reply>, budget: nat): Db
    requires route.Some? ==> |replies| == |route.value|
  {
    if id in db.orders || KeyTaken(db, client, clientOrderId) || budget == 0 then db
    else
      var db1 := db.(orders := db.orders[id := NewOrder(id, client, clientOrderId)]);
      if route.None? then db1 else Walk(db1, id, route.value, replies, 0, "", budget - 1).db
  }

  predicate Cancelable(order: Order) {
    order.status == Submitted || order.status == Submitting || order.status == Created
  }

  /** `agrees` is the broker's answer; it is asked only when the order has reached it. */
  function Cancel(db: Db, id: nat, agrees: bool): Db {
    if id !in db.orders || !Cancelable(db.orders[id]) then db
    else if NonEmpty(db.orders[id].brokerOrderId) && !agrees then db
    else
      db.(orders := db.orders[id := db.orders[id].(status := Cancelled)],
          outbox := db.outbox + [OrderCancelled(id, if NonEmpty(db.orders[id].brokerOrderId)
                                                    then db.orders[id].brokerOrderId else None)])
  }

  /** The taken attempts of an order that carry a broker order id, by descending attempt number. */
  function Adoptable(attempts: seq<Attempt>, o: nat): Option<Attempt> {
    if attempts == [] then None
    else
      var last, before := attempts[|attempts| - 1], Adoptable(attempts[..|attempts| - 1], o);
      if last.order == o && last.status == Taken && NonEmpty(last.brokerOrderId)
         && (before.None? || before.value.no <= last.no)
      then Some(last) else before
  }

  function Adopt(db: Db, id: nat, a: Attempt): Db
    requires id in db.orders
  {
    db.(orders := db.orders[id := db.orders[id].(status := Submitted, brokerOrderId := a.brokerOrderId,
                                                 broker := Some(a.broker), ip := a.ip, errorCode := None)])
  }

  predicate Terminal(s: OrderStatus) {
    s == Submitted || s == Failed || s == Cancelled
  }

  function Recover(db: Db, id: nat, route: Option<Chain>, replies: seq<Reply>, budget: nat): Db
    requires route.Some? ==> |replies| == |route.value|
  {
    if id !in db.orders || Terminal(db.orders[id].status) || budget == 0 then db
    else if Adoptable(db.attempts, id).Some? then Adopt(db, id, Adoptable(db.attempts, id).value)
    else
      var doubted := db.orders[id].status == InDoubt;
      var db1 := if doubted then db.(orders := db.orders[id := db.orders[id].(status := Created)]) else db;
      if route.None? then db1
      else Walk(db1, id, route.value, replies, 0, "", if doubted then budget - 1 else budget).db
  }

  /** The external crash marker, on an order that is not cancelled. */
  function Doubt(db: Db, id: nat): Db {
    if id !in db.orders || db.orders[id].status == Cancelled then db
    else db.(orders := db.orders[id := db.orders[id].(status := InDoubt)])
  }

  datatype Action =
    | PlaceOrder(id: nat, client: nat, clientOrderId: string, route: Option<Chain>, replies: seq<Reply>, budget: nat)
    | CancelOrder(id: nat, agrees: bool)
    | RecoverOrder(id: nat, route: Option<Chain>, replies: seq<Reply>, budget: nat)
    | MarkInDoubt(id: nat)

  function Step(db: Db, a: Action): Db {
    match a
    case PlaceOrder(id, client, key, route, replies, budget) =>
      if route.Some? && |replies| != |route.value| then db else Place(db, id, client, key, route, replies, budget)
    case CancelOrder(id, agrees) => Cancel(db, id, agrees)
    case RecoverOrder(id, route, replies, budget) =>
      if route.Some? && |replies| != |route.value| then db else Recover(db, id, route, replies, budget)
    case MarkInDoubt(id) => Doubt(db, id)
  }

  const EMPTY := Db(map[], [], [], [])

  function Run(actions: seq<Action>): Db {
    if actions == [] then EMPTY else Step(Run(actions[..|actions| - 1]), actions[|actions| - 1])
  }

  // ---------------------------------------------------------------------------
  // What is on record about one order
  // ---------------------------------------------------------------------------

  function TakenBy(attempts: seq<Attempt>, o: nat): seq<Attempt> {
    if attempts == [] then []
    else
      var last := attempts[|attempts| - 1];
      TakenBy(attempts[..|attempts| - 1], o) + (if last.order == o && last.status == Taken then [last] else [])
  }

  function SubmittedOf(outbox: seq<Event>, o: nat): seq<Event> {
    if outbox == [] then []
    else
      var last := outbox[|outbox| - 1];
      SubmittedOf(outbox[..|outbox| - 1], o) + (if last.OrderSubmitted? && last.order == o then [last] else [])
  }

  function CancelledOf(outbox: seq<Event>, o: nat): seq<Event> {
    if outbox == [] then []
    else
      var last := outbox[|outbox| - 1];
      CancelledOf(outbox[..|outbox| - 1], o) + (if last.OrderCancelled? && last.order == o then [last] else [])
  }

  datatype Record = Record(order: Option<Order>, taken: seq<Attempt>, submitted: seq<Event>, cancelled: seq<Event>)

  function RecordOf(db: Db, o: nat): Record {
    Record(if o in db.orders then Some(db.orders[o]) else None,
           TakenBy(db.attempts, o), SubmittedOf(db.outbox, o), CancelledOf(db.outbox, o))
  }

  predicate Agrees(order: Order, a: Attempt) {
    order.broker == Some(a.broker) && order.ip == a.ip && order.brokerOrderId == a.brokerOrderId
  }

  /** At most one submission is recorded, once; one cancellation exactly for a cancelled order; and a
      submitted order agrees with the attempt that was taken. */
  predicate Sound(r: Record, o: nat) {
    if r.order.None? then r.taken == [] && r.submitted == [] && r.cancelled == []
    else
      var order := r.order.value;
      && |r.taken| <= 1
      && (r.taken != [] ==> NonEmpty(r.taken[0].brokerOrderId))
      && r.submitted == (if r.taken == [] then []
                         else [OrderSubmitted(o, r.taken[0].broker, r.taken[0].ip, r.taken[0].brokerOrderId)])
      && |r.cancelled| == (if order.status == Cancelled then 1 else 0)
      && (order.status in {Created, Submitting, Failed} ==> r.taken == [])
      && (order.status == Submitted ==> r.taken != [] && Agrees(order, r.taken[0]))
  }

  predicate SoundAt(db: Db, o: nat) {
    Sound(RecordOf(db, o), o)
  }

  ghost predicate AllSound(db: Db) {
    forall o :: SoundAt(db, o)
  }

  /** The commits that a walk makes at positions j, ..., k-1, each of which it leaves behind: one failover
      event, after the attempt and its loss if the broker was asked. */
  function CommitsBefore(replies: seq<Reply>, j: nat, k: nat): nat
    requires k <= |replies|
    decreases k - j
  {
    if j >= k then 0 else (if Asks(replies[j]) then 3 else 1) + CommitsBefore(replies, j + 1, k)
  }

  /** A walk from position j gets as far as recording an acceptance. */
  predicate RecordsAcceptance(replies: seq<Reply>, j: nat, budget: nat)
    requires j <= |replies|
  {
    var k := StopAt(replies, j);
    k < |replies| && replies[k].Accepts? && CommitsBefore(replies, j, k) + 2 <= budget
  }

  /** ... and the acceptance names no broker order. */
  predicate RecordsUnnamed(replies: seq<Reply>, j: nat, budget: nat)
    requires j <= |replies|
  {
    RecordsAcceptance(replies, j, budget) && !NonEmpty(replies[StopAt(replies, j)].brokerOrderId)
  }

  /** The walk that an action makes, with the commits that are left for it. */
  datatype Walking = Walking(id: nat, chain: Chain, replies: seq<Reply>, budget: nat)

  function WalkOf(db: Db, a: Action): (w: Option<Walking>)
    ensures w.Some? ==> |w.value.replies| == |w.value.chain|
  {
    match a
    case PlaceOrder(id, client, key, route, replies, budget) =>
      if route.None? || |replies| != |route.value| || id in db.orders || KeyTaken(db, client, key) || budget == 0 then None
      else Some(Walking(id, route.value, replies, budget - 1))
    case RecoverOrder(id, route, replies, budget) =>
      if route.None? || |replies| != |route.value| || id !in db.orders || Terminal(db.orders[id].status)
         || Adoptable(db.attempts, id).Some? || budget == 0 then None
      else Some(Walking(id, route.value, replies, if db.orders[id].status == InDoubt then budget - 1 else budget))
    case CancelOrder(_, _) => None
    case MarkInDoubt(_) => None
  }

  /** The tables in which the walk of a step begins. */
  function Started(db: Db, a: Action): (started: Db)
    requires WalkOf(db, a).Some?
    ensures db.orders.Keys + {a.id} == started.orders.Keys
  {
    if a.PlaceOrder? then db.(orders := db.orders[a.id := NewOrder(a.id, a.client, a.clientOrderId)])
    else if db.orders[a.id].status == InDoubt then db.(orders := db.orders[a.id := db.orders[a.id].(status := Created)])
    else db
  }

  /** The action walks a chain and records an unnamed acceptance. */
  predicate StepRecordsUnnamed(db: Db, a: Action) {
    var w := WalkOf(db, a);
    w.Some? && RecordsUnnamed(w.value.replies, 0, w.value.budget)
  }

  // ---------------------------------------------------------------------------
  // The walk keeps every record sound
  // ---------------------------------------------------------------------------

  /** An order that a walk may submit: nothing about it has been taken yet. */
  ghost predicate Open(db: Db, o: nat) {
    && o in db.orders && AllSound(db)
    && (db.orders[o].status == Created || db.orders[o].status == Submitting)
  }

  /** ... and whose attempt with the broker is the newest one. */
  ghost predicate Pending(db: Db, o: nat, c: Routing.Candidate) {
    && Open(db, o)
    && db.attempts != []
    && db.orders[o].broker == Some(c.broker) && db.orders[o].ip == c.ip
    && var last := db.attempts[|db.attempts| - 1];
       last.order == o && last.status == InFlight && last.broker == c.broker && last.ip == c.ip
  }

  lemma TakenOfLast(attempts: seq<Attempt>, a: Attempt, o: nat)
    requires attempts != []
    ensures var n := |attempts| - 1;
            TakenBy(attempts[n := a], o)
            == TakenBy(attempts[..n], o) + (if a.order == o && a.status == Taken then [a] else [])
  {
    var n := |attempts| - 1;
    assert attempts[n := a][..n] == attempts[..n];
  }

  lemma FailRecord(db: Db, o: nat, code: string)
    requires Open(db, o)
    ensures AllSound(Fail(db, o, code))
  {
    forall x
      ensures SoundAt(Fail(db, o, code), x)
    {
      assert SoundAt(db, x);
    }
  }

  lemma SendRecord(db: Db, o: nat, c: Routing.Candidate, k: nat)
    requires Open(db, o)
    ensures Pending(Send(db, o, c, k), o, c)
  {
    var a := Attempt(o, k + 1, c.broker, c.ip, InFlight, None);
    forall x
      ensures SoundAt(Send(db, o, c, k), x)
    {
      assert SoundAt(db, x);
      assert (db.attempts + [a])[..|db.attempts|] == db.attempts;
    }
  }

  lemma LoseRecord(db: Db, o: nat, c: Routing.Candidate)
    requires Pending(db, o, c)
    ensures Open(Lose(db), o)
  {
    var n := |db.attempts| - 1;
    forall x
      ensures SoundAt(Lose(db), x)
    {
      assert SoundAt(db, x);
      TakenOfLast(db.attempts, db.attempts[n].(status := Lost), x);
    }
  }

  lemma AcceptRecordOf(db: Db, o: nat, c: Routing.Candidate, id: Option<string>, x: nat)
    requires Pending(db, o, c)
    ensures var a := Attempt(o, db.attempts[|db.attempts| - 1].no, c.broker, c.ip, Taken, id);
            RecordOf(Accept(db, o, c, id), x)
            == if x != o then RecordOf(db, x)
               else Record(Some(db.orders[o].(status := Submitted, brokerOrderId := id, errorCode := None)),
                           TakenBy(db.attempts, o) + [a],
                           SubmittedOf(db.outbox, o) + [OrderSubmitted(o, c.broker, c.ip, id)],
                           CancelledOf(db.outbox, o))
  {
    var n := |db.attempts| - 1;
    TakenOfLast(db.attempts, db.attempts[n].(status := Taken, brokerOrderId := id), x);
    assert (db.outbox + [OrderSubmitted(o, c.broker, c.ip, id)])[..|db.outbox|] == db.outbox;
  }

  lemma AcceptRecord(db: Db, o: nat, c: Routing.Candidate, id: Option<string>)
    requires Pending(db, o, c)
    ensures AllSound(Accept(db, o, c, id)) <==> NonEmpty(id)
  {
    forall x
      ensures SoundAt(Accept(db, o, c, id), x) <==> x != o || NonEmpty(id)
    {
      AcceptSoundAt(db, o, c, id, x);
    }
    assert AllSound(Accept(db, o, c, id)) ==> SoundAt(Accept(db, o, c, id), o);
  }

  lemma AcceptSoundAt(db: Db, o: nat, c: Routing.Candidate, id: Option<string>, x: nat)
    requires Pending(db, o, c)
    ensures SoundAt(Accept(db, o, c, id), x) <==> x != o || NonEmpty(id)
  {
    assert SoundAt(db, x);
    AcceptRecordOf(db, o, c, id, x);
  }

  lemma NoteRecord(db: Db, o: nat, chain: Chain, k: nat, reason: string)
    requires Open(db, o) && k + 1 < |chain|
    ensures Open(NoteFailover(db, o, chain, k, reason), o)
  {
    forall x
      ensures SoundAt(NoteFailover(db, o, chain, k, reason), x)
    {
      assert SoundAt(db, x);
    }
  }

  /** Wherever the walk ends, including a crash between any two commits, every record is sound, unless the
      walk records an unnamed acceptance. */
  lemma {:induction false} WalkIsSound(db: Db, o: nat, chain: Chain, replies: seq<Reply>, k: nat, last: string, budget: nat)
    requires Open(db, o) && |replies| == |chain| && k <= |chain|
    ensures AllSound(Walk(db, o, chain, replies, k, last, budget).db) <==> !RecordsUnnamed(replies, k, budget)
    decreases |chain| - k, 1
  {
    if k == |chain| {
      FailRecord(db, o, FinalCode(last));
    } else if replies[k].Denied? && replies[k].rejects {
      FailRecord(db, o, "RATE_LIMITED");
    } else if replies[k].Denied? {
      MoveOnIsSound(db, o, chain, replies, k, budget);
    } else if !replies[k].SessionFails? && budget > 0 {
      SendRecord(db, o, chain[k], k);
      AskIsSound(Send(db, o, chain[k], k), o, chain, replies, k, budget - 1);
    }
  }

  /** The attempt is committed; recording an acceptance takes one more commit. */
  lemma {:induction false} AskIsSound(db: Db, o: nat, chain: Chain, replies: seq<Reply>, k: nat, budget: nat)
    requires |replies| == |chain| && k < |chain| && Pending(db, o, chain[k])
    requires Asks(replies[k])
    ensures AllSound(Ask(db, o, chain, replies, k, budget).db) <==> !RecordsUnnamed(replies, k, budget + 1)
    decreases |chain| - k, 0, 1
  {
    var r := replies[k];
    if budget > 0 {
      LoseRecord(db, o, chain[k]);
      if r.Accepts? {
        AcceptRecord(db, o, chain[k], r.brokerOrderId);
      } else if r.Refuses? && !r.retryable {
        FailRecord(Lose(db), o, r.code);
      } else {
        MoveOnIsSound(Lose(db), o, chain, replies, k, budget - 1);
      }
    }
  }

  /** The failover event takes one commit. */
  lemma {:induction false} MoveOnIsSound(db: Db, o: nat, chain: Chain, replies: seq<Reply>, k: nat, budget: nat)
    requires Open(db, o) && |replies| == |chain| && k < |chain|
    ensures AllSound(MoveOn(db, o, chain, replies, k, budget).db)
            <==> !(budget > 0 && RecordsUnnamed(replies, k + 1, budget - 1))
    decreases |chain| - k, 0, 0
  {
    if k + 1 < |chain| {
      if budget > 0 {
        NoteRecord(db, o, chain, k, ReasonOf(replies[k]));
        WalkIsSound(NoteFailover(db, o, chain, k, ReasonOf(replies[k])), o, chain, replies, k + 1, ReasonOf(replies[k]), budget - 1);
      }
    } else {
      WalkIsSound(db, o, chain, replies, k + 1, ReasonOf(replies[k]), budget);
    }
  }

  // ---------------------------------------------------------------------------
  // Every operation keeps every record sound
  // ---------------------------------------------------------------------------

  lemma {:induction false} AdoptableIsTaken(attempts: seq<Attempt>, o: nat)
    ensures Adoptable(attempts, o).Some? ==> Adoptable(attempts, o).value in TakenBy(attempts, o)
    ensures Adoptable(attempts, o).None? ==>
              forall i :: 0 <= i < |TakenBy(attempts, o)| ==> !NonEmpty(TakenBy(attempts, o)[i].brokerOrderId)
  {
    if attempts != [] {
      AdoptableIsTaken(attempts[..|attempts| - 1], o);
    }
  }

  lemma StatusRecord(db: Db, o: nat, order: Order)
    requires o in db.orders && AllSound(db)
    requires Sound(RecordOf(db, o).(order := Some(order)), o)
    ensures AllSound(db.(orders := db.orders[o := order]))
  {
    var db' := db.(orders := db.orders[o := order]);
    forall x
      ensures SoundAt(db', x)
    {
      assert SoundAt(db, x);
    }
  }

  lemma PlaceIsSound(db: Db, id: nat, client: nat, key: string, route: Option<Chain>, replies: seq<Reply>, budget: nat)
    requires AllSound(db) && (route.Some? ==> |replies| == |route.value|)
    ensures AllSound(Place(db, id, client, key, route, replies, budget))
            <==> !StepRecordsUnnamed(db, PlaceOrder(id, client, key, route, replies, budget))
  {
    if id !in db.orders && !KeyTaken(db, client, key) && budget > 0 {
      var db1 := db.(orders := db.orders[id := NewOrder(id, client, key)]);
      forall x
        ensures SoundAt(db1, x)
      {
        assert SoundAt(db, x);
      }
      if route.Some? {
        WalkIsSound(db1, id, route.value, replies, 0, "", budget - 1);
      }
    }
  }

  lemma CancelIsSound(db: Db, id: nat, agrees: bool)
    requires AllSound(db)
    ensures AllSound(Cancel(db, id, agrees))
  {
    var db' := Cancel(db, id, agrees);
    if db' != db {
      var e := db'.outbox[|db.outbox|];
      forall x
        ensures SoundAt(db', x)
      {
        assert SoundAt(db, x);
        assert (db.outbox + [e])[..|db.outbox|] == db.outbox;
      }
    }
  }

  lemma AdoptIsSound(db: Db, id: nat)
    requires AllSound(db) && id in db.orders && Adoptable(db.attempts, id).Some?
    requires !Terminal(db.orders[id].status)
    ensures AllSound(Adopt(db, id, Adoptable(db.attempts, id).value))
  {
    AdoptableIsTaken(db.attempts, id);
    assert SoundAt(db, id);
    StatusRecord(db, id, Adopt(db, id, Adoptable(db.attempts, id).value).orders[id]);
  }

  lemma NothingTaken(db: Db, id: nat)
    requires AllSound(db) && id in db.orders && Adoptable(db.attempts, id).None?
    requires !Terminal(db.orders[id].status)
    ensures AllSound(db.(orders := db.orders[id := db.orders[id].(status := Created)]))
    ensures TakenBy(db.attempts, id) == []
  {
    AdoptableIsTaken(db.attempts, id);
    assert SoundAt(db, id);
    StatusRecord(db, id, db.orders[id].(status := Created));
  }

  lemma RecoverIsSound(db: Db, id: nat, route: Option<Chain>, replies: seq<Reply>, budget: nat)
    requires AllSound(db) && (route.Some? ==> |replies| == |route.value|)
    ensures AllSound(Recover(db, id, route, replies, budget))
            <==> !StepRecordsUnnamed(db, RecoverOrder(id, route, replies, budget))
  {
    var act := RecoverOrder(id, route, replies, budget);
    if id in db.orders && !Terminal(db.orders[id].status) && budget > 0 {
      if Adoptable(db.attempts, id).Some? {
        AdoptIsSound(db, id);
      } else {
        NothingTaken(db, id);
        if route.Some? {
          assert WalkOf(db, act).Some?;
          var w := WalkOf(db, act).value;
          WalkIsSound(Started(db, act), id, w.chain, w.replies, 0, "", w.budget);
        }
      }
    }
  }

  lemma DoubtIsSound(db: Db, id: nat)
    requires AllSound(db)
    ensures AllSound(Doubt(db, id))
  {
    if id in db.orders && db.orders[id].status != Cancelled {
      assert SoundAt(db, id);
      StatusRecord(db, id, db.orders[id].(status := InDoubt));
    }
  }

  /** A step from a state in which every record is sound keeps every record sound exactly if it does not
      record an acceptance that names no broker order. */
  lemma StepIsSoundIff(db: Db, a: Action)
    requires AllSound(db)
    ensures AllSound(Step(db, a)) <==> !StepRecordsUnnamed(db, a)
  {
    match a
    case PlaceOrder(id, client, key, route, replies, budget) =>
      if route.None? || |replies| == |route.value| {
        PlaceIsSound(db, id, client, key, route, replies, budget);
      }
    case CancelOrder(id, agrees) => CancelIsSound(db, id, agrees);
    case RecoverOrder(id, route, replies, budget) =>
      if route.None? || |replies| == |route.value| {
        RecoverIsSound(db, id, route, replies, budget);
      }
    case MarkInDoubt(id) => DoubtIsSound(db, id);
  }

  /** Every record is sound in every state of the run. */
  ghost predicate SoundThroughout(actions: seq<Action>) {
    forall n: nat :: n <= |actions| ==> AllSound(Run(actions[..n]))
  }

  /** No step of the run records an acceptance that names no broker order. */
  ghost predicate NamesThroughout(actions: seq<Action>) {
    forall n: nat :: n < |actions| ==> !StepRecordsUnnamed(Run(actions[..n]), actions[n])
  }

  /** Over any serialized run of place, cancel, recovery and in-doubt marks, with crashes at any commit:
      every order has at most one taken attempt, exactly that many submission events, one cancellation
      event iff it is cancelled, and a submitted order agrees with its taken attempt, in every state of
      the run, exactly if no step records an acceptance that names no broker order. */
  lemma {:induction false} NoRecordedDoubleSubmission(actions: seq<Action>)
    ensures SoundThroughout(actions) <==> NamesThroughout(actions)
  {
    if NamesThroughout(actions) {
      forall n: nat | n <= |actions| ensures AllSound(Run(actions[..n])) {
        SoundUpTo(actions, n);
      }
    }
    if SoundThroughout(actions) {
      forall n: nat | n < |actions| ensures !StepRecordsUnnamed(Run(actions[..n]), actions[n]) {
        RunsOneStep(actions, n);
        assert AllSound(Run(actions[..n])) && AllSound(Run(actions[..n + 1]));
        StepIsSoundIff(Run(actions[..n]), actions[n]);
      }
    }
  }

  lemma RunsOneStep(actions: seq<Action>, n: nat)
    requires n < |actions|
    ensures Run(actions[..n + 1]) == Step(Run(actions[..n]), actions[n])
  {
    assert actions[..n + 1][..n] == actions[..n];
  }

  lemma EmptyIsSound()
    ensures AllSound(EMPTY)
  {
    forall o ensures SoundAt(EMPTY, o) {
    }
  }

  lemma {:induction false} SoundUpTo(actions: seq<Action>, n: nat)
    requires n <= |actions|
    requires forall m: nat :: m < n ==> !StepRecordsUnnamed(Run(actions[..m]), actions[m])
    ensures AllSound(Run(actions[..n]))
  {
    EmptyIsSound();
    if n > 0 {
      SoundUpTo(actions, n - 1);
      RunsOneStep(actions, n - 1);
      StepIsSoundIff(Run(actions[..n - 1]), actions[n - 1]);
    }
  }

  // ---------------------------------------------------------------------------
  // When an order is submitted, and when twice
  // ---------------------------------------------------------------------------

  /** The attempt that a walk records as taken. */
  function TakenAttempt(o: nat, chain: Chain, replies: seq<Reply>, j: nat): Attempt
    requires |replies| == |chain| && j <= |chain| && StopAt(replies, j) < |chain| && replies[StopAt(replies, j)].Accepts?
  {
    var k := StopAt(replies, j);
    Attempt(o, k + 1, chain[k].broker, chain[k].ip, Taken, replies[k].brokerOrderId)
  }

  /** What a walk from position j adds to the taken attempts of order x. */
  function TakenByWalk(o: nat, chain: Chain, replies: seq<Reply>, j: nat, budget: nat, x: nat): seq<Attempt>
    requires |replies| == |chain| && j <= |chain|
  {
    if x == o && RecordsAcceptance(replies, j, budget) then [TakenAttempt(o, chain, replies, j)] else []
  }

  /** A position that does not stop the walk costs its commits and adds nothing. */
  lemma TakenPast(o: nat, chain: Chain, replies: seq<Reply>, k: nat, budget: nat, x: nat)
    requires |replies| == |chain| && k < |chain| && !Stops(replies[k])
    ensures var spent := if Asks(replies[k]) then 3 else 1;
            TakenByWalk(o, chain, replies, k, budget, x)
            == if spent <= budget then TakenByWalk(o, chain, replies, k + 1, budget - spent, x) else []
  {
    assert StopAt(replies, k) == StopAt(replies, k + 1);
  }

  /** The last attempt is the one in flight of this order and position. */
  predicate InFlightAt(db: Db, o: nat, c: Routing.Candidate, k: nat) {
    db.attempts != [] && db.attempts[|db.attempts| - 1] == Attempt(o, k + 1, c.broker, c.ip, InFlight, None)
  }

  lemma SendTakes(db: Db, o: nat, c: Routing.Candidate, k: nat, x: nat)
    requires o in db.orders
    ensures InFlightAt(Send(db, o, c, k), o, c, k)
    ensures TakenBy(Send(db, o, c, k).attempts, x) == TakenBy(db.attempts, x)
  {
    assert Send(db, o, c, k).attempts[..|db.attempts|] == db.attempts;
  }

  lemma SettleTakes(db: Db, o: nat, c: Routing.Candidate, k: nat, id: Option<string>, x: nat)
    requires o in db.orders && InFlightAt(db, o, c, k)
    ensures TakenBy(Lose(db).attempts, x) == TakenBy(db.attempts, x)
    ensures TakenBy(Accept(db, o, c, id).attempts, x)
            == TakenBy(db.attempts, x) + if x == o then [Attempt(o, k + 1, c.broker, c.ip, Taken, id)] else []
  {
    var a := db.attempts[|db.attempts| - 1];
    TakenOfLast(db.attempts, a.(status := Lost), x);
    TakenOfLast(db.attempts, a.(status := Taken, brokerOrderId := id), x);
  }

  lemma {:induction false} WalkTakes(db: Db, o: nat, chain: Chain, replies: seq<Reply>, k: nat, last: string, budget: nat, x: nat)
    requires o in db.orders && |replies| == |chain| && k <= |chain|
    ensures TakenBy(Walk(db, o, chain, replies, k, last, budget).db.attempts, x)
            == TakenBy(db.attempts, x) + TakenByWalk(o, chain, replies, k, budget, x)
    decreases |chain| - k, 1
  {
    if k < |chain| {
      var r := replies[k];
      if r.Denied? && !r.rejects {
        TakenPast(o, chain, replies, k, budget, x);
        MoveOnTakes(db, o, chain, replies, k, budget, x);
      } else if Asks(r) && budget > 0 {
        SendTakes(db, o, chain[k], k, x);
        AskTakes(Send(db, o, chain[k], k), o, chain, replies, k, budget - 1, x);
      }
    }
  }

  lemma {:induction false} AskTakes(db: Db, o: nat, chain: Chain, replies: seq<Reply>, k: nat, budget: nat, x: nat)
    requires o in db.orders && |replies| == |chain| && k < |chain| && InFlightAt(db, o, chain[k], k) && Asks(replies[k])
    ensures TakenBy(Ask(db, o, chain, replies, k, budget).db.attempts, x)
            == TakenBy(db.attempts, x) + TakenByWalk(o, chain, replies, k, budget + 1, x)
    decreases |chain| - k, 0, 1
  {
    var r := replies[k];
    SettleTakes(db, o, chain[k], k, if r.Accepts? then r.brokerOrderId else None, x);
    if Stops(r) {
      assert StopAt(replies, k) == k;
    } else {
      TakenPast(o, chain, replies, k, budget + 1, x);
      if budget > 0 {
        MoveOnTakes(Lose(db), o, chain, replies, k, budget - 1, x);
      }
    }
  }

  lemma {:induction false} MoveOnTakes(db: Db, o: nat, chain: Chain, replies: seq<Reply>, k: nat, budget: nat, x: nat)
    requires o in db.orders && |replies| == |chain| && k < |chain|
    ensures TakenBy(MoveOn(db, o, chain, replies, k, budget).db.attempts, x)
            == TakenBy(db.attempts, x) + if budget > 0 then TakenByWalk(o, chain, replies, k + 1, budget - 1, x) else []
    decreases |chain| - k, 0, 0
  {
    var reason := ReasonOf(replies[k]);
    if k + 1 < |chain| {
      if budget > 0 {
        WalkTakes(NoteFailover(db, o, chain, k, reason), o, chain, replies, k + 1, reason, budget - 1, x);
      }
    } else {
      WalkTakes(db, o, chain, replies, k + 1, reason, budget, x);
    }
  }

  /** A step adds to the taken attempts of an order exactly the one that its walk of that order gets as far
      as recording, whatever the tables were before. */
  lemma TakenGrowsIff(db: Db, a: Action, o: nat)
    ensures var w := WalkOf(db, a);
            TakenBy(Step(db, a).attempts, o)
            == TakenBy(db.attempts, o)
               + if w.None? then [] else TakenByWalk(w.value.id, w.value.chain, w.value.replies, 0, w.value.budget, o)
  {
    var w := WalkOf(db, a);
    if w.Some? {
      var r := Walk(Started(db, a), a.id, w.value.chain, w.value.replies, 0, "", w.value.budget);
      assert Step(db, a) == r.db && Started(db, a).attempts == db.attempts;
      WalkTakes(Started(db, a), a.id, w.value.chain, w.value.replies, 0, "", w.value.budget, o);
    } else {
      assert Step(db, a).attempts == db.attempts;
    }
  }

  /** A recovery that finds an unnamed taken attempt of the order, which it cannot adopt, walks and records
      an acceptance. */
  predicate ResubmitsUnnamed(db: Db, a: Action, o: nat) {
    && a.RecoverOrder? && a.id == o
    && (exists t :: t in TakenBy(db.attempts, o) && !NonEmpty(t.brokerOrderId))
    && var w := WalkOf(db, a); w.Some? && RecordsAcceptance(w.value.replies, 0, w.value.budget)
  }

  lemma {:induction false} WalkKeepsOrders(db: Db, o: nat, chain: Chain, replies: seq<Reply>, k: nat, last: string, budget: nat)
    requires o in db.orders && |replies| == |chain| && k <= |chain|
    ensures db.orders.Keys <= Walk(db, o, chain, replies, k, last, budget).db.orders.Keys
    decreases |chain| - k, 1
  {
    if k < |chain| {
      var r := replies[k];
      if r.Denied? && !r.rejects {
        MoveOnKeepsOrders(db, o, chain, replies, k, budget);
      } else if Asks(r) && !Stops(r) && budget > 1 {
        var sent := Send(db, o, chain[k], k);
        assert Walk(db, o, chain, replies, k, last, budget) == Ask(sent, o, chain, replies, k, budget - 1);
        MoveOnKeepsOrders(Lose(sent), o, chain, replies, k, budget - 2);
      }
    }
  }

  lemma {:induction false} MoveOnKeepsOrders(db: Db, o: nat, chain: Chain, replies: seq<Reply>, k: nat, budget: nat)
    requires o in db.orders && |replies| == |chain| && k < |chain|
    ensures db.orders.Keys <= MoveOn(db, o, chain, replies, k, budget).db.orders.Keys
    decreases |chain| - k, 0
  {
    var reason := ReasonOf(replies[k]);
    if k + 1 < |chain| {
      if budget > 0 {
        WalkKeepsOrders(NoteFailover(db, o, chain, k, reason), o, chain, replies, k + 1, reason, budget - 1);
      }
    } else {
      WalkKeepsOrders(db, o, chain, replies, k + 1, reason, budget);
    }
  }

  /** An attempt is taken only of a stored order. */
  ghost predicate TakenKnown(db: Db) {
    forall o :: o !in db.orders ==> TakenBy(db.attempts, o) == []
  }

  lemma TakenKnownStep(db: Db, a: Action)
    requires TakenKnown(db)
    ensures TakenKnown(Step(db, a))
  {
    var db' := Step(db, a);
    forall o | o !in db'.orders
      ensures TakenBy(db'.attempts, o) == []
    {
      TakenGrowsIff(db, a, o);
      OrdersStay(db, a);
    }
  }

  lemma OrdersStay(db: Db, a: Action)
    ensures db.orders.Keys <= Step(db, a).orders.Keys
    ensures WalkOf(db, a).Some? ==> WalkOf(db, a).value.id in Step(db, a).orders
  {
    if WalkOf(db, a).Some? {
      var w := WalkOf(db, a).value;
      WalkKeepsOrders(Started(db, a), a.id, w.chain, w.replies, 0, "", w.budget);
    }
  }

  /** A step takes a further attempt of an order exactly if it is such a recovery. */
  lemma SecondTakenIff(db: Db, a: Action, o: nat)
    requires TakenKnown(db)
    ensures |TakenBy(Step(db, a).attempts, o)| > |TakenBy(db.attempts, o)| > 0 <==> ResubmitsUnnamed(db, a, o)
  {
    TakenGrowsIff(db, a, o);
    var taken, w := TakenBy(db.attempts, o), WalkOf(db, a);
    if w.Some? && w.value.id == o && taken != [] {
      AdoptableIsTaken(db.attempts, o);
      assert taken[0] in taken;
    }
  }

  predicate NeverResubmits(actions: seq<Action>, o: nat) {
    actions == []
    || (NeverResubmits(actions[..|actions| - 1], o)
        && !ResubmitsUnnamed(Run(actions[..|actions| - 1]), actions[|actions| - 1], o))
  }

  /** Over any run an order has at most one taken attempt exactly if no recovery of it resubmits what an
      unnamed acceptance left behind. */
  lemma {:induction false} AtMostOneTakenIff(actions: seq<Action>, o: nat)
    ensures TakenKnown(Run(actions))
    ensures |TakenBy(Run(actions).attempts, o)| <= 1 <==> NeverResubmits(actions, o)
  {
    if actions != [] {
      var last := |actions| - 1;
      var db := Run(actions[..last]);
      AtMostOneTakenIff(actions[..last], o);
      TakenKnownStep(db, actions[last]);
      SecondTakenIff(db, actions[last], o);
      TakenGrowsIff(db, actions[last], o);
    }
  }

  // ---------------------------------------------------------------------------
  // Without a name
  // ---------------------------------------------------------------------------

  /** An order whose broker accepted it without naming it leaves nothing to adopt: once it is marked in
      doubt, recovery submits it again. */
  lemma {:induction false} UnnamedIsSubmittedAgain(db: Db, id: nat, c: Routing.Candidate, named: string)
    requires id in db.orders && db.orders[id].status == Submitted
    requires forall i :: 0 <= i < |TakenBy(db.attempts, id)| ==> !NonEmpty(TakenBy(db.attempts, id)[i].brokerOrderId)
    ensures var again := Recover(Doubt(db, id), id, Some([c]), [Accepts(Some(named))], 3);
            && |TakenBy(again.attempts, id)| == |TakenBy(db.attempts, id)| + 1
            && |SubmittedOf(again.outbox, id)| == |SubmittedOf(db.outbox, id)| + 1
            && again.orders[id].status == Submitted
  {
    var doubt := Doubt(db, id);
    NothingToAdopt(db.attempts, id);
    var db1 := doubt.(orders := doubt.orders[id := doubt.orders[id].(status := Created)]);
    var replies := [Accepts(Some(named))];
    var sent := Send(db1, id, c, 0);
    assert Recover(doubt, id, Some([c]), replies, 3) == Walk(db1, id, [c], replies, 0, "", 2).db;
    assert Walk(db1, id, [c], replies, 0, "", 2) == Ask(sent, id, [c], replies, 0, 1);
    assert sent.attempts[..|db.attempts|] == db.attempts;
    var a := sent.attempts[|db.attempts|];
    TakenOfLast(sent.attempts, a.(status := Taken, brokerOrderId := Some(named)), id);
    assert (db.outbox + [OrderSubmitted(id, c.broker, c.ip, Some(named))])[..|db.outbox|] == db.outbox;
  }

  /** Placing an order with a broker that accepts it without a name, marking it in doubt, and recovering
      it. */
  function Twice(id: nat, client: nat, key: string, c: Routing.Candidate, unnamed: Option<string>, named: string): seq<Action> {
    [PlaceOrder(id, client, key, Some([c]), [Accepts(unnamed)], 3), MarkInDoubt(id),
     RecoverOrder(id, Some([c]), [Accepts(Some(named))], 3)]
  }

  /** The run that the condition excludes: it ends with two taken attempts and two submission events of one
      order. */
  lemma {:induction false} UnnamedOrderIsSubmittedTwice(id: nat, client: nat, key: string, c: Routing.Candidate, unnamed: Option<string>, named: string)
    requires !NonEmpty(unnamed)
    ensures var actions := Twice(id, client, key, c, unnamed, named);
            && |TakenBy(Run(actions).attempts, id)| == 2 && |SubmittedOf(Run(actions).outbox, id)| == 2
            && StepRecordsUnnamed(EMPTY, actions[0])
  {
    var actions := Twice(id, client, key, c, unnamed, named);
    var db := Step(EMPTY, actions[0]);
    RecordsOne(id, client, key, c, unnamed);
    PlacedUnnamed(id, client, key, c, unnamed);
    RunOfThree(actions[0], actions[1], actions[2]);
    UnnamedIsSubmittedAgain(db, id, c, named);
  }

  lemma {:induction false} RunOfThree(a: Action, b: Action, c: Action)
    ensures Run([a, b, c]) == Step(Step(Step(EMPTY, a), b), c)
  {
    var actions := [a, b, c];
    RunsOneStep(actions, 0);
    RunsOneStep(actions, 1);
    RunsOneStep(actions, 2);
    assert actions[..3] == actions;
  }

  lemma {:induction false} RecordsOne(id: nat, client: nat, key: string, c: Routing.Candidate, unnamed: Option<string>)
    requires !NonEmpty(unnamed)
    ensures StepRecordsUnnamed(EMPTY, PlaceOrder(id, client, key, Some([c]), [Accepts(unnamed)], 3))
  {
    assert StopAt([Accepts(unnamed)], 0) == 0;
  }

  lemma {:induction false} PlacedUnnamed(id: nat, client: nat, key: string, c: Routing.Candidate, unnamed: Option<string>)
    requires !NonEmpty(unnamed)
    ensures var db := Step(EMPTY, PlaceOrder(id, client, key, Some([c]), [Accepts(unnamed)], 3));
            && id in db.orders && db.orders[id].status == Submitted
            && TakenBy(db.attempts, id) == [Attempt(id, 1, c.broker, c.ip, Taken, unnamed)]
            && |SubmittedOf(db.outbox, id)| == 1
  {
    var db1 := EMPTY.(orders := EMPTY.orders[id := NewOrder(id, client, key)]);
    var sent := Send(db1, id, c, 0);
    WalkOfOne(db1, id, c, unnamed);
    assert Step(EMPTY, PlaceOrder(id, client, key, Some([c]), [Accepts(unnamed)], 3)) == Accept(sent, id, c, unnamed);
    SendTakes(db1, id, c, 0, id);
    SettleTakes(sent, id, c, 0, unnamed, id);
    assert SubmittedOf(Accept(sent, id, c, unnamed).outbox, id) == [] + [OrderSubmitted(id, c.broker, c.ip, unnamed)];
  }

  lemma {:induction false} WalkOfOne(db: Db, id: nat, c: Routing.Candidate, reply: Option<string>)
    requires id in db.orders
    ensures Walk(db, id, [c], [Accepts(reply)], 0, "", 2).db == Accept(Send(db, id, c, 0), id, c, reply)
  {
    assert Walk(db, id, [c], [Accepts(reply)], 0, "", 2) == Ask(Send(db, id, c, 0), id, [c], [Accepts(reply)], 0, 1);
  }

  lemma {:induction false} NothingToAdopt(attempts: seq<Attempt>, o: nat)
    requires forall i :: 0 <= i < |TakenBy(attempts, o)| ==> !NonEmpty(TakenBy(attempts, o)[i].brokerOrderId)
    ensures Adoptable(attempts, o) == None
  {
    if attempts != [] {
      var init := attempts[..|attempts| - 1];
      assert forall i :: 0 <= i < |TakenBy(init, o)| ==> TakenBy(init, o)[i] == TakenBy(attempts, o)[i];
      NothingToAdopt(init, o);
      var last := attempts[|attempts| - 1];
      if last.order == o && last.status == Taken {
        assert TakenBy(attempts, o)[|TakenBy(init, o)|] == last;
      }
    }
  }

  // ---------------------------------------------------------------------------
  // Which IP an attempt uses
  // ---------------------------------------------------------------------------

  lemma {:induction false} AttemptsComeFromChain(db: Db, o: nat, chain: Chain, replies: seq<Reply>, j: nat, k: nat, i: nat)
    requires |replies| == |chain| && k <= |chain| && i < |LostAttempts(o, chain, replies, j, k)|
    ensures var a := LostAttempts(o, chain, replies, j, k)[i];
            exists n: nat :: n < |chain| && a.broker == chain[n].broker && a.ip == chain[n].ip
    decreases k - j
  {
    var head := if Asks(replies[j]) then 1 else 0;
    if i >= head {
      AttemptsComeFromChain(db, o, chain, replies, j + 1, k, i - head);
    } else {
      assert chain[j].broker == LostAttempts(o, chain, replies, j, k)[i].broker;
    }
  }

  /** Every attempt of a walk is of a broker in the chain, on the IP that the chain has for it. */
  lemma AttemptFromChain(db: Db, o: nat, chain: Chain, replies: seq<Reply>, i: nat) returns (n: nat)
    requires o in db.orders && |replies| == |chain|
    requires |db.attempts| <= i < |Walk(db, o, chain, replies, 0, "", Enough(|chain|)).db.attempts|
    ensures var a := Walk(db, o, chain, replies, 0, "", Enough(|chain|)).db.attempts[i];
            n < |chain| && a.broker == chain[n].broker && a.ip == chain[n].ip
  {
    WalkTells(db, o, chain, replies, 0, "", Enough(|chain|));
    var k := StopAt(replies, 0);
    var lost := LostAttempts(o, chain, replies, 0, k);
    if i < |db.attempts| + |lost| {
      AttemptsComeFromChain(db, o, chain, replies, 0, k, i - |db.attempts|);
      var a := lost[i - |db.attempts|];
      n :| n < |chain| && a.broker == chain[n].broker && a.ip == chain[n].ip;
    } else {
      n := k;
    }
  }

  /** When an assigned IP is required, every attempt of a walk over a selected chain uses the IP that
      was actively assigned to its broker when the route was selected. */
  lemma AttemptsUseAssignedIps(db: Db, o: nat, facts: seq<Routing.Facts>, q: Routing.Query, replies: seq<Reply>, i: nat)
    requires o in db.orders && q.requireIp && Routing.DistinctIds(Routing.Verdicts(facts, q))
    requires |replies| == |Routing.Chain(Routing.Sort(Routing.Candidates(Routing.Verdicts(facts, q))), q.preferred)|
    requires var chain := Routing.Chain(Routing.Sort(Routing.Candidates(Routing.Verdicts(facts, q))), q.preferred);
             |db.attempts| <= i < |Walk(db, o, chain, replies, 0, "", Enough(|chain|)).db.attempts|
    ensures var chain := Routing.Chain(Routing.Sort(Routing.Candidates(Routing.Verdicts(facts, q))), q.preferred);
            var a := Walk(db, o, chain, replies, 0, "", Enough(|chain|)).db.attempts[i];
            exists p: nat :: p < |facts| && facts[p].broker.id == a.broker && facts[p].held.Some?
                             && a.ip == Some(facts[p].held.value.ip)
  {
    var chain := Routing.Chain(Routing.Sort(Routing.Candidates(Routing.Verdicts(facts, q))), q.preferred);
    var n := AttemptFromChain(db, o, chain, replies, i);
    Routing.ChainUsesAssignedIps(facts, q, chain[n]);
  }
}
