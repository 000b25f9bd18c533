/** Placements and recoveries that interleave at every await. A call writes only the columns in which the
    order that it has read differs from the one it wants. */
module OrderRaces {
  import opened Common
  import opened OrderEngine
  import opened OrderRuns
  import Routing

  /** Where a call stands. A commit that is still to come has a stage of its own. */
  datatype Stage =
    | Loaded
    | Adopting(found: Attempt)
    | Resetting
    | Ready
    | At(chain: Chain, k: nat, last: string)
    | Asking(chain: Chain, k: nat, n: nat)
    | Hopping(chain: Chain, k: nat, reason: string)
    | Refused(code: string)

  datatype Call = Call(order: nat, seen: Order, stage: Stage)

  datatype State = State(db: Db, calls: map<nat, Call>)

  datatype Action =
    | Insert(call: nat, id: nat, client: nat, clientOrderId: string)
    | Load(call: nat, id: nat)
    | Examine(call: nat)
    | Settle(call: nat)
    | Route(call: nat, chain: Chain)
    | Deny(call: nat, rejects: bool)
    | Submit(call: nat)
    | Take(call: nat, brokerOrderId: Option<string>)
    | Refuse(call: nat, code: string, retryable: bool)
    | Hop(call: nat)
    | GiveUp(call: nat)
    | Drop(call: nat)
    | Cancel(id: nat, agrees: bool)
    | Mark(id: nat, status: OrderStatus)

  // ---------------------------------------------------------------------------
  // The steps
  // ---------------------------------------------------------------------------

  function Merge(stored: Order, seen: Order, next: Order): Order {
    stored.(status := if next.status != seen.status then next.status else stored.status,
            broker := if next.broker != seen.broker then next.broker else stored.broker,
            ip := if next.ip != seen.ip then next.ip else stored.ip,
            errorCode := if next.errorCode != seen.errorCode then next.errorCode else stored.errorCode,
            brokerOrderId := if next.brokerOrderId != seen.brokerOrderId then next.brokerOrderId else stored.brokerOrderId)
  }

  function Written(db: Db, call: Call, next: Order): Db {
    if call.order in db.orders then db.(orders := db.orders[call.order := Merge(db.orders[call.order], call.seen, next)])
    else db
  }

  /** The call's next commit, after which it goes on. */
  function Save(s: State, c: nat, next: Order, stage: Stage): State
    requires c in s.calls
  {
    State(Written(s.db, s.calls[c], next), s.calls[c := Call(s.calls[c].order, next, stage)])
  }

  /** The call's last commit. */
  function Finish(s: State, c: nat, next: Order): State
    requires c in s.calls
  {
    State(Written(s.db, s.calls[c], next), s.calls - {c})
  }

  function MoveTo(s: State, c: nat, stage: Stage): State
    requires c in s.calls
  {
    s.(calls := s.calls[c := s.calls[c].(stage := stage)])
  }

  function Adopted(order: Order, a: Attempt): Order {
    order.(status := Submitted, brokerOrderId := a.brokerOrderId, broker := Some(a.broker), ip := a.ip, errorCode := None)
  }

  function FailedWith(order: Order, code: string): Order {
    order.(status := Failed, errorCode := Some(code))
  }

  /** After position k failed: a failover event is due if there is a next broker. */
  function Onward(chain: Chain, k: nat, reason: string): Stage {
    if k + 1 < |chain| then Hopping(chain, k, reason) else At(chain, k + 1, reason)
  }

  /** The attempt and the order pointing at it, in one commit. */
  function Sent(s: State, c: nat): State
    requires c in s.calls && s.calls[c].stage.At? && s.calls[c].stage.k < |s.calls[c].stage.chain|
  {
    var (call, chain, k) := (s.calls[c], s.calls[c].stage.chain, s.calls[c].stage.k);
    var s1 := Save(s, c, call.seen.(status := Submitting, broker := Some(chain[k].broker), ip := chain[k].ip),
                   Asking(chain, k, |s.db.attempts|));
    s1.(db := s1.db.(attempts := s1.db.attempts
                                 + [Attempt(call.order, k + 1, chain[k].broker, chain[k].ip, InFlight, None)]))
  }

  /** The acceptance of the attempt that the call waits for. */
  function Took(s: State, c: nat, brokerOrderId: Option<string>): State
    requires c in s.calls && s.calls[c].stage.Asking?
    requires s.calls[c].stage.n < |s.db.attempts| && s.calls[c].stage.k < |s.calls[c].stage.chain|
  {
    var call, candidate, n := s.calls[c], s.calls[c].stage.chain[s.calls[c].stage.k], s.calls[c].stage.n;
    var s1 := Finish(s, c, call.seen.(status := Submitted, brokerOrderId := brokerOrderId, errorCode := None));
    s1.(db := s1.db.(attempts := s1.db.attempts[n := s1.db.attempts[n].(status := Taken, brokerOrderId := brokerOrderId)],
                     outbox := s1.db.outbox + [OrderSubmitted(call.order, candidate.broker, candidate.ip, brokerOrderId)]))
  }

  /** The attempt has failed; what follows is committed later. */
  function LostAttempt(s: State, c: nat, stage: Stage): State
    requires c in s.calls && s.calls[c].stage.Asking? && s.calls[c].stage.n < |s.db.attempts|
  {
    var n, s1 := s.calls[c].stage.n, MoveTo(s, c, stage);
    s1.(db := s1.db.(attempts := s1.db.attempts[n := s1.db.attempts[n].(status := Lost)]))
  }

  /** The call is at this position of its chain, or waits for its broker. */
  predicate Waits(s: State, c: nat) {
    && c in s.calls && s.calls[c].stage.Asking?
    && s.calls[c].stage.n < |s.db.attempts| && s.calls[c].stage.k < |s.calls[c].stage.chain|
  }

  predicate Visits(s: State, c: nat) {
    c in s.calls && s.calls[c].stage.At? && s.calls[c].stage.k < |s.calls[c].stage.chain|
  }

  /** A cancellation is one step here; a mark is any other write of a status, such as that of a cancellation
      that read the order long before or the external in-doubt mark. */
  predicate External(a: Action) {
    a.Cancel? || a.Mark?
  }

  /** An action that is not enabled changes nothing. */
  function Step(s: State, a: Action): State {
    match a
    case Insert(c, id, client, key) =>
      if c in s.calls || id in s.db.orders || KeyTaken(s.db, client, key) then s
      else
        var order := NewOrder(id, client, key);
        State(s.db.(orders := s.db.orders[id := order]), s.calls[c := Call(id, order, Ready)])
    case Load(c, id) =>
      if c in s.calls || id !in s.db.orders || Terminal(s.db.orders[id].status) then s
      else s.(calls := s.calls[c := Call(id, s.db.orders[id], Loaded)])
    case Examine(c) =>
      if c !in s.calls || s.calls[c].stage != Loaded then s
      else
        var found := Adoptable(s.db.attempts, s.calls[c].order);
        MoveTo(s, c, if found.Some? then Adopting(found.value)
                     else if s.calls[c].seen.status == InDoubt then Resetting else Ready)
    case Settle(c) =>
      if c in s.calls && s.calls[c].stage.Adopting? then Finish(s, c, Adopted(s.calls[c].seen, s.calls[c].stage.found))
      else if c in s.calls && s.calls[c].stage == Resetting then Save(s, c, s.calls[c].seen.(status := Created), Ready)
      else s
    case Route(c, chain) =>
      if c in s.calls && s.calls[c].stage == Ready then MoveTo(s, c, At(chain, 0, "")) else s
    case Deny(c, rejects) =>
      if !Visits(s, c) then s
      else if rejects then Finish(s, c, FailedWith(s.calls[c].seen, "RATE_LIMITED"))
      else MoveTo(s, c, Onward(s.calls[c].stage.chain, s.calls[c].stage.k, "RATE_LIMITED"))
    case Submit(c) => if Visits(s, c) then Sent(s, c) else s
    case Take(c, brokerOrderId) => if Waits(s, c) then Took(s, c, brokerOrderId) else s
    case Refuse(c, code, retryable) =>
      if !Waits(s, c) then s
      else LostAttempt(s, c, if retryable then Onward(s.calls[c].stage.chain, s.calls[c].stage.k, code) else Refused(code))
    case Hop(c) =>
      if c in s.calls && s.calls[c].stage.Hopping? && s.calls[c].stage.k + 1 < |s.calls[c].stage.chain| then
        var (call, chain, k) := (s.calls[c], s.calls[c].stage.chain, s.calls[c].stage.k);
        var s1 := MoveTo(s, c, At(chain, k + 1, call.stage.reason));
        s1.(db := NoteFailover(s1.db, call.order, chain, k, call.stage.reason))
      else s
    case GiveUp(c) =>
      if c in s.calls && s.calls[c].stage.Refused? then Finish(s, c, FailedWith(s.calls[c].seen, s.calls[c].stage.code))
      else if c in s.calls && s.calls[c].stage.At? && s.calls[c].stage.k >= |s.calls[c].stage.chain| then
        Finish(s, c, FailedWith(s.calls[c].seen, FinalCode(s.calls[c].stage.last)))
      else s
    case Drop(c) => s.(calls := s.calls - {c})
    case Cancel(id, agrees) => s.(db := OrderRuns.Cancel(s.db, id, agrees))
    case Mark(id, status) =>
      if id in s.db.orders then s.(db := s.db.(orders := s.db.orders[id := s.db.orders[id].(status := status)])) else s
  }

  /** What a call has not changed since it read the order it does not write: sending a further attempt keeps
      the status that another call has set meanwhile, and a last commit keeps the broker and the IP. */
  lemma UnchangedColumnsStay(s: State, c: nat, code: string)
    requires c in s.calls && s.calls[c].order in s.db.orders
    ensures var (o, call) := (s.calls[c].order, s.calls[c]);
            && (Visits(s, c) && call.seen.status == Submitting ==>
                  Step(s, Submit(c)).db.orders[o].status == s.db.orders[o].status)
            && (call.stage == Refused(code) ==>
                  var x := Step(s, GiveUp(c)).db.orders[o];
                  && x.broker == s.db.orders[o].broker && x.ip == s.db.orders[o].ip
                  && x.brokerOrderId == s.db.orders[o].brokerOrderId
                  && x.status == (if call.seen.status == Failed then s.db.orders[o].status else Failed))
  {
  }

  const START := State(EMPTY, map[])

  function Exec(s: State, actions: seq<Action>): State
    decreases |actions|
  {
    if actions == [] then s else Exec(Step(s, actions[0]), actions[1..])
  }

  // ---------------------------------------------------------------------------
  // What every step keeps
  // ---------------------------------------------------------------------------

  /** A call works on a stored order, and waits for an attempt of its own that is in flight. */
  ghost predicate CallInv(s: State, c: nat)
    requires c in s.calls
  {
    var call := s.calls[c];
    && call.order in s.db.orders
    && (call.stage.Asking? ==>
          && call.stage.k < |call.stage.chain| && call.stage.n < |s.db.attempts|
          && s.db.attempts[call.stage.n].order == call.order && s.db.attempts[call.stage.n].status == InFlight)
  }

  ghost predicate Inv(s: State) {
    && (forall c :: c in s.calls ==> CallInv(s, c))
    && (forall c, d :: c in s.calls && d in s.calls && c != d && s.calls[c].stage.Asking? && s.calls[d].stage.Asking? ==>
          s.calls[c].stage.n != s.calls[d].stage.n)
    && (forall i :: 0 <= i < |s.db.attempts| ==> s.db.attempts[i].order in s.db.orders)
  }

  /** The attempt that a step settles, if any. */
  function SettledBy(s: State, a: Action): Option<nat> {
    if (a.Take? || a.Refuse?) && Waits(s, a.call) then Some(s.calls[a.call].stage.n) else None
  }

  lemma TablesGrow(s: State, a: Action)
    requires Inv(s)
    ensures var s' := Step(s, a);
            && s.db.orders.Keys <= s'.db.orders.Keys && |s.db.attempts| <= |s'.db.attempts|
            && (forall i :: 0 <= i < |s.db.attempts| && SettledBy(s, a) != Some(i) ==> s'.db.attempts[i] == s.db.attempts[i])
            && (forall i :: 0 <= i < |s.db.attempts| ==> s'.db.attempts[i].order == s.db.attempts[i].order)
            && (forall i :: |s.db.attempts| <= i < |s'.db.attempts| ==>
                  a.Submit? && s'.db.attempts[i].order in s.db.orders && s'.db.attempts[i].status == InFlight)
  {
    if a.Submit? && Visits(s, a.call) {
      assert CallInv(s, a.call);
    }
  }

  /** A step moves at most the call that takes it, and only that call may begin to wait. */
  lemma OthersStay(s: State, a: Action, d: nat)
    requires d in Step(s, a).calls && (External(a) || a.call != d)
    ensures d in s.calls && Step(s, a).calls[d] == s.calls[d]
  {
  }

  lemma MoverInv(s: State, a: Action)
    requires Inv(s) && !External(a) && a.call in Step(s, a).calls
    ensures var s' := Step(s, a);
            && CallInv(s', a.call)
            && (s'.calls[a.call].stage.Asking? ==>
                  (a.call in s.calls && s'.calls[a.call] == s.calls[a.call] && SettledBy(s, a) == None)
                  || s'.calls[a.call].stage.n == |s.db.attempts|)
  {
    assert a.call in s.calls ==> CallInv(s, a.call);
  }

  lemma CallInvStep(s: State, a: Action, c: nat)
    requires Inv(s) && c in Step(s, a).calls
    ensures CallInv(Step(s, a), c)
  {
    if !External(a) && c == a.call {
      MoverInv(s, a);
    } else {
      OthersStay(s, a, c);
      TablesGrow(s, a);
      assert CallInv(s, c);
    }
  }

  lemma WaitsDiffer(s: State, a: Action, c: nat, d: nat)
    requires Inv(s)
    requires var calls := Step(s, a).calls;
             c in calls && d in calls && c != d && calls[c].stage.Asking? && calls[d].stage.Asking?
    requires External(a) || d != a.call
    ensures Step(s, a).calls[c].stage.n != Step(s, a).calls[d].stage.n
  {
    OthersStay(s, a, d);
    assert CallInv(s, d);
    if External(a) || c != a.call {
      OthersStay(s, a, c);
    } else {
      MoverInv(s, a);
    }
  }

  lemma InvStep(s: State, a: Action)
    requires Inv(s)
    ensures Inv(Step(s, a))
  {
    var s' := Step(s, a);
    TablesGrow(s, a);
    forall c | c in s'.calls ensures CallInv(s', c) {
      CallInvStep(s, a, c);
    }
    forall c, d | c in s'.calls && d in s'.calls && c != d && s'.calls[c].stage.Asking? && s'.calls[d].stage.Asking?
      ensures s'.calls[c].stage.n != s'.calls[d].stage.n
    {
      if External(a) || d != a.call {
        WaitsDiffer(s, a, c, d);
      } else {
        WaitsDiffer(s, a, d, c);
      }
    }
    forall i | 0 <= i < |s'.db.attempts| ensures s'.db.attempts[i].order in s'.db.orders {
      assert i < |s.db.attempts| ==> s.db.attempts[i].order in s.db.orders;
    }
  }

  lemma {:induction false} InvHolds(s: State, actions: seq<Action>)
    requires Inv(s)
    ensures Inv(Exec(s, actions))
    decreases |actions|
  {
    if actions != [] {
      InvStep(s, actions[0]);
      InvHolds(Step(s, actions[0]), actions[1..]);
    }
  }

  // ---------------------------------------------------------------------------
  // How often an order can be submitted
  // ---------------------------------------------------------------------------

  /** The call can still have its order accepted: it is not yet past its chain, it has not been refused, and
      a recovery that has read the order finds nothing to adopt. */
  predicate CanSubmit(db: Db, call: Call) {
    match call.stage
    case Loaded => Adoptable(db.attempts, call.order).None?
    case Resetting => true
    case Ready => true
    case At(chain, k, _) => k < |chain|
    case Asking(_, _, _) => true
    case Hopping(chain, k, _) => k + 1 < |chain|
    case Adopting(_) => false
    case Refused(_) => false
  }

  /** The calls that can still have order o accepted. */
  function Submitters(s: State, o: nat): set<nat> {
    set c | c in s.calls && s.calls[c].order == o && CanSubmit(s.db, s.calls[c])
  }

  function Potential(s: State, o: nat): nat {
    |TakenBy(s.db.attempts, o)| + |Submitters(s, o)|
  }

  /** The step records an acceptance of order o. */
  predicate Takes(s: State, a: Action, o: nat) {
    a.Take? && Waits(s, a.call) && s.calls[a.call].order == o
  }

  /** The step brings in a call that can have order o accepted. */
  predicate Enters(s: State, a: Action, o: nat) {
    || (a.Insert? && a.id == o && a.call !in s.calls && o !in s.db.orders && !KeyTaken(s.db, a.client, a.clientOrderId))
    || (a.Load? && a.id == o && a.call !in s.calls && o in s.db.orders && !Terminal(s.db.orders[o].status)
        && Adoptable(s.db.attempts, o).None?)
  }

  lemma {:induction false} TakenWith(attempts: seq<Attempt>, n: nat, a: Attempt, o: nat)
    requires n < |attempts| && attempts[n].status != Taken
    ensures |TakenBy(attempts[n := a], o)| == |TakenBy(attempts, o)| + if a.order == o && a.status == Taken then 1 else 0
  {
    var last := |attempts| - 1;
    if n < last {
      assert attempts[n := a][..last] == attempts[..last][n := a];
      TakenWith(attempts[..last], n, a, o);
    } else {
      assert attempts[n := a][..last] == attempts[..last];
    }
  }

  /** Some taken attempt of the order names its broker order. */
  ghost predicate NamedTaken(attempts: seq<Attempt>, o: nat) {
    exists i :: 0 <= i < |attempts| && attempts[i].order == o && attempts[i].status == Taken && NonEmpty(attempts[i].brokerOrderId)
  }

  lemma {:induction false} AdoptableIff(attempts: seq<Attempt>, o: nat)
    ensures Adoptable(attempts, o).Some? <==> NamedTaken(attempts, o)
  {
    if attempts != [] {
      var last := |attempts| - 1;
      AdoptableIff(attempts[..last], o);
      if NamedTaken(attempts[..last], o) {
        var i :| 0 <= i < last && attempts[..last][i].order == o && attempts[..last][i].status == Taken
                 && NonEmpty(attempts[..last][i].brokerOrderId);
        assert attempts[i] == attempts[..last][i];
      }
      if NamedTaken(attempts, o) {
        var i :| 0 <= i < |attempts| && attempts[i].order == o && attempts[i].status == Taken && NonEmpty(attempts[i].brokerOrderId);
        if i < last {
          assert attempts[..last][i] == attempts[i];
        }
      }
    }
  }

  lemma TakenStep(s: State, a: Action, o: nat)
    requires Inv(s)
    ensures |TakenBy(Step(s, a).db.attempts, o)| == |TakenBy(s.db.attempts, o)| + if Takes(s, a, o) then 1 else 0
  {
    var before, after := s.db.attempts, Step(s, a).db.attempts;
    if a.Submit? && Visits(s, a.call) {
      assert after[..|before|] == before;
    } else if SettledBy(s, a).Some? {
      assert CallInv(s, a.call);
      var n := s.calls[a.call].stage.n;
      TakenWith(before, n, after[n], o);
    } else {
      assert after == before;
    }
  }

  lemma AdoptableStays(s: State, a: Action, o: nat)
    requires Inv(s) && Adoptable(s.db.attempts, o).Some?
    ensures Adoptable(Step(s, a).db.attempts, o).Some?
  {
    var before, after := s.db.attempts, Step(s, a).db.attempts;
    AdoptableIff(before, o);
    AdoptableIff(after, o);
    TablesGrow(s, a);
    var i :| 0 <= i < |before| && before[i].order == o && before[i].status == Taken && NonEmpty(before[i].brokerOrderId);
    assert SettledBy(s, a).Some? ==> CallInv(s, a.call);
    assert after[i] == before[i];
  }

  /** The call that takes the step can submit afterwards only if it could before, or enters. */
  lemma MoverSubmits(s: State, a: Action, o: nat)
    requires Inv(s) && !External(a) && a.call in Submitters(Step(s, a), o)
    ensures (a.call in Submitters(s, o) || Enters(s, a, o)) && !Takes(s, a, o)
  {
    if a.Load? || a.Insert? {
      assert Step(s, a).db.attempts == s.db.attempts;
    } else {
      assert CallInv(s, a.call);
    }
  }

  lemma OtherSubmits(s: State, a: Action, o: nat, c: nat)
    requires Inv(s) && c in Submitters(Step(s, a), o) && (External(a) || c != a.call)
    ensures c in Submitters(s, o)
  {
    OthersStay(s, a, c);
    if s.calls[c].stage == Loaded && Adoptable(s.db.attempts, o).Some? {
      AdoptableStays(s, a, o);
    }
  }

  /** What a step adds to the taken attempts of an order it takes from the calls that can still submit it;
      only a call that enters adds to the two together. */
  lemma PotentialStep(s: State, a: Action, o: nat)
    requires Inv(s)
    ensures Potential(Step(s, a), o) <= Potential(s, o) + if Enters(s, a, o) then 1 else 0
  {
    var before, after := Submitters(s, o), Submitters(Step(s, a), o);
    TakenStep(s, a, o);
    forall c | c in after
      ensures c in before || (!External(a) && c == a.call && Enters(s, a, o))
      ensures Takes(s, a, o) ==> c != a.call
    {
      if !External(a) && c == a.call {
        MoverSubmits(s, a, o);
      } else {
        OtherSubmits(s, a, o, c);
      }
    }
    if Takes(s, a, o) {
      assert after <= before - {a.call} && a.call in before;
      SubsetSize(after, before - {a.call});
    } else if Enters(s, a, o) {
      SubsetSize(after, before + {a.call});
    } else {
      SubsetSize(after, before);
    }
  }

  lemma {:induction false} SubsetSize<T>(a: set<T>, b: set<T>)
    requires a <= b
    ensures |a| <= |b|
  {
    assert a + (b - a) == b;
  }

  // ---------------------------------------------------------------------------
  // Once, if recoveries keep off orders that are under way
  // ---------------------------------------------------------------------------

  /** A recovery reads an order only while no other call works on it, and brokers name what they accept. */
  ghost predicate KeepsOff(s: State, a: Action) {
    && (a.Load? && a.call !in s.calls ==> forall c :: c in s.calls ==> s.calls[c].order != a.id)
    && (a.Take? ==> NonEmpty(a.brokerOrderId))
  }

  ghost predicate KeepOff(s: State, actions: seq<Action>)
    decreases |actions|
  {
    actions == [] || (KeepsOff(s, actions[0]) && KeepOff(Step(s, actions[0]), actions[1..]))
  }

  ghost predicate OnceAt(s: State, o: nat) {
    Potential(s, o) <= 1 && (TakenBy(s.db.attempts, o) != [] ==> Adoptable(s.db.attempts, o).Some?)
  }

  ghost predicate Once(s: State) {
    forall o :: OnceAt(s, o)
  }

  lemma {:induction false} NoneTaken(attempts: seq<Attempt>, o: nat)
    requires forall i :: 0 <= i < |attempts| ==> attempts[i].order != o
    ensures TakenBy(attempts, o) == []
  {
    if attempts != [] {
      NoneTaken(attempts[..|attempts| - 1], o);
    }
  }

  lemma OnceStep(s: State, a: Action, o: nat)
    requires Inv(s) && OnceAt(s, o) && KeepsOff(s, a)
    ensures OnceAt(Step(s, a), o)
  {
    TakenStep(s, a, o);
    PotentialStep(s, a, o);
    if Enters(s, a, o) {
      if a.Insert? {
        NoneTaken(s.db.attempts, o);
      }
      assert Submitters(s, o) == {};
    }
    if Takes(s, a, o) {
      var after, n := Step(s, a).db.attempts, s.calls[a.call].stage.n;
      assert CallInv(s, a.call);
      assert after[n].order == o && after[n].status == Taken && NonEmpty(after[n].brokerOrderId);
      AdoptableIff(after, o);
    } else if TakenBy(s.db.attempts, o) != [] {
      AdoptableStays(s, a, o);
    }
  }

  lemma {:induction false} OnceHolds(s: State, actions: seq<Action>)
    requires Inv(s) && Once(s) && KeepOff(s, actions)
    ensures Inv(Exec(s, actions)) && Once(Exec(s, actions))
    decreases |actions|
  {
    if actions != [] {
      var s' := Step(s, actions[0]);
      InvStep(s, actions[0]);
      forall o ensures OnceAt(s', o) {
        OnceStep(s, actions[0], o);
      }
      OnceHolds(s', actions[1..]);
    }
  }

  /** However placements, recoveries, cancellations, in-doubt marks and crashes interleave: if a recovery
      reads an order only while no other call works on it, and brokers name what they accept, no order ever
      has two taken attempts. */
  lemma SubmittedOnce(actions: seq<Action>, o: nat)
    requires KeepOff(START, actions)
    ensures |TakenBy(Exec(START, actions).db.attempts, o)| <= 1
  {
    forall x ensures OnceAt(START, x) {
      assert Submitters(START, x) == {};
    }
    OnceHolds(START, actions);
    assert OnceAt(Exec(START, actions), o);
  }

  // ---------------------------------------------------------------------------
  // Otherwise as often as calls can still submit it
  // ---------------------------------------------------------------------------

  /** The actions bring in no further call for the order, and brokers name what they accept. */
  ghost predicate NoEntry(actions: seq<Action>, o: nat) {
    forall i :: 0 <= i < |actions| ==>
      && ((actions[i].Insert? || actions[i].Load?) ==> actions[i].id != o)
      && (actions[i].Take? ==> NonEmpty(actions[i].brokerOrderId))
  }

  lemma {:induction false} NeverMore(s: State, actions: seq<Action>, o: nat)
    requires Inv(s) && NoEntry(actions, o)
    ensures |TakenBy(Exec(s, actions).db.attempts, o)| <= Potential(s, o)
    decreases |actions|
  {
    if actions != [] {
      InvStep(s, actions[0]);
      PotentialStep(s, actions[0], o);
      forall i | 0 <= i < |actions[1..]|
        ensures actions[1..][i] == actions[i + 1]
      {
      }
      NeverMore(Step(s, actions[0]), actions[1..], o);
    }
  }

  lemma {:induction false} ExecMore(s: State, first: seq<Action>, then_: seq<Action>)
    ensures Exec(s, first + then_) == Exec(Exec(s, first), then_)
    decreases |first|
  {
    if first == [] {
      assert first + then_ == then_;
    } else {
      assert (first + then_)[1..] == first[1..] + then_;
      ExecMore(Step(s, first[0]), first[1..], then_);
    }
  }

  /** How far a call is from waiting for a broker. */
  function Distance(stage: Stage): nat {
    match stage
    case Asking(_, _, _) => 0
    case At(_, _, _) => 1
    case Ready => 2
    case Hopping(_, _, _) => 2
    case _ => 3
  }

  /** The call's next step on its way to a broker that accepts. */
  function Forward(c: nat, stage: Stage, broker: Chain): Action {
    match stage
    case Loaded => Examine(c)
    case Resetting => Settle(c)
    case Ready => Route(c, broker)
    case At(_, _, _) => Submit(c)
    case Hopping(_, _, _) => Hop(c)
    case _ => Take(c, Some("accepted"))
  }

  /** A call that can submit and has nothing left to read. */
  predicate Underway(s: State, c: nat, o: nat) {
    c in Submitters(s, o) && s.calls[c].stage != Loaded
  }

  lemma StepsForward(s: State, c: nat, o: nat, broker: Chain)
    requires Inv(s) && Underway(s, c, o) && !s.calls[c].stage.Asking? && broker != []
    ensures var s' := Step(s, Forward(c, s.calls[c].stage, broker));
            && Underway(s', c, o) && Distance(s'.calls[c].stage) < Distance(s.calls[c].stage)
            && s'.calls == s.calls[c := s'.calls[c]]
  {
  }

  lemma {:induction false} OneTake(s: State, c: nat, o: nat, broker: Chain) returns (actions: seq<Action>)
    requires Inv(s) && Underway(s, c, o) && broker != []
    ensures NoEntry(actions, o)
    ensures var s' := Exec(s, actions);
            Inv(s') && s'.calls == s.calls - {c} && |TakenBy(s'.db.attempts, o)| == |TakenBy(s.db.attempts, o)| + 1
    decreases Distance(s.calls[c].stage)
  {
    var a := Forward(c, s.calls[c].stage, broker);
    var s' := Step(s, a);
    assert CallInv(s, c);
    InvStep(s, a);
    TakenStep(s, a, o);
    if s.calls[c].stage.Asking? {
      actions := [a];
      assert Exec(s, actions) == Exec(s', []);
    } else {
      StepsForward(s, c, o, broker);
      var rest := OneTake(s', c, o, broker);
      actions := [a] + rest;
      assert s'.calls - {c} == s.calls - {c};
    }
  }

  /** Calls that are under way can all have the order accepted, one after the other. */
  lemma {:induction false} TakeAll(s: State, calls: set<nat>, o: nat, broker: Chain) returns (actions: seq<Action>)
    requires Inv(s) && broker != [] && forall c :: c in calls ==> Underway(s, c, o)
    ensures NoEntry(actions, o)
    ensures |TakenBy(Exec(s, actions).db.attempts, o)| == |TakenBy(s.db.attempts, o)| + |calls|
    decreases calls
  {
    actions := [];
    if c :| c in calls {
      var first := OneTake(s, c, o, broker);
      var s' := Exec(s, first);
      forall d | d in calls - {c} ensures Underway(s', d, o) {
        assert s'.calls[d] == s.calls[d];
      }
      var rest := TakeAll(s', calls - {c}, o, broker);
      actions := first + rest;
      ExecMore(s, first, rest);
    }
  }

  lemma ExamineOne(s: State, c: nat, o: nat)
    requires Inv(s) && c in Submitters(s, o)
    ensures var s' := Step(s, Examine(c));
            && Inv(s') && s'.db == s.db && Underway(s', c, o) && s'.calls.Keys == s.calls.Keys
            && forall d :: d in s.calls && d != c ==> s'.calls[d] == s.calls[d]
  {
    InvStep(s, Examine(c));
  }

  /** Recoveries that have read the order find nothing to adopt. */
  lemma {:induction false} ExamineAll(s: State, calls: set<nat>, o: nat) returns (actions: seq<Action>)
    requires Inv(s) && calls <= Submitters(s, o)
    ensures NoEntry(actions, o) && Inv(Exec(s, actions)) && Exec(s, actions).db == s.db
    ensures forall c :: c in calls ==> Underway(Exec(s, actions), c, o)
    ensures forall c :: c in s.calls && c !in calls ==>
              c in Exec(s, actions).calls && Exec(s, actions).calls[c] == s.calls[c]
    decreases calls
  {
    actions := [];
    if c :| c in calls {
      var s' := Step(s, Examine(c));
      ExamineOne(s, c, o);
      forall d | d in calls - {c} ensures d in Submitters(s', o) {
        assert d in Submitters(s, o) && s'.calls[d] == s.calls[d];
      }
      var rest := ExamineAll(s', calls - {c}, o);
      actions := [Examine(c)] + rest;
      assert Exec(s', rest).calls[c] == s'.calls[c];
    }
  }

  ghost predicate CanBeTaken(s: State, o: nat, m: nat) {
    exists actions :: NoEntry(actions, o) && |TakenBy(Exec(s, actions).db.attempts, o)| >= m
  }

  /** Without further calls, and with brokers that name what they accept, an order can get m taken attempts
      exactly if it has that many counting the calls that can still submit it. */
  lemma TakenAsOftenAs(s: State, o: nat, m: nat)
    requires Inv(s)
    ensures CanBeTaken(s, o, m) <==> m <= Potential(s, o)
  {
    if actions :| NoEntry(actions, o) && |TakenBy(Exec(s, actions).db.attempts, o)| >= m {
      NeverMore(s, actions, o);
    }
    if m <= Potential(s, o) {
      var calls := Submitters(s, o);
      var broker: Routing.Candidate := *;
      var first := ExamineAll(s, calls, o);
      var rest := TakeAll(Exec(s, first), calls, o, [broker]);
      ExecMore(s, first, rest);
      assert NoEntry(first + rest, o);
    }
  }

  /** So a recovery that reads an unfinished order while a walk of it is under way can submit it again,
      although nothing has been taken unnamed. */
  lemma OverlapSubmitsTwice(s: State, o: nat, c: nat, d: nat)
    requires Inv(s) && c in Submitters(s, o) && d !in s.calls && !Terminal(s.db.orders[o].status)
    requires TakenBy(s.db.attempts, o) == []
    ensures CanBeTaken(Step(s, Load(d, o)), o, 2)
  {
    var s' := Step(s, Load(d, o));
    InvStep(s, Load(d, o));
    AdoptableIsTaken(s.db.attempts, o);
    assert {c, d} <= Submitters(s', o);
    SubsetSize({c, d}, Submitters(s', o));
    TakenAsOftenAs(s', o, 2);
  }

  /** The shortest such run: a placement has stored its order, and a scan picks it up. */
  lemma ReplaySubmitsLiveOrder(id: nat, client: nat, clientOrderId: string)
    ensures CanBeTaken(Exec(START, [Insert(0, id, client, clientOrderId), Load(1, id)]), id, 2)
  {
    var actions := [Insert(0, id, client, clientOrderId), Load(1, id)];
    var s := Step(START, actions[0]);
    InvStep(START, actions[0]);
    assert 0 in Submitters(s, id);
    OverlapSubmitsTwice(s, id, 0, 1);
    assert actions[1..] == [Load(1, id)];
    assert Exec(START, actions) == Exec(s, actions[1..]);
    assert Exec(s, actions[1..]) == Exec(Step(s, Load(1, id)), actions[1..][1..]);
  }
}
