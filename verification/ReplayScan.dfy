/** The recovery scan told by the statuses of the orders: which are listed, how each ends, and that a scan
    with room for all of them leaves none stuck. */
module ReplayScan {
  import opened Common
  import opened OrderEngine
  import opened OrderRuns
  import opened OrderService

  predicate Unfinished(db: Db, id: nat) {
    id in db.orders && db.orders[id].status in {Created, Submitting, InDoubt}
  }

  predicate AllKnown(db: Db, byAge: seq<nat>) {
    forall i :: 0 <= i < |byAge| ==> byAge[i] in db.orders
  }

  predicate NoRepeats(ids: seq<nat>) {
    forall i, j :: 0 <= i < j < |ids| ==> ids[i] != ids[j]
  }

  /** How many of the first n orders are unfinished. */
  function UnfinishedAmong(db: Db, byAge: seq<nat>, n: nat): nat
    requires n <= |byAge|
  {
    if n == 0 then 0 else UnfinishedAmong(db, byAge, n - 1) + if Unfinished(db, byAge[n - 1]) then 1 else 0
  }

  // ---------------------------------------------------------------------------
  // Which orders are listed
  // ---------------------------------------------------------------------------

  lemma {:induction false} CountTail(db: Db, byAge: seq<nat>, n: nat)
    requires 0 < n <= |byAge|
    ensures UnfinishedAmong(db, byAge, n)
            == (if Unfinished(db, byAge[0]) then 1 else 0) + UnfinishedAmong(db, byAge[1..], n - 1)
  {
    if n > 1 {
      CountTail(db, byAge, n - 1);
    }
  }

  /** An order is listed exactly if it is unfinished and fewer than `limit` before it are. */
  lemma {:induction false} ListedIff(db: Db, byAge: seq<nat>, limit: nat, k: nat)
    requires AllKnown(db, byAge) && NoRepeats(byAge) && k < |byAge|
    ensures byAge[k] in Stuck(db, byAge, limit) <==> Unfinished(db, byAge[k]) && UnfinishedAmong(db, byAge, k) < limit
  {
    if limit == 0 {
    } else if k == 0 {
      if !Unfinished(db, byAge[0]) {
        NotListed(db, byAge[1..], limit, byAge[0]);
      }
      assert UnfinishedAmong(db, byAge, 0) == 0;
    } else {
      CountTail(db, byAge, k);
      ListedIff(db, byAge[1..], if Unfinished(db, byAge[0]) then limit - 1 else limit, k - 1);
    }
  }

  lemma {:induction false} NotListed(db: Db, byAge: seq<nat>, limit: nat, id: nat)
    requires AllKnown(db, byAge) && id !in byAge
    ensures id !in Stuck(db, byAge, limit)
  {
    if byAge != [] && limit != 0 {
      NotListed(db, byAge[1..], if IsStuck(db.orders[byAge[0]].status) then limit - 1 else limit, id);
    }
  }

  /** The list keeps the order of age, and each entry is one of the orders. */
  lemma {:induction false} ListedByAge(db: Db, byAge: seq<nat>, limit: nat, a: nat, b: nat) returns (i: nat, j: nat)
    requires AllKnown(db, byAge) && a < b < |Stuck(db, byAge, limit)|
    ensures i < j < |byAge| && byAge[i] == Stuck(db, byAge, limit)[a] && byAge[j] == Stuck(db, byAge, limit)[b]
  {
    var first := IsStuck(db.orders[byAge[0]].status);
    if first && a == 0 {
      var j' := ListedAt(db, byAge[1..], limit - 1, b - 1);
      i, j := 0, j' + 1;
    } else {
      var i', j' := ListedByAge(db, byAge[1..], if first then limit - 1 else limit,
                                if first then a - 1 else a, if first then b - 1 else b);
      i, j := i' + 1, j' + 1;
    }
  }

  lemma {:induction false} ListedAt(db: Db, byAge: seq<nat>, limit: nat, a: nat) returns (i: nat)
    requires AllKnown(db, byAge) && a < |Stuck(db, byAge, limit)|
    ensures i < |byAge| && byAge[i] == Stuck(db, byAge, limit)[a]
  {
    var first := IsStuck(db.orders[byAge[0]].status);
    if first && a == 0 {
      i := 0;
    } else {
      var i' := ListedAt(db, byAge[1..], if first then limit - 1 else limit, if first then a - 1 else a);
      i := i' + 1;
    }
  }

  // ---------------------------------------------------------------------------
  // How each ends
  // ---------------------------------------------------------------------------

  /** A recovery with enough commits changes no other order. */
  lemma OthersUntouched(db: Db, id: nat, p: Plan, x: nat)
    requires id in db.orders && x in db.orders && x != id && Fits(p)
    ensures var after := Recover(db, id, p.route, p.replies, Ample(p)); x in after.orders && after.orders[x] == db.orders[x]
  {
    if !Terminal(db.orders[id].status) && Adoptable(db.attempts, id).None? && p.route.Some? {
      var doubted := db.orders[id].status == InDoubt;
      var db1 := if doubted then db.(orders := db.orders[id := db.orders[id].(status := Created)]) else db;
      WalkTells(db1, id, p.route.value, p.replies, 0, "", if doubted then Ample(p) - 1 else Ample(p));
    }
  }

  /** The end that is counted says what happened to the order. */
  lemma EndTells(db: Db, id: nat, p: Plan)
    requires id in db.orders && Fits(p)
    ensures var (end, after) := (RecoveryEndOf(db, id, p), Recover(db, id, p.route, p.replies, Ample(p)));
            && id in after.orders
            && (end == Skipped <==> !Unfinished(db, id)) && (end == Skipped ==> after == db)
            && (end == Recovered <==> Unfinished(db, id) && after.orders[id].status == Submitted)
            && (end == Raised <==> Unfinished(db, id) && Adoptable(db.attempts, id).None? && p.route.None?)
  {
    if Unfinished(db, id) && Adoptable(db.attempts, id).None? && p.route.Some? {
      var doubted := db.orders[id].status == InDoubt;
      var db1 := if doubted then db.(orders := db.orders[id := db.orders[id].(status := Created)]) else db;
      WalkTells(db1, id, p.route.value, p.replies, 0, "", if doubted then Ample(p) - 1 else Ample(p));
      NotYetSubmitted(db1.orders[id], p.route.value, p.replies, 0, StopAt(p.replies, 0));
    }
  }

  lemma {:induction false} NotYetSubmitted(order: Order, chain: Chain, replies: seq<Reply>, j: nat, k: nat)
    requires |replies| == |chain| && k <= |chain| && order.status != Submitted
    ensures Pointing(order, chain, replies, j, k).status != Submitted
    decreases k - j
  {
    if j < k {
      var next := if Asks(replies[j])
                  then order.(status := Submitting, broker := Some(chain[j].broker), ip := chain[j].ip) else order;
      NotYetSubmitted(next, chain, replies, j + 1, k);
    }
  }

  /** A recovery without a route writes nothing but the reset of an order in doubt. */
  lemma RaisedOnlyResets(db: Db, id: nat, p: Plan)
    requires id in db.orders && Fits(p) && RecoveryEndOf(db, id, p) == Raised
    ensures Recover(db, id, p.route, p.replies, Ample(p))
            == if db.orders[id].status == InDoubt then db.(orders := db.orders[id := db.orders[id].(status := Created)]) else db
  {
  }

  /** How many listed orders end in one of these ways, each in the state that the scan has then reached. */
  function EndingWith(db: Db, ids: seq<nat>, plans: nat -> Plan, ends: set<RecoveryEnd>): nat
    requires (forall id :: Fits(plans(id))) && AllStored(db, ids)
  {
    if ids == [] then 0
    else
      var init, last := ids[..|ids| - 1], ids[|ids| - 1];
      RecoverAllKeepsOrders(db, init, plans);
      EndingWith(db, init, plans, ends)
      + if RecoveryEndOf(RecoverAll(db, init, plans), last, plans(last)) in ends then 1 else 0
  }

  /** The summary counts the orders by how they ended; recovered and not recovered ones are retries. */
  lemma {:induction false} SummaryCounts(db: Db, ids: seq<nat>, plans: nat -> Plan)
    requires (forall id :: Fits(plans(id))) && AllStored(db, ids)
    ensures var s := Tally(db, ids, plans);
            && s.retried == EndingWith(db, ids, plans, {Recovered, NotRecovered})
            && s.recovered == EndingWith(db, ids, plans, {Recovered})
            && s.skipped == EndingWith(db, ids, plans, {Skipped})
            && s.failed == EndingWith(db, ids, plans, {NotRecovered, Raised})
  {
    if ids != [] {
      SummaryCounts(db, ids[..|ids| - 1], plans);
    }
  }

  // ---------------------------------------------------------------------------
  // Nothing is left stuck
  // ---------------------------------------------------------------------------

  /** A route is found and no session fails. */
  predicate Settling(p: Plan) {
    p.route.Some? && |p.replies| == |p.route.value| && forall i :: 0 <= i < |p.replies| ==> p.replies[i] != SessionFails
  }

  /** The first n listed orders are finished, and an order that is not among them is as it was. */
  lemma {:induction false} ScanSettles(db: Db, ids: seq<nat>, plans: nat -> Plan, x: nat)
    requires (forall id :: Fits(plans(id))) && AllStored(db, ids) && x in db.orders
    requires forall i :: 0 <= i < |ids| ==> Settling(plans(ids[i]))
    ensures x in RecoverAll(db, ids, plans).orders
    ensures if x in ids then !Unfinished(RecoverAll(db, ids, plans), x)
            else RecoverAll(db, ids, plans).orders[x] == db.orders[x]
  {
    if ids != [] {
      var n := |ids| - 1;
      var last, before := ids[n], RecoverAll(db, ids[..n], plans);
      ScanSettles(db, ids[..n], plans, x);
      RecoverAllKeepsOrders(db, ids[..n], plans);
      assert x in ids <==> x in ids[..n] || x == last;
      if x == last {
        assert Settling(plans(last));
        RecoverySettles(before, last, plans(last));
      } else {
        OthersUntouched(before, last, plans(last), x);
      }
    }
  }

  /** A scan whose limit covers the unfinished orders, with a route and sessions for each, leaves no order
      of the query created, submitting or in doubt. */
  lemma ScanLeavesNoneStuck(db: Db, byAge: seq<nat>, limit: nat, plans: nat -> Plan, k: nat)
    requires (forall id :: Fits(plans(id))) && AllKnown(db, byAge) && NoRepeats(byAge) && k < |byAge|
    requires UnfinishedAmong(db, byAge, |byAge|) <= limit
    requires forall i :: 0 <= i < |byAge| ==> Settling(plans(byAge[i]))
    ensures !Unfinished(RecoverAll(db, Stuck(db, byAge, limit), plans), byAge[k])
  {
    var stuck := Stuck(db, byAge, limit);
    StuckExist(db, byAge, limit);
    forall i | 0 <= i < |stuck| ensures Settling(plans(stuck[i])) {
      var j := ListedAt(db, byAge, limit, i);
    }
    ScanSettles(db, stuck, plans, byAge[k]);
    if Unfinished(db, byAge[k]) {
      FewerBefore(db, byAge, k, |byAge|);
      ListedIff(db, byAge, limit, k);
    }
  }

  lemma {:induction false} FewerBefore(db: Db, byAge: seq<nat>, k: nat, n: nat)
    requires k < n <= |byAge| && Unfinished(db, byAge[k])
    ensures UnfinishedAmong(db, byAge, k) < UnfinishedAmong(db, byAge, n)
    decreases n
  {
    if k < n - 1 {
      FewerBefore(db, byAge, k, n - 1);
    }
  }
}
