/** Expiry is housekeeping: it does not change who may trade later, and its teardown does not depend on
    the order in which due subscriptions are processed. */
module SubscriptionRuns {
  import opened Common
  import opened Subscriptions

  // ---------------------------------------------------------------------------
  // What enforcement does to each row
  // ---------------------------------------------------------------------------

  lemma LastOf(order: seq<nat>, k: nat)
    requires order != []
    ensures k in order <==> k in order[..|order| - 1] || k == order[|order| - 1]
  {
    var init, last := order[..|order| - 1], order[|order| - 1];
    assert order == init + [last];
  }

  lemma {:induction false} ExpiresListedRows(w: World, order: seq<nat>, now: int, replies: Replies, k: nat)
    requires InRange(order, |w.subs|) && k < |w.subs|
    ensures ExpireAll(w, order, now, replies).subs[k]
            == if k in order then w.subs[k].(status := Expired, tornDownAt := Some(now)) else w.subs[k]
  {
    if order != [] {
      var init, last := order[..|order| - 1], order[|order| - 1];
      ExpiresListedRows(w, init, now, replies, k);
      LastOf(order, k);
    }
  }

  predicate ListsClient(subs: seq<Subscription>, order: seq<nat>, client: nat) {
    exists i :: 0 <= i < |order| && order[i] < |subs| && subs[order[i]].client == client
  }

  lemma ListsOneMore(subs: seq<Subscription>, order: seq<nat>, client: nat)
    requires order != [] && InRange(order, |subs|)
    ensures ListsClient(subs, order, client)
            <==> ListsClient(subs, order[..|order| - 1], client) || subs[order[|order| - 1]].client == client
  {
    var init := order[..|order| - 1];
    if i :| 0 <= i < |order| && subs[order[i]].client == client {
      if i < |init| {
        assert init[i] == order[i];
      }
    }
    if i :| 0 <= i < |init| && subs[init[i]].client == client {
      assert order[i] == init[i];
    }
  }

  lemma {:induction false} SuspendsListedClients(w: World, order: seq<nat>, now: int, replies: Replies, c: nat)
    requires InRange(order, |w.subs|) && c in w.clients
    ensures ExpireAll(w, order, now, replies).clients[c]
            == if ListsClient(w.subs, order, c) then Suspended else w.clients[c]
  {
    if order != [] {
      var init, last := order[..|order| - 1], order[|order| - 1];
      SuspendsListedClients(w, init, now, replies, c);
      ListsOneMore(w.subs, order, c);
      ExpiresListedRows(w, init, now, replies, last);
    }
  }

  /** The subscription has run out and was not torn down. */
  predicate RunsOut(s: Subscription, now: int) {
    s.status == Open && s.tornDownAt == None && s.endsAt <= now
  }

  lemma {:induction false} AnnouncesListedRows(w: World, order: seq<nat>, now: int, replies: Replies)
    requires InRange(order, |w.subs|)
    ensures ExpireAll(w, order, now, replies).outbox == w.outbox + order
  {
    if order != [] {
      var n := |order| - 1;
      AnnouncesListedRows(w, order[..n], now, replies);
      assert order == order[..n] + [order[n]];
    }
  }

  /** Enforcement closes exactly the rows that have run out, announces each, suspends exactly their clients,
      and leaves every other row and client as it was. */
  lemma EnforcementWrites(w: World, order: seq<nat>, now: int, replies: Replies)
    requires ListsDue(order, w.subs, now)
    ensures var w' := ExpireAll(w, order, now, replies);
            && |w'.subs| == |w.subs| && w'.clients.Keys == w.clients.Keys && w'.outbox == w.outbox + order
            && (forall k: nat :: k < |w.subs| ==>
                  && (k in order <==> RunsOut(w.subs[k], now))
                  && w'.subs[k] == if RunsOut(w.subs[k], now) then w.subs[k].(status := Expired, tornDownAt := Some(now))
                                   else w.subs[k])
            && (forall c :: c in w.clients ==>
                  w'.clients[c] == if exists k :: 0 <= k < |w.subs| && w.subs[k].client == c && RunsOut(w.subs[k], now)
                                   then Suspended else w.clients[c])
  {
    AnnouncesListedRows(w, order, now, replies);
    forall k: nat | k < |w.subs|
      ensures k in order <==> RunsOut(w.subs[k], now)
      ensures ExpireAll(w, order, now, replies).subs[k]
              == if k in order then w.subs[k].(status := Expired, tornDownAt := Some(now)) else w.subs[k]
    {
      ExpiresListedRows(w, order, now, replies, k);
    }
    forall c | c in w.clients
      ensures ExpireAll(w, order, now, replies).clients[c]
              == if exists k :: 0 <= k < |w.subs| && w.subs[k].client == c && RunsOut(w.subs[k], now)
                 then Suspended else w.clients[c]
    {
      SuspendsListedClients(w, order, now, replies, c);
      ListedRunsOut(w.subs, order, now, c);
    }
  }

  lemma ListedRunsOut(subs: seq<Subscription>, order: seq<nat>, now: int, c: nat)
    requires ListsDue(order, subs, now)
    ensures ListsClient(subs, order, c) <==> exists k :: 0 <= k < |subs| && subs[k].client == c && RunsOut(subs[k], now)
  {
    if i :| 0 <= i < |order| && subs[order[i]].client == c {
      assert order[i] in order;
      assert RunsOut(subs[order[i]], now);
    }
    if k: nat :| k < |subs| && subs[k].client == c && RunsOut(subs[k], now) {
      assert k in order;
      var i :| 0 <= i < |order| && order[i] == k;
    }
  }

  /** Expiring an active subscription now ends its window at that moment and closes it for good. */
  lemma ExpireNowCloses(w: World, k: nat, at: int, now: int, order: seq<nat>, replies: Replies)
    requires k < |w.subs| && w.subs[k].status == Open && w.subs[k].tornDownAt == None && at <= now
    requires ListsDue(order, Shortened(w, k, at).subs, now)
    ensures var w' := ExpireAll(Shortened(w, k, at), order, now, replies);
            && w'.subs[k] == w.subs[k].(status := Expired, endsAt := at, tornDownAt := Some(now))
            && (w.subs[k].client in w.clients ==> w'.clients[w.subs[k].client] == Suspended)
  {
    var cut := Shortened(w, k, at);
    EnforcementWrites(cut, order, now, replies);
    assert RunsOut(cut.subs[k], now) && cut.subs[k].client == w.subs[k].client;
  }

  /** The instance is of the subscription's client and running, pending or suspended, and its teardown works. */
  predicate IsTorn(x: Instance, s: Subscription, reply: Reply) {
    x.client == s.client && x.status in {Running, Pending, Paused} && reply == Works
  }

  /** One subscription's count is the number of those instances. */
  lemma {:induction false} CountsTorn(instances: seq<Instance>, s: Subscription, k: nat, replies: Replies, n: nat)
    requires n <= |instances|
    ensures TornCount(instances, s, k, replies, n) == |set j: nat | j < n && IsTorn(instances[j], s, replies(k, j))|
  {
    if n > 0 {
      CountsTorn(instances, s, k, replies, n - 1);
      var before := set j: nat | j < n - 1 && IsTorn(instances[j], s, replies(k, j));
      assert (set j: nat | j < n && IsTorn(instances[j], s, replies(k, j)))
             == before + if IsTorn(instances[n - 1], s, replies(k, n - 1)) then {n - 1} else {};
    }
  }

  // ---------------------------------------------------------------------------
  // Enforcement and trading
  // ---------------------------------------------------------------------------

  /** Enforcing expiry changes the answer for a client at a time exactly when the client's only windows
      over that time have already ended by then, so never for a later time. */
  lemma EnforcementChangesTradingIff(w: World, order: seq<nat>, now: int, replies: Replies, c: nat, t: int)
    requires ListsDue(order, w.subs, now)
    ensures TradingAllowed(ExpireAll(w, order, now, replies), c, t) != TradingAllowed(w, c, t)
            <==> c in w.clients && Covered(w.subs, c, t)
                 && (forall i :: 0 <= i < |w.subs| && w.subs[i].client == c && Covers(w.subs[i], t) ==>
                       w.subs[i].endsAt <= now)
    ensures t > now ==> TradingAllowed(ExpireAll(w, order, now, replies), c, t) == TradingAllowed(w, c, t)
  {
    var w' := ExpireAll(w, order, now, replies);
    forall k: nat | k < |w.subs|
      ensures w'.subs[k] == if Due(w.subs[k], now) then w.subs[k].(status := Expired, tornDownAt := Some(now)) else w.subs[k]
    {
      ExpiresListedRows(w, order, now, replies, k);
    }
    assert HasRows(w.subs, c) <==> HasRows(w'.subs, c) by {
      if i :| 0 <= i < |w.subs| && w.subs[i].client == c {
        assert w'.subs[i].client == c;
      }
    }
    CoverageAfter(w.subs, w'.subs, now, c, t);
    if c in w.clients && !HasRows(w.subs, c) {
      SuspendsListedClients(w, order, now, replies, c);
      assert !ListsClient(w.subs, order, c);
      assert !Covered(w.subs, c, t);
    }
  }

  lemma CoverageAfter(subs: seq<Subscription>, subs': seq<Subscription>, now: int, c: nat, t: int)
    requires |subs'| == |subs|
    requires forall k: nat :: k < |subs| ==>
               subs'[k] == if Due(subs[k], now) then subs[k].(status := Expired, tornDownAt := Some(now)) else subs[k]
    ensures Covered(subs', c, t)
            <==> exists i :: 0 <= i < |subs| && subs[i].client == c && Covers(subs[i], t) && subs[i].endsAt > now
  {
    if i :| 0 <= i < |subs'| && subs'[i].client == c && Covers(subs'[i], t) {
      assert Covers(subs[i], t) && subs[i].endsAt > now;
    }
    if i :| 0 <= i < |subs| && subs[i].client == c && Covers(subs[i], t) && subs[i].endsAt > now {
      assert subs'[i].client == c && Covers(subs'[i], t);
    }
  }

  /** At the very moment that a window ends it still covers, and enforcement then takes it away. */
  lemma LastMomentIsTakenAway(replies: Replies)
    ensures var w := World([Subscription(1, Open, 0, 5, Mode.Suspend, None)], map[1 := Trading], [], []);
            ListsDue([0], w.subs, 5) && TradingAllowed(w, 1, 5) && !TradingAllowed(ExpireAll(w, [0], 5, replies), 1, 5)
  {
    var w := World([Subscription(1, Open, 0, 5, Mode.Suspend, None)], map[1 := Trading], [], []);
    assert Covers(w.subs[0], 5);
    assert ListsDue([0], w.subs, 5);
    EnforcementChangesTradingIff(w, [0], 5, replies, 1, 5);
  }

  /** A second run at the same time finds nothing to do. */
  lemma SecondRunFindsNothing(w: World, order: seq<nat>, now: int, replies: Replies, again: seq<nat>, replies': Replies)
    requires ListsDue(order, w.subs, now)
    requires ListsDue(again, ExpireAll(w, order, now, replies).subs, now)
    ensures again == []
    ensures ExpireAll(ExpireAll(w, order, now, replies), again, now, replies') == ExpireAll(w, order, now, replies)
  {
    var w' := ExpireAll(w, order, now, replies);
    if again != [] {
      var k := again[0];
      assert k in again;
      ExpiresListedRows(w, order, now, replies, k);
      assert false;
    }
  }

  // ---------------------------------------------------------------------------
  // Teardown does not depend on the order
  // ---------------------------------------------------------------------------

  predicate ListsDestroy(subs: seq<Subscription>, order: seq<nat>, client: nat) {
    exists i :: 0 <= i < |order| && order[i] < |subs| && subs[order[i]].client == client
                && subs[order[i]].mode == Mode.Destroy
  }

  lemma DestroysOneMore(subs: seq<Subscription>, order: seq<nat>, client: nat)
    requires order != [] && InRange(order, |subs|)
    ensures ListsDestroy(subs, order, client)
            <==> ListsDestroy(subs, order[..|order| - 1], client)
                 || (subs[order[|order| - 1]].client == client && subs[order[|order| - 1]].mode == Mode.Destroy)
  {
    var init := order[..|order| - 1];
    if i :| 0 <= i < |order| && subs[order[i]].client == client && subs[order[i]].mode == Mode.Destroy {
      if i < |init| {
        assert init[i] == order[i];
      }
    }
    if i :| 0 <= i < |init| && subs[init[i]].client == client && subs[init[i]].mode == Mode.Destroy {
      assert order[i] == init[i];
    }
  }

  /** The state in which a complete teardown leaves an instance. */
  function Outcome(x: Instance, listed: bool, destroy: bool): Instance {
    if !listed || !Alive(x.status) then x
    else x.(autoRenew := false, status := if destroy then Destroyed else Paused)
  }

  lemma {:induction false} TeardownOutcome(w: World, order: seq<nat>, now: int, replies: Replies, j: nat)
    requires InRange(order, |w.subs|) && j < |w.instances|
    requires forall k, i :: replies(k, i) == Works
    ensures var x := w.instances[j];
            ExpireAll(w, order, now, replies).instances[j]
            == Outcome(x, ListsClient(w.subs, order, x.client), ListsDestroy(w.subs, order, x.client))
  {
    if order != [] {
      var init, last := order[..|order| - 1], order[|order| - 1];
      TeardownOutcome(w, init, now, replies, j);
      ExpiresListedRows(w, init, now, replies, last);
      ListsOneMore(w.subs, order, w.instances[j].client);
      DestroysOneMore(w.subs, order, w.instances[j].client);
      DestroyIsListed(w.subs, init, w.instances[j].client);
    }
  }

  lemma DestroyIsListed(subs: seq<Subscription>, order: seq<nat>, client: nat)
    ensures ListsDestroy(subs, order, client) ==> ListsClient(subs, order, client)
  {
  }

  predicate DueClient(subs: seq<Subscription>, now: int, client: nat) {
    exists k :: 0 <= k < |subs| && subs[k].client == client && Due(subs[k], now)
  }

  predicate DueDestroy(subs: seq<Subscription>, now: int, client: nat) {
    exists k :: 0 <= k < |subs| && subs[k].client == client && Due(subs[k], now) && subs[k].mode == Mode.Destroy
  }

  lemma ListedIsDue(subs: seq<Subscription>, order: seq<nat>, now: int, c: nat)
    requires ListsDue(order, subs, now)
    ensures ListsClient(subs, order, c) <==> DueClient(subs, now, c)
    ensures ListsDestroy(subs, order, c) <==> DueDestroy(subs, now, c)
  {
    forall i | 0 <= i < |order| ensures Due(subs[order[i]], now) {
      assert order[i] in order;
    }
    forall k: nat | k < |subs| && Due(subs[k], now) ensures exists i :: 0 <= i < |order| && order[i] == k {
      assert k in order;
    }
  }

  /** When the provider calls succeed, an instance ends destroyed if any due subscription of its client
      says so, otherwise suspended, and every row ends the same whatever the order. */
  lemma TeardownIgnoresOrder(w: World, order: seq<nat>, now: int, replies: Replies, j: nat)
    requires ListsDue(order, w.subs, now) && j < |w.instances|
    requires forall k, i :: replies(k, i) == Works
    ensures var x := w.instances[j];
            ExpireAll(w, order, now, replies).instances[j]
            == Outcome(x, DueClient(w.subs, now, x.client), DueDestroy(w.subs, now, x.client))
  {
    TeardownOutcome(w, order, now, replies, j);
    ListedIsDue(w.subs, order, now, w.instances[j].client);
  }

  lemma {:induction false} EnforcementIsConfluent(w: World, order: seq<nat>, order': seq<nat>, now: int, replies: Replies)
    requires ListsDue(order, w.subs, now) && ListsDue(order', w.subs, now)
    requires forall k, i :: replies(k, i) == Works
    ensures var (a, b) := (ExpireAll(w, order, now, replies), ExpireAll(w, order', now, replies));
            a.subs == b.subs && a.clients == b.clients && a.instances == b.instances
  {
    var a, b := ExpireAll(w, order, now, replies), ExpireAll(w, order', now, replies);
    forall k: nat | k < |w.subs| ensures a.subs[k] == b.subs[k] {
      ExpiresListedRows(w, order, now, replies, k);
      ExpiresListedRows(w, order', now, replies, k);
    }
    forall c | c in w.clients ensures a.clients[c] == b.clients[c] {
      SuspendsListedClients(w, order, now, replies, c);
      SuspendsListedClients(w, order', now, replies, c);
      ListedIsDue(w.subs, order, now, c);
      ListedIsDue(w.subs, order', now, c);
    }
    forall j: nat | j < |w.instances| ensures a.instances[j] == b.instances[j] {
      TeardownIgnoresOrder(w, order, now, replies, j);
      TeardownIgnoresOrder(w, order', now, replies, j);
    }
  }

  /** One client with an instance and two due subscriptions, the second of which says DESTROY. */
  function TwoDue(): World {
    World([Subscription(1, Open, 0, 5, Mode.Suspend, None), Subscription(1, Open, 0, 5, Mode.Destroy, None)],
          map[1 := Trading], [Instance(1, Running, true)], [])
  }

  lemma TwoAreTorn(first: nat, second: nat, replies: Replies)
    requires {first, second} == {0, 1} && first != second
    requires forall k, i :: replies(k, i) == Works
    ensures ListsDue([first, second], TwoDue().subs, 9)
    ensures TornAll(TwoDue(), [first, second], 9, replies) == if first == 0 then 2 else 1
  {
    var w := TwoDue();
    assert first in {first, second} && second in {first, second};
    assert forall k: nat :: k < 2 ==> k in {first, second} && k in [first, second];
    var none, one: seq<nat> := [], [first];
    assert [first, second][..1] == one && one[..|one| - 1] == none;
    assert ExpireAll(w, none, 9, replies) == w && TornAll(w, none, 9, replies) == 0;
    var after := ExpireAll(w, one, 9, replies);
    assert after == ExpireOne(w, first, 9, replies);
    assert after.instances[0] == Torn(w.instances[0], w.subs[first], Works);
    OneInstance(w.instances, w.subs[first], first, replies);
    OneInstance(after.instances, after.subs[second], second, replies);
    assert TornAll(w, one, 9, replies) == 1;
  }

  lemma OneInstance(instances: seq<Instance>, s: Subscription, k: nat, replies: Replies)
    requires |instances| == 1 && replies(k, 0) == Works
    ensures TornCount(instances, s, k, replies, 1)
            == if instances[0].client == s.client && Alive(instances[0].status) then 1 else 0
  {
    assert TornCount(instances, s, k, replies, 0) == 0;
  }

  /** The reported number of torn-down instances does depend on it. */
  lemma CountDependsOnOrder(replies: Replies)
    requires forall k, i :: replies(k, i) == Works
    ensures ListsDue([0, 1], TwoDue().subs, 9) && ListsDue([1, 0], TwoDue().subs, 9)
    ensures TornAll(TwoDue(), [0, 1], 9, replies) == 2 && TornAll(TwoDue(), [1, 0], 9, replies) == 1
  {
    TwoAreTorn(0, 1, replies);
    TwoAreTorn(1, 0, replies);
  }
}
