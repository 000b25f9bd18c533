/** Subscriptions: creating windows, deciding whether a client may trade, and tearing down after expiry. */
module Subscriptions {
  import opened Common

  datatype SubStatus = Open | Expired

  datatype Mode = Suspend | Destroy

  datatype Subscription = Subscription(
    client: nat, status: SubStatus, startsAt: int, endsAt: int, mode: Mode, tornDownAt: Option<int>)

  datatype ClientStatus = Trading | Suspended

  datatype InstanceStatus = Running | Pending | Paused | Destroyed | OtherStatus

  datatype Instance = Instance(client: nat, status: InstanceStatus, autoRenew: bool)

  /** The outbox lists the subscriptions whose expiry was announced. */
  datatype World = World(
    subs: seq<Subscription>, clients: map<nat, ClientStatus>, instances: seq<Instance>, outbox: seq<nat>)

  datatype Error = NotFound | InvalidArgument | SubscriptionExpired | InvalidState | InfrastructureFailure

  datatype Result<+T> = Ok(value: T) | Err(error: Error)

  /** How the provider answers while one instance is torn down for one subscription: the renewal call or
      the call after it may fail. */
  datatype Reply = Works | RenewFails | TeardownFails

  type Replies = (nat, nat) -> Reply

  // ---------------------------------------------------------------------------
  // Trading
  // ---------------------------------------------------------------------------

  predicate InForce(s: Subscription) {
    s.status == Open && s.tornDownAt.None?
  }

  predicate Covers(s: Subscription, t: int) {
    InForce(s) && s.startsAt <= t <= s.endsAt
  }

  predicate HasRows(subs: seq<Subscription>, client: nat) {
    exists i :: 0 <= i < |subs| && subs[i].client == client
  }

  predicate Covered(subs: seq<Subscription>, client: nat, t: int) {
    exists i :: 0 <= i < |subs| && subs[i].client == client && Covers(subs[i], t)
  }

  /** A client without any subscription trades unless suspended; otherwise any covering row decides. */
  predicate TradingAllowed(w: World, client: nat, t: int) {
    client in w.clients
    && if HasRows(w.subs, client) then Covered(w.subs, client, t) else w.clients[client] != Suspended
  }

  // ---------------------------------------------------------------------------
  // What each operation does
  // ---------------------------------------------------------------------------

  function CreateError(w: World, client: nat, startsAt: int, endsAt: int): Option<Error> {
    if client !in w.clients then Some(NotFound)
    else if endsAt <= startsAt then Some(InvalidArgument)
    else None
  }

  function Created(w: World, client: nat, startsAt: int, endsAt: int, mode: Mode, now: int): World {
    if CreateError(w, client, startsAt, endsAt).Some? then w
    else
      w.(subs := w.subs + [Subscription(client, Open, startsAt, endsAt, mode, None)],
         clients := if startsAt <= now <= endsAt then w.clients[client := Trading] else w.clients)
  }

  /** The gate before an order clears a stale suspension. */
  function Checked(w: World, client: nat, now: int): World {
    if TradingAllowed(w, client, now) then w.(clients := w.clients[client := Trading]) else w
  }

  predicate Due(s: Subscription, now: int) {
    InForce(s) && s.endsAt <= now
  }

  predicate Alive(status: InstanceStatus) {
    status == Running || status == Pending || status == Paused
  }

  function Torn(x: Instance, s: Subscription, reply: Reply): Instance {
    if x.client != s.client || !Alive(x.status) then x
    else
      match reply
      case RenewFails => x
      case TeardownFails => x.(autoRenew := false)
      case Works => x.(autoRenew := false, status := if s.mode == Mode.Destroy then Destroyed else Paused)
  }

  function Swept(instances: seq<Instance>, s: Subscription, k: nat, replies: Replies): (r: seq<Instance>)
    ensures |r| == |instances|
    ensures forall j :: 0 <= j < |r| ==> r[j] == Torn(instances[j], s, replies(k, j))
  {
    seq(|instances|, j requires 0 <= j < |instances| => Torn(instances[j], s, replies(k, j)))
  }

  /** Expire one subscription: suspend its client and tear down the client's instances. */
  function ExpireOne(w: World, k: nat, now: int, replies: Replies): World
    requires k < |w.subs|
  {
    var s := w.subs[k];
    World(w.subs[k := s.(status := Expired, tornDownAt := Some(now))],
          if s.client in w.clients then w.clients[s.client := Suspended] else w.clients,
          Swept(w.instances, s, k, replies),
          w.outbox + [k])
  }

  function ExpireAll(w: World, order: seq<nat>, now: int, replies: Replies): (w': World)
    requires InRange(order, |w.subs|)
    ensures |w'.subs| == |w.subs| && |w'.instances| == |w.instances| && w'.clients.Keys == w.clients.Keys
  {
    if order == [] then w
    else ExpireOne(ExpireAll(w, order[..|order| - 1], now, replies), order[|order| - 1], now, replies)
  }

  /** How many instances one subscription tears down, among the first n. */
  function TornCount(instances: seq<Instance>, s: Subscription, k: nat, replies: Replies, n: nat): nat
    requires n <= |instances|
  {
    if n == 0 then 0
    else TornCount(instances, s, k, replies, n - 1)
         + if instances[n - 1].client == s.client && Alive(instances[n - 1].status) && replies(k, n - 1) == Works
           then 1 else 0
  }

  function TornAll(w: World, order: seq<nat>, now: int, replies: Replies): nat
    requires InRange(order, |w.subs|)
  {
    if order == [] then 0
    else
      var before := ExpireAll(w, order[..|order| - 1], now, replies);
      var k := order[|order| - 1];
      TornAll(w, order[..|order| - 1], now, replies)
      + TornCount(before.instances, before.subs[k], k, replies, |before.instances|)
  }

  /** The order in which the database returns the due rows: each of them once. */
  ghost predicate ListsDue(order: seq<nat>, subs: seq<Subscription>, now: int) {
    && InRange(order, |subs|)
    && (forall i, j :: 0 <= i < j < |order| ==> order[i] != order[j])
    && (forall k: nat :: k < |subs| ==> (k in order <==> Due(subs[k], now)))
  }

  /** Bringing a subscription to its end: its window now closes at `at`. */
  function Shortened(w: World, k: nat, at: int): World {
    if k < |w.subs| && w.subs[k].status == Open then w.(subs := w.subs[k := w.subs[k].(endsAt := at)]) else w
  }

  // ---------------------------------------------------------------------------
  // The service
  // ---------------------------------------------------------------------------

  class Service {
    var w: World

    constructor (initial: World)
      ensures w == initial
    {
      w := initial;
    }

    method Create(client: nat, startsAt: int, endsAt: int, mode: Mode, now: int) returns (r: Result<nat>)
      modifies this
      ensures w == Created(old(w), client, startsAt, endsAt, mode, now)
      ensures r == match CreateError(old(w), client, startsAt, endsAt)
                   case Some(e) => Err(e)
                   case None => Ok(|old(w).subs|)
      ensures r == if client !in old(w).clients then Err(NotFound)
                   else if startsAt < endsAt then Ok(|old(w).subs|) else Err(InvalidArgument)
      ensures r.Err? ==> w == old(w)
      ensures r.Ok? ==> w.subs == old(w).subs + [Subscription(client, Open, startsAt, endsAt, mode, None)]
                        && w.instances == old(w).instances && w.outbox == old(w).outbox
                        && w.clients == old(w).clients[client := if startsAt <= now && now <= endsAt then Trading
                                                                 else old(w).clients[client]]
    {
      if client !in w.clients {
        return Err(NotFound);
      }
      if endsAt <= startsAt {
        return Err(InvalidArgument);
      }
      r := Ok(|w.subs|);
      w := w.(subs := w.subs + [Subscription(client, Open, startsAt, endsAt, mode, None)]);
      if startsAt <= now <= endsAt && w.clients[client] == Suspended {
        w := w.(clients := w.clients[client := Trading]);
      }
      assert w.clients == Created(old(w), client, startsAt, endsAt, mode, now).clients;
    }

    method AssertTradingAllowed(client: nat, now: int) returns (r: Result<()>)
      modifies this
      ensures w == Checked(old(w), client, now)
      ensures r == if TradingAllowed(old(w), client, now) then Ok(()) else Err(SubscriptionExpired)
      ensures var subs := old(w).subs;
              r.Ok? <==> client in old(w).clients
                         && if exists i :: 0 <= i < |subs| && subs[i].client == client
                            then exists i :: 0 <= i < |subs| && subs[i].client == client && subs[i].status == Open
                                             && subs[i].tornDownAt == None && subs[i].startsAt <= now && now <= subs[i].endsAt
                            else old(w).clients[client] == Trading
      ensures w == if r.Ok? then old(w).(clients := old(w).clients[client := Trading]) else old(w)
    {
      if TradingAllowed(w, client, now) {
        if w.clients[client] == Suspended {
          w := w.(clients := w.clients[client := Trading]);
        }
        assert w.clients == Checked(old(w), client, now).clients;
        return Ok(());
      }
      r := Err(SubscriptionExpired);
    }

    /** The inner loop: tear down the instances that the query returned for one subscription. */
    method TearDown(k: nat, replies: Replies) returns (torn: nat)
      requires k < |w.subs|
      modifies this
      ensures w == old(w).(instances := Swept(old(w).instances, old(w).subs[k], k, replies))
      ensures torn == TornCount(old(w).instances, old(w).subs[k], k, replies, |old(w).instances|)
      ensures |w.instances| == |old(w).instances|
      ensures forall j :: 0 <= j < |w.instances| ==>
                var (s, x) := (old(w).subs[k], old(w).instances[j]);
                w.instances[j]
                == if x.client == s.client && x.status in {Running, Pending, Paused} && replies(k, j) != RenewFails
                   then Instance(x.client, if replies(k, j) == TeardownFails then x.status
                                           else if s.mode == Mode.Destroy then Destroyed else Paused, false)
                   else x
    {
      torn := 0;
      var s, found := w.subs[k], w.instances;
      for j := 0 to |found|
        invariant w == old(w).(instances := w.instances) && |w.instances| == |found|
        invariant forall m :: 0 <= m < j ==> w.instances[m] == Torn(found[m], s, replies(k, m))
        invariant forall m :: j <= m < |found| ==> w.instances[m] == found[m]
        invariant torn == TornCount(found, s, k, replies, j)
      {
        if found[j].client == s.client && Alive(found[j].status) {
          var reply := replies(k, j);
          if reply != RenewFails {
            w := w.(instances := w.instances[j := w.instances[j].(autoRenew := false)]);
            if reply == Works {
              var status := if s.mode == Mode.Destroy then Destroyed else Paused;
              w := w.(instances := w.instances[j := w.instances[j].(status := status)]);
              torn := torn + 1;
            }
          }
        }
      }
      assert w.instances == Swept(found, s, k, replies);
    }

    /** The body of the outer loop: one due subscription. */
    method ExpireRow(k: nat, now: int, replies: Replies) returns (torn: nat)
      requires k < |w.subs|
      modifies this
      ensures w == ExpireOne(old(w), k, now, replies)
      ensures torn == TornCount(old(w).instances, old(w).subs[k], k, replies, |old(w).instances|)
    {
      ghost var s := w.subs[k];
      w := w.(subs := w.subs[k := w.subs[k].(status := Expired)]);
      if w.subs[k].client in w.clients {
        w := w.(clients := w.clients[w.subs[k].client := Suspended]);
      }
      torn := TearDown(k, replies);
      SameCount(old(w).instances, s, s.(status := Expired), k, replies, |old(w).instances|);
      w := w.(subs := w.subs[k := w.subs[k].(tornDownAt := Some(now))], outbox := w.outbox + [k]);
      assert w.instances == Swept(old(w).instances, s, k, replies);
      assert w.subs == old(w).subs[k := s.(status := Expired, tornDownAt := Some(now))];
    }

    method EnforceExpiry(now: int, order: seq<nat>, replies: Replies) returns (expired: nat, torn: nat)
      requires ListsDue(order, w.subs, now)
      modifies this
      ensures w == ExpireAll(old(w), order, now, replies)
      ensures expired == |order| && torn == TornAll(old(w), order, now, replies)
    {
      expired, torn := 0, 0;
      for i := 0 to |order|
        invariant InRange(order[..i], |old(w).subs|)
        invariant w == ExpireAll(old(w), order[..i], now, replies)
        invariant expired == i && torn == TornAll(old(w), order[..i], now, replies)
      {
        assert order[..i + 1][..i] == order[..i];
        var count := ExpireRow(order[i], now, replies);
        torn := torn + count;
        expired := expired + 1;
      }
      assert order[..|order|] == order;
    }

    /** Only an active subscription is shortened for good, and then expiry is enforced at once. */
    method ExpireNow(k: nat, at: int, now: int, order: seq<nat>, replies: Replies) returns (r: Result<Subscription>)
      requires at <= now
      requires k < |w.subs| && w.subs[k].status == Open ==> ListsDue(order, Shortened(w, k, at).subs, now)
      modifies this
      ensures w == if k < |old(w).subs| && old(w).subs[k].status == Open
                   then ExpireAll(Shortened(old(w), k, at), order, now, replies) else old(w)
      ensures r == if k >= |old(w).subs| then Err(NotFound)
                   else if old(w).subs[k].status == Open then Ok(w.subs[k])
                   else Ok(old(w).subs[k].(endsAt := at))
    {
      if k >= |w.subs| {
        return Err(NotFound);
      }
      if w.subs[k].status == Open {
        w := w.(subs := w.subs[k := w.subs[k].(endsAt := at)]);
        var _, _ := EnforceExpiry(now, order, replies);
        return Ok(w.subs[k]);
      }
      r := Ok(w.subs[k].(endsAt := at));
    }
  }

  lemma {:induction false} SameCount(instances: seq<Instance>, s: Subscription, s': Subscription, k: nat, replies: Replies, n: nat)
    requires n <= |instances| && s.client == s'.client
    ensures TornCount(instances, s, k, replies, n) == TornCount(instances, s', k, replies, n)
  {
    if n > 0 {
      SameCount(instances, s, s', k, replies, n - 1);
    }
  }
}
