/** The in-process event provider and the three routes by which one event reaches the ring: publish
    fan-out, the drain's own feed, and the replay of the whole log when a consumer subscribes. */
module EventProvider {
  import opened Common
  import opened BusBuffer

  datatype Message = Message(topic: string, event: Event)

  /** `topics` is absent when a handler wants every topic. */
  datatype Handler = Handler(topics: Option<set<string>>)

  datatype Bus = Bus(published: seq<Message>, handler: Option<Handler>, closed: bool, ring: Ring)

  predicate Wants(h: Handler, topic: string) {
    h.topics.None? || topic in h.topics.value
  }

  predicate Heard(handler: Option<Handler>, topic: string) {
    handler.Some? && Wants(handler.value, topic)
  }

  /** The consumer's handler: append to the ring as a consumed event. */
  function Consume(b: Ring, maxlen: nat, m: Message, now: string): Ring {
    AppendRow(b, maxlen, m.topic, m.event, "consumed", now)
  }

  /** Deliver the wanted messages of a log, in order. */
  function Replay(b: Ring, maxlen: nat, log: seq<Message>, h: Handler, now: string): Ring {
    if log == [] then b
    else
      var before := Replay(b, maxlen, log[..|log| - 1], h, now);
      var last := log[|log| - 1];
      if Wants(h, last.topic) then Consume(before, maxlen, last, now) else before
  }

  function PublishTo(bus: Bus, maxlen: nat, m: Message, now: string): Bus {
    if bus.closed then bus
    else
      bus.(published := bus.published + [m],
           ring := if Heard(bus.handler, m.topic) then Consume(bus.ring, maxlen, m, now) else bus.ring)
  }

  /** A publish whose handler raises has reached the log, and nothing else. */
  function LogOnly(bus: Bus, m: Message): Bus {
    if bus.closed then bus else bus.(published := bus.published + [m])
  }

  function CloseBus(bus: Bus): Bus {
    bus.(closed := true, handler := None)
  }

  function SubscribeTo(bus: Bus, maxlen: nat, h: Handler, now: string): Bus {
    if bus.closed then bus
    else bus.(handler := Some(h), ring := Replay(bus.ring, maxlen, bus.published, h, now))
  }

  /** The drain publishes a row and, if that did not raise, feeds the ring itself as well. */
  function PublishAndFeed(bus: Bus, maxlen: nat, m: Message, now: string): Bus {
    var after := PublishTo(bus, maxlen, m, now);
    if bus.closed then after else after.(ring := Consume(after.ring, maxlen, m, now))
  }

  // ---------------------------------------------------------------------------
  // Replay is invisible to the rows
  // ---------------------------------------------------------------------------

  /** The row of a message whose id and time are given does not depend on when it arrives. */
  function RowOf(m: Message): Row {
    MakeRow(m.topic, m.event, "consumed", 0, "")
  }

  function RowsOf(log: seq<Message>): seq<Row> {
    seq(|log|, i requires 0 <= i < |log| => RowOf(log[i]))
  }

  ghost predicate WellFormed(log: seq<Message>) {
    && (forall i :: 0 <= i < |log| ==> log[i].event.id != "" && log[i].event.occurredAt != "")
    && (forall i, j :: 0 <= i < j < |log| ==> log[i].event.id != log[j].event.id)
  }

  ghost predicate WantsAll(h: Handler, log: seq<Message>) {
    forall i :: 0 <= i < |log| ==> Wants(h, log[i].topic)
  }

  lemma RowsOfMore(log: seq<Message>, m: Message)
    ensures RowsOf(log + [m]) == RowsOf(log) + [RowOf(m)]
  {
  }

  /** A row is in the newest `n` of a log exactly when one of the last `n` entries has its id. */
  lemma NewestHolds(log: seq<Row>, n: nat, id: string)
    ensures Holds(Newest(log, n), id) <==> exists i :: 0 <= i < |log| && |log| - n <= i && log[i].id == id
  {
    NewestAt(log, n);
    var rows := Newest(log, n);
    if i :| 0 <= i < |log| && |log| - n <= i && log[i].id == id {
      assert rows[|log| - 1 - i].id == id;
    }
    if i :| 0 <= i < |rows| && rows[i].id == id {
      assert log[|log| - 1 - i].id == id;
    }
  }

  /** Redelivering message i of a log longer than the ring: the window has just moved past it. */
  lemma RedeliveryIsFresh(maxlen: nat, log: seq<Message>, i: nat)
    requires WellFormed(log) && maxlen < |log| && i < |log|
    ensures !Holds(Newest(RowsOf(log) + RowsOf(log[..i]), maxlen), log[i].event.id)
  {
    var twice := RowsOf(log) + RowsOf(log[..i]);
    NewestHolds(twice, maxlen, log[i].event.id);
    forall p | 0 <= p < |twice| && |twice| - maxlen <= p
      ensures twice[p].id != log[i].event.id
    {
      var q := if p < |log| then p else p - |log|;
      assert twice[p].id == log[q].event.id;
    }
  }

  lemma RedeliveryIsDuplicate(maxlen: nat, log: seq<Message>, i: nat)
    requires WellFormed(log) && |log| <= maxlen && i < |log|
    ensures Holds(Newest(RowsOf(log), maxlen), log[i].event.id)
  {
    NewestHolds(RowsOf(log), maxlen, log[i].event.id);
    assert RowsOf(log)[i].id == log[i].event.id;
  }

  lemma TwiceRowsOfMore(log: seq<Message>, i: nat)
    requires i < |log|
    ensures RowsOf(log) + RowsOf(log[..i + 1]) == RowsOf(log) + RowsOf(log[..i]) + [RowOf(log[i])]
  {
    assert log[..i + 1] == log[..i] + [log[i]];
    RowsOfMore(log[..i], log[i]);
  }

  /** A delivery whose id is not in the window becomes the newest row. */
  lemma FreshDelivery(b: Ring, maxlen: nat, rows: seq<Row>, m: Message, now: string)
    requires b.rows == Newest(rows, maxlen) && !Holds(b.rows, m.event.id)
    requires m.event.id != "" && m.event.occurredAt != ""
    ensures Consume(b, maxlen, m, now).rows == Newest(rows + [RowOf(m)], maxlen)
    ensures Consume(b, maxlen, m, now).totalSeen == b.totalSeen + 1
  {
    NewestOfLonger(rows, RowOf(m), maxlen);
  }

  /** The ring's rows after the first i messages are delivered a second time. */
  lemma {:induction false} ReplayPrefix(b: Ring, maxlen: nat, log: seq<Message>, i: nat, h: Handler, now: string)
    requires WellFormed(log) && WantsAll(h, log) && i <= |log|
    requires b.rows == Newest(RowsOf(log), maxlen)
    ensures var after := Replay(b, maxlen, log[..i], h, now);
            if |log| <= maxlen then after == b
            else after.rows == Newest(RowsOf(log) + RowsOf(log[..i]), maxlen)
                 && after.totalSeen == b.totalSeen + i
  {
    if i == 0 {
      assert RowsOf(log) + RowsOf(log[..0]) == RowsOf(log);
    } else {
      ReplayPrefix(b, maxlen, log, i - 1, h, now);
      var m, before := log[i - 1], Replay(b, maxlen, log[..i - 1], h, now);
      assert log[..i][..i - 1] == log[..i - 1];
      assert Replay(b, maxlen, log[..i], h, now) == Consume(before, maxlen, m, now);
      if |log| <= maxlen {
        RedeliveryIsDuplicate(maxlen, log, i - 1);
      } else {
        RedeliveryIsFresh(maxlen, log, i - 1);
        var twice := RowsOf(log) + RowsOf(log[..i - 1]);
        FreshDelivery(before, maxlen, twice, m, now);
        TwiceRowsOfMore(log, i - 1);
      }
    }
  }

  lemma NewestOfTail(a: seq<Row>, b: seq<Row>, n: nat)
    requires n <= |b|
    ensures Newest(a + b, n) == Newest(b, n)
  {
    NewestAt(a + b, n);
    NewestAt(b, n);
  }

  /** Subscribing re-delivers the whole published log. A ring that holds the newest min(n, maxlen) of
      that log ends with the same rows in the same order, for every n and maxlen: either every
      delivery is a duplicate, or (n > maxlen) none is and the ring is refilled. The counter tells
      the two apart: it grows by n exactly when the log is longer than the ring. */
  lemma {:induction false} ReplayKeepsRows(b: Ring, maxlen: nat, log: seq<Message>, h: Handler, now: string)
    requires WellFormed(log) && WantsAll(h, log)
    requires b.rows == Newest(RowsOf(log), maxlen)
    ensures Replay(b, maxlen, log, h, now).rows == b.rows
    ensures Replay(b, maxlen, log, h, now).totalSeen
            == b.totalSeen + (if |log| <= maxlen then 0 else |log|)
  {
    ReplayPrefix(b, maxlen, log, |log|, h, now);
    assert log[..|log|] == log;
    if |log| > maxlen {
      NewestOfTail(RowsOf(log), RowsOf(log), maxlen);
    }
  }

  /** The messages of a log whose topic is wanted; no topics stand for all. */
  function Wanted(log: seq<Message>, topics: Option<set<string>>): seq<Message> {
    if log == [] then []
    else
      var last := log[|log| - 1];
      Wanted(log[..|log| - 1], topics) + if topics == None || last.topic in topics.value then [last] else []
  }

  /** A handler of some topics gets exactly the messages of those topics: a replay to it is a replay of them
      to a handler of all. */
  lemma {:induction false} ReplaysWanted(b: Ring, maxlen: nat, log: seq<Message>, topics: Option<set<string>>, now: string)
    ensures Replay(b, maxlen, log, Handler(topics), now) == Replay(b, maxlen, Wanted(log, topics), Handler(None), now)
  {
    if log != [] {
      var init, last := log[..|log| - 1], log[|log| - 1];
      ReplaysWanted(b, maxlen, init, topics, now);
      var before, wanted := Replay(b, maxlen, init, Handler(topics), now), Wanted(log, topics);
      if topics == None || last.topic in topics.value {
        assert wanted == Wanted(init, topics) + [last];
        assert wanted[..|wanted| - 1] == Wanted(init, topics);
        assert Replay(b, maxlen, wanted, Handler(None), now) == Consume(before, maxlen, last, now);
      } else {
        assert wanted == Wanted(init, topics);
        assert Replay(b, maxlen, log, Handler(topics), now) == before;
      }
    }
  }

  /** A publish shows in the ring exactly what its handler would be replayed of it. */
  lemma PublishShowsWanted(bus: Bus, maxlen: nat, m: Message, now: string)
    requires !bus.closed
    ensures PublishTo(bus, maxlen, m, now).ring
            == if bus.handler == None then bus.ring
               else Replay(bus.ring, maxlen, Wanted([m], bus.handler.value.topics), Handler(None), now)
  {
    if bus.handler.Some? {
      ReplaysWanted(bus.ring, maxlen, [m], bus.handler.value.topics, now);
      assert [m][..0] == [];
      assert Replay(bus.ring, maxlen, [], bus.handler.value, now) == bus.ring;
    }
  }

  // ---------------------------------------------------------------------------
  // Whole runs: three routes, one entry per event
  // ---------------------------------------------------------------------------

  datatype Op =
    | Drain(message: Message, at: string)
    | Resubscribe(handler: Handler, at: string)
    | Close

  function Apply(bus: Bus, op: Op, maxlen: nat): Bus {
    match op
    case Drain(m, now) => PublishAndFeed(bus, maxlen, m, now)
    case Resubscribe(h, now) => SubscribeTo(bus, maxlen, h, now)
    case Close => CloseBus(bus)
  }

  function Run(ops: seq<Op>, maxlen: nat): Bus {
    if ops == [] then Bus([], None, false, EMPTY)
    else Apply(Run(ops[..|ops| - 1], maxlen), ops[|ops| - 1], maxlen)
  }

  /** Every subscription wants every topic that is ever published. */
  ghost predicate CoversAll(ops: seq<Op>, log: seq<Message>) {
    forall i :: 0 <= i < |ops| && ops[i].Resubscribe? ==> WantsAll(ops[i].handler, log)
  }

  /** Publishing and feeding one new message shows it once, whether or not a handler saw it first. */
  lemma FeedShowsOnce(bus: Bus, maxlen: nat, m: Message, now: string)
    requires WellFormed(bus.published + [m])
    requires bus.ring.rows == Newest(RowsOf(bus.published), maxlen)
    ensures PublishAndFeed(bus, maxlen, m, now).ring.rows
            == Newest(RowsOf(PublishAndFeed(bus, maxlen, m, now).published), maxlen)
    ensures !bus.closed && maxlen > 0 ==>
              PublishAndFeed(bus, maxlen, m, now).ring.totalSeen == bus.ring.totalSeen + 1
  {
    if !bus.closed {
      var log, rows := bus.published, RowsOf(bus.published);
      assert !Holds(bus.ring.rows, m.event.id) by {
        NewestHolds(rows, maxlen, m.event.id);
        forall i | 0 <= i < |rows|
          ensures rows[i].id != m.event.id
        {
          assert (log + [m])[i].event.id != (log + [m])[|log|].event.id;
        }
      }
      RowsOfMore(log, m);
      assert (log + [m])[|log|] == m;
      FreshDelivery(bus.ring, maxlen, rows, m, now);
      var once := Consume(bus.ring, maxlen, m, now);
      ShownOnce(once, maxlen, log, m, now);
    }
  }

  lemma ShownOnce(b: Ring, maxlen: nat, log: seq<Message>, m: Message, now: string)
    requires m.event.id != "" && m.event.occurredAt != "" && b.rows == Newest(RowsOf(log + [m]), maxlen)
    ensures Consume(b, maxlen, m, now).rows == b.rows
    ensures maxlen > 0 ==> Consume(b, maxlen, m, now) == b
  {
    NewestHolds(RowsOf(log + [m]), maxlen, m.event.id);
    assert RowsOf(log + [m])[|log|].id == m.event.id;
  }

  /** Over any run of drained rows, re-subscriptions and closings the ring shows exactly the newest
      min(n, maxlen) published messages, newest first, each once. */
  lemma {:induction false} RingShowsNewestPublished(ops: seq<Op>, maxlen: nat)
    requires WellFormed(Run(ops, maxlen).published) && CoversAll(ops, Run(ops, maxlen).published)
    ensures Run(ops, maxlen).ring.rows == Newest(RowsOf(Run(ops, maxlen).published), maxlen)
  {
    if ops != [] {
      var init, last := ops[..|ops| - 1], ops[|ops| - 1];
      var bus := Run(init, maxlen);
      var log := Run(ops, maxlen).published;
      assert bus.published <= log;
      RingShowsNewestPublished(init, maxlen);
      match last {
        case Drain(m, now) =>
          assert bus.closed || log == bus.published + [m];
          if !bus.closed {
            FeedShowsOnce(bus, maxlen, m, now);
          }
        case Resubscribe(h, now) =>
          assert ops[|ops| - 1].handler == h;
          ReplayKeepsRows(bus.ring, maxlen, bus.published, h, now);
        case Close =>
      }
    }
  }

  /** Closing is for good: from then on nothing is published and no handler is registered. */
  lemma {:induction false} ClosedForGood(ops: seq<Op>, more: seq<Op>, maxlen: nat)
    requires Close in ops
    ensures Run(ops + more, maxlen).closed && Run(ops + more, maxlen).published == Run(ops, maxlen).published
    ensures Run(ops + more, maxlen).handler == None
  {
    if more != [] {
      assert (ops + more)[..|ops + more| - 1] == ops + more[..|more| - 1];
      ClosedForGood(ops, more[..|more| - 1], maxlen);
    } else {
      assert ops + more == ops;
      var init := ops[..|ops| - 1];
      if ops[|ops| - 1] != Close {
        assert ops == init + [ops[|ops| - 1]];
        ClosedForGood(init, [], maxlen);
        assert init + [] == init;
      }
    }
  }

  // ---------------------------------------------------------------------------
  // The provider object
  // ---------------------------------------------------------------------------

  class MemoryEventProvider {
    const buffer: Buffer
    var published: seq<Message>
    var handler: Option<Handler>
    var closed: bool

    function View(): Bus
      reads this, buffer
    {
      Bus(published, handler, closed, buffer.View())
    }

    constructor (buffer: Buffer)
      ensures this.buffer == buffer && published == [] && handler == None && !closed
    {
      this.buffer := buffer;
      published, handler, closed := [], None, false;
    }

    /** `raises` says whether the handler, if it wants the topic, raises instead of consuming. */
    method Publish(m: Message, now: string, raises: bool) returns (ok: bool)
      modifies this, buffer
      ensures ok <==> !old(closed) && !(raises && Heard(old(handler), m.topic))
      ensures published == old(published) + (if old(closed) then [] else [m])
      ensures handler == old(handler) && closed == old(closed)
      ensures View() == if raises && Heard(old(handler), m.topic) then LogOnly(old(View()), m)
                        else PublishTo(old(View()), buffer.maxlen, m, now)
    {
      if closed {
        return false;
      }
      published := published + [m];
      if Heard(handler, m.topic) {
        if raises {
          return false;
        }
        buffer.Append(m.topic, m.event, "consumed", now);
      }
      ok := true;
    }

    method Subscribe(h: Handler, now: string) returns (ok: bool)
      modifies this, buffer
      ensures ok == !old(closed)
      ensures View() == SubscribeTo(old(View()), buffer.maxlen, h, now)
      ensures handler == (if ok then Some(h) else old(handler)) && published == old(published) && closed == old(closed)
    {
      if closed {
        return false;
      }
      handler := Some(h);
      ghost var before := buffer.View();
      for i := 0 to |published|
        invariant published == old(published) && handler == Some(h) && !closed
        invariant buffer.View() == Replay(before, buffer.maxlen, published[..i], h, now)
      {
        assert published[..i + 1][..i] == published[..i];
        if Wants(h, published[i].topic) {
          buffer.Append(published[i].topic, published[i].event, "consumed", now);
        }
      }
      assert published[..|published|] == published;
      ok := true;
    }

    method Close()
      modifies this
      ensures View() == CloseBus(old(View()))
      ensures closed && handler == None && published == old(published)
    {
      closed, handler := true, None;
    }
  }
}
