/** What travels: each message on the bus, and each row of the ring, told by the outbox row that it comes from. */
module OutboxMessages {
  import opened Common
  import opened BusBuffer
  import opened EventProvider
  import opened Outbox

  /** The message says what the row says. */
  predicate Tells(m: Message, row: OutRow) {
    m.topic == row.topic && m.event.id == row.id && m.event.kind == row.kind && m.event.payload == row.payload
  }

  /** How many of the first n attempts reached the log. */
  function ReachedBefore(outcomes: seq<Outcome>, n: nat): nat
    requires n <= |outcomes|
  {
    if n == 0 then 0 else ReachedBefore(outcomes, n - 1) + if outcomes[n - 1] == RaisedFirst then 0 else 1
  }

  // ---------------------------------------------------------------------------
  // The log
  // ---------------------------------------------------------------------------

  lemma {:induction false} ReachedAt(rows: seq<OutRow>, outcomes: seq<Outcome>, k: nat)
    requires |outcomes| <= |rows|
    ensures |ReachedLog(rows, outcomes)| == ReachedBefore(outcomes, |outcomes|)
    ensures k < |outcomes| && outcomes[k] != RaisedFirst ==>
              ReachedBefore(outcomes, k) < |ReachedLog(rows, outcomes)|
              && Tells(ReachedLog(rows, outcomes)[ReachedBefore(outcomes, k)], rows[k])
    decreases |outcomes|
  {
    if outcomes != [] {
      var n := |outcomes| - 1;
      ReachedAt(rows, outcomes[..n], k);
      ReachedOfPrefix(outcomes, n, n);
      if k < n {
        ReachedOfPrefix(outcomes, n, k);
      }
    }
  }

  lemma {:induction false} ReachedOfPrefix(outcomes: seq<Outcome>, m: nat, n: nat)
    requires n <= m <= |outcomes|
    ensures ReachedBefore(outcomes[..m], n) == ReachedBefore(outcomes, n)
  {
    if n > 0 {
      ReachedOfPrefix(outcomes, m, n - 1);
    }
  }

  /** Over any run of a single drainer the log has one message for each row whose publish reached it, in the
      order of the rows, and the message carries that row's topic, id, kind and payload. */
  lemma MessageCarriesRow(ops: seq<BusOp>, maxlen: nat, k: nat)
    requires k < |FeedRun(ops, maxlen).outcomes| && FeedRun(ops, maxlen).outcomes[k] != RaisedFirst
    ensures var f := FeedRun(ops, maxlen);
            && |f.outcomes| <= |f.table.rows| && |f.bus.published| == ReachedBefore(f.outcomes, |f.outcomes|)
            && ReachedBefore(f.outcomes, k) < |f.bus.published|
            && Tells(f.bus.published[ReachedBefore(f.outcomes, k)], f.table.rows[k])
  {
    var f := FeedRun(ops, maxlen);
    var _ := PublishLogFollowsCreation(ops, maxlen);
    ReachedAt(f.table.rows, f.outcomes, k);
    var i := ReachedBefore(f.outcomes, k);
    assert TimelessLog(f.bus.published)[i] == Timeless(f.bus.published[i]);
  }

  /** The rows that a run stages, as they are staged. */
  function Staged(ops: seq<BusOp>): seq<OutRow> {
    if ops == [] then []
    else Staged(ops[..|ops| - 1]) + if ops[|ops| - 1].AddRow? then [ops[|ops| - 1].row] else []
  }

  /** The rows of the table are those that were staged, in that order; only their statuses change, to what
      the attempts so far say. */
  lemma {:induction false} RowsAreStaged(ops: seq<BusOp>, maxlen: nat)
    ensures var rows := FeedRun(ops, maxlen).table.rows;
            |rows| == |Staged(ops)| && forall i :: 0 <= i < |rows| ==> rows[i] == Staged(ops)[i].(status := rows[i].status)
  {
    if ops != [] {
      var init, last := ops[..|ops| - 1], ops[|ops| - 1];
      RowsAreStaged(init, maxlen);
      if last.DrainTo? {
        DrainKeepsRows(FeedRun(init, maxlen), maxlen, last.limit, last.faults, last.at);
      }
    }
  }

  lemma DrainKeepsRows(f: Feed, maxlen: nat, limit: nat, faults: nat -> Outcome, at: string)
    ensures var rows := DrainFeed(f, maxlen, limit, faults, at).table.rows;
            |rows| == |f.table.rows| && forall i :: 0 <= i < |rows| ==> rows[i] == f.table.rows[i].(status := rows[i].status)
  {
    PickedArePending(f.table.rows, 0, limit);
    var batch := Pick(f.table.rows, 0, limit);
    AttemptKeepsRows(f.table, batch, Raising(Outcomes(f.bus.closed, f.bus.handler, f.table.rows, batch, faults)));
  }

  lemma {:induction false} AttemptKeepsRows(t: Table, batch: seq<nat>, raising: nat -> bool)
    requires InRange(batch, |t.rows|)
    ensures var rows := Attempt(t, batch, raising).rows;
            forall i :: 0 <= i < |rows| ==> rows[i] == t.rows[i].(status := rows[i].status)
  {
    if batch != [] {
      AttemptKeepsRows(t, batch[..|batch| - 1], raising);
    }
  }

  /** A row is sent exactly if its publish did not raise, and an error exactly if it did. */
  lemma StatusTells(ops: seq<BusOp>, maxlen: nat, i: nat)
    requires i < |FeedRun(ops, maxlen).table.rows|
    ensures var f := FeedRun(ops, maxlen);
            f.table.rows[i].status == if i >= |f.outcomes| then Pending else if f.outcomes[i] == Delivered then Sent else Failed
  {
    var k := PublishLogFollowsCreation(ops, maxlen);
  }

  // ---------------------------------------------------------------------------
  // The ring
  // ---------------------------------------------------------------------------

  /** The ring's row says what the outbox row says. */
  predicate Shows(x: Row, row: OutRow) {
    && x.id == row.id && x.kind == (if row.kind == "" then "unknown" else row.kind) && x.topic == row.topic
    && x.event.payload == row.payload && x.source == "consumed"
  }

  /** The ids of n rows from k on are given, differ, and are not in the ring. */
  predicate FreshIds(ring: Ring, rows: seq<OutRow>, k: nat, n: nat)
    requires k + n <= |rows|
  {
    && (forall i :: k <= i < k + n ==> rows[i].id != "" && forall r :: 0 <= r < |ring.rows| ==> ring.rows[r].id != rows[i].id)
    && (forall i, j :: k <= i < j < k + n ==> rows[i].id != rows[j].id)
  }

  /** Publishing a row with a fresh id, and feeding it, adds its row to the ring once. */
  lemma FeedAddsOne(bus: Bus, maxlen: nat, row: OutRow, at: string)
    requires !bus.closed && maxlen > 0 && row.id != "" && !Holds(bus.ring.rows, row.id)
    ensures var ring := PublishAndFeed(bus, maxlen, Envelope(row, at), at).ring;
            && ring.totalSeen == bus.ring.totalSeen + 1
            && ring.rows != [] && Shows(ring.rows[0], row)
            && ring.rows == ([ring.rows[0]] + bus.ring.rows)[..Min(|bus.ring.rows| + 1, maxlen)]
  {
    var m := Envelope(row, at);
    var x := MakeRow(m.topic, m.event, "consumed", bus.ring.totalSeen, at);
    var once := Consume(bus.ring, maxlen, m, at);
    assert once.rows == PushLeft(bus.ring.rows, x, maxlen) && once.rows[0] == x;
    assert Holds(once.rows, row.id);
  }

  /** After attempting n rows from k on: one ring row for each that was delivered, the newest first, and no
      id that was not there before. */
  ghost predicate RingTells(before: Bus, after: Bus, maxlen: nat, rows: seq<OutRow>, k: nat, n: nat, outcomes: nat -> Outcome)
    requires k + n <= |rows|
  {
    && after.closed == before.closed
    && after.ring.totalSeen == before.ring.totalSeen + Deliveries(outcomes, n)
    && (forall r :: 0 <= r < |after.ring.rows| ==>
          Holds(before.ring.rows, after.ring.rows[r].id) || exists i :: k <= i < k + n && rows[i].id == after.ring.rows[r].id)
    && (forall i: nat :: i < n && outcomes(i) == Delivered && Later(outcomes, i, n) < maxlen ==>
          Later(outcomes, i, n) < |after.ring.rows| && Shows(after.ring.rows[Later(outcomes, i, n)], rows[k + i]))
  }

  /** How many of the attempts after i and before n are delivered. */
  function Later(outcomes: nat -> Outcome, i: nat, n: nat): nat
    requires i < n
  {
    if i + 1 == n then 0 else Later(outcomes, i, n - 1) + if outcomes(n - 1) == Delivered then 1 else 0
  }

  lemma RingOneMore(before: Bus, mid: Bus, maxlen: nat, rows: seq<OutRow>, k: nat, n: nat, outcomes: nat -> Outcome, at: string)
    requires k + n < |rows| && maxlen > 0 && FreshIds(before.ring, rows, k, n + 1)
    requires before.closed ==> outcomes(n) == RaisedFirst
    requires RingTells(before, mid, maxlen, rows, k, n, outcomes)
    ensures RingTells(before, FeedOne(mid, maxlen, Envelope(rows[k + n], at), outcomes(n), at), maxlen, rows, k, n + 1, outcomes)
  {
    var after := FeedOne(mid, maxlen, Envelope(rows[k + n], at), outcomes(n), at);
    if outcomes(n) == Delivered {
      assert !Holds(mid.ring.rows, rows[k + n].id);
      FeedAddsOne(mid, maxlen, rows[k + n], at);
      RingPushes(before, mid, after, maxlen, rows, k, n, outcomes);
    } else {
      assert after.ring == mid.ring;
      forall i: nat | i < n ensures Later(outcomes, i, n + 1) == Later(outcomes, i, n) {
      }
    }
  }

  lemma RingPushes(before: Bus, mid: Bus, after: Bus, maxlen: nat, rows: seq<OutRow>, k: nat, n: nat, outcomes: nat -> Outcome)
    requires k + n < |rows| && maxlen > 0 && outcomes(n) == Delivered
    requires RingTells(before, mid, maxlen, rows, k, n, outcomes)
    requires after.closed == mid.closed && after.ring.totalSeen == mid.ring.totalSeen + 1
    requires after.ring.rows != [] && Shows(after.ring.rows[0], rows[k + n])
    requires after.ring.rows == ([after.ring.rows[0]] + mid.ring.rows)[..Min(|mid.ring.rows| + 1, maxlen)]
    ensures RingTells(before, after, maxlen, rows, k, n + 1, outcomes)
  {
    forall r | 0 <= r < |after.ring.rows|
      ensures Holds(before.ring.rows, after.ring.rows[r].id)
              || exists i :: k <= i < k + n + 1 && rows[i].id == after.ring.rows[r].id
    {
      if r > 0 {
        assert after.ring.rows[r] == mid.ring.rows[r - 1];
      } else {
        assert rows[k + n].id == after.ring.rows[0].id;
      }
    }
    forall i: nat | i < n + 1 && outcomes(i) == Delivered && Later(outcomes, i, n + 1) < maxlen
      ensures Later(outcomes, i, n + 1) < |after.ring.rows| && Shows(after.ring.rows[Later(outcomes, i, n + 1)], rows[k + i])
    {
      if i < n {
        assert Later(outcomes, i, n + 1) == Later(outcomes, i, n) + 1;
        assert after.ring.rows[Later(outcomes, i, n) + 1] == mid.ring.rows[Later(outcomes, i, n)];
      }
    }
  }

  lemma {:induction false} BatchShows(bus: Bus, maxlen: nat, rows: seq<OutRow>, k: nat, n: nat, outcomes: nat -> Outcome, at: string)
    requires k + n <= |rows| && maxlen > 0 && FreshIds(bus.ring, rows, k, n)
    requires bus.closed ==> forall i: nat :: outcomes(i) == RaisedFirst
    ensures RingTells(bus, FeedBatch(bus, maxlen, rows, Upward(k, n), outcomes, at), maxlen, rows, k, n, outcomes)
  {
    if n == 0 {
      assert Upward(k, 0) == [];
    } else {
      BatchShows(bus, maxlen, rows, k, n - 1, outcomes, at);
      assert Upward(k, n)[..n - 1] == Upward(k, n - 1);
      RingOneMore(bus, FeedBatch(bus, maxlen, rows, Upward(k, n - 1), outcomes, at), maxlen, rows, k, n - 1, outcomes, at);
    }
  }

  /** A drain of rows with fresh ids adds one ring row for each row that it delivers, with that row's id, kind,
      topic and payload, the newest first. */
  lemma DrainShowsRows(f: Feed, maxlen: nat, k: nat, limit: nat, faults: nat -> Outcome, at: string)
    requires Settled(f.table, k) && maxlen > 0
    requires FreshIds(f.bus.ring, f.table.rows, k, Min(limit, |f.table.rows| - k))
    ensures var n := Min(limit, |f.table.rows| - k);
            RingTells(f.bus, DrainFeed(f, maxlen, limit, faults, at).bus, maxlen, f.table.rows, k, n,
                      Outcomes(f.bus.closed, f.bus.handler, f.table.rows, Upward(k, n), faults))
  {
    var n, outcomes := DrainAttempts(f, maxlen, k, limit, faults, at);
    BatchShows(f.bus, maxlen, f.table.rows, k, n, outcomes, at);
  }

  /** What a publish comes to: refused when closed; raised after the log only by a handler of the topic;
      otherwise as the fault says. */
  lemma OutcomesAre(closed: bool, handler: Option<Handler>, topic: string, fault: Outcome)
    ensures var outcome := OutcomeOf(closed, handler, topic, fault);
            && (outcome == Delivered <==>
                  !closed && (fault == Delivered
                              || (fault == RaisedAfter
                                  && !(handler.Some? && (handler.value.topics.None? || topic in handler.value.topics.value)))))
            && (outcome == RaisedFirst <==> closed || fault == RaisedFirst)
  {
  }
}
