/** The transactional outbox: rows staged with domain changes, published by a drain. */
module Outbox {
  import opened Common
  import opened BusBuffer
  import opened EventProvider

  datatype Status = Pending | Sent | Failed

  /** A publish that raises may or may not have reached the log first. */
  datatype Outcome = Delivered | RaisedFirst | RaisedAfter

  datatype OutRow = OutRow(id: string, kind: string, topic: string, payload: nat, status: Status)

  /** The envelope carries the row's own id; `at` is the clock when it is built. */
  function Envelope(row: OutRow, at: string): Message {
    Message(row.topic, Event(row.id, row.kind, at, row.payload))
  }

  function Stage(id: string, kind: string, topic: string, payload: nat): OutRow {
    OutRow(id, kind, topic, payload, Pending)
  }

  /** `where status = pending order by created_at limit n`: indices, oldest first. */
  function Pick(rows: seq<OutRow>, from: nat, limit: nat): seq<nat>
    decreases |rows| - from
  {
    if limit == 0 || from >= |rows| then []
    else if rows[from].status == Pending then [from] + Pick(rows, from + 1, limit - 1)
    else Pick(rows, from + 1, limit)
  }

  lemma {:induction false} PickedArePending(rows: seq<OutRow>, from: nat, limit: nat)
    ensures |Pick(rows, from, limit)| <= limit
    ensures forall i :: 0 <= i < |Pick(rows, from, limit)| ==>
              from <= Pick(rows, from, limit)[i] < |rows| && rows[Pick(rows, from, limit)[i]].status == Pending
    ensures forall i, j :: 0 <= i < j < |Pick(rows, from, limit)| ==>
              Pick(rows, from, limit)[i] < Pick(rows, from, limit)[j]
    decreases |rows| - from
  {
    if limit != 0 && from < |rows| {
      if rows[from].status == Pending {
        PickedArePending(rows, from + 1, limit - 1);
      } else {
        PickedArePending(rows, from + 1, limit);
      }
    }
  }

  // ---------------------------------------------------------------------------
  // One drainer at a time
  // ---------------------------------------------------------------------------

  /** The table, and the ids carried by every publish attempt, in order. */
  datatype Table = Table(rows: seq<OutRow>, attempts: seq<string>)

  /** Attempt the batch in order; attempt i raises exactly when `faults(i)`. */
  function Attempt(t: Table, batch: seq<nat>, faults: nat -> bool): (t': Table)
    requires InRange(batch, |t.rows|)
    ensures |t'.rows| == |t.rows|
  {
    if batch == [] then t
    else
      var before := Attempt(t, batch[..|batch| - 1], faults);
      var k := batch[|batch| - 1];
      Table(before.rows[k := before.rows[k].(status := if faults(|batch| - 1) then Failed else Sent)],
            before.attempts + [before.rows[k].id])
  }

  function DrainOnce(t: Table, limit: nat, faults: nat -> bool): Table {
    PickedArePending(t.rows, 0, limit);
    Attempt(t, Pick(t.rows, 0, limit), faults)
  }

  function EnqueueRow(t: Table, row: OutRow): Table {
    t.(rows := t.rows + [row])
  }

  function Ids(rows: seq<OutRow>): seq<string> {
    seq(|rows|, i requires 0 <= i < |rows| => rows[i].id)
  }

  /** The first k rows are settled, the rest are pending, and the attempts so far carried exactly the
      ids of the settled rows, in creation order, each once. */
  ghost predicate Settled(t: Table, k: nat) {
    && k <= |t.rows|
    && (forall i :: 0 <= i < |t.rows| ==> (t.rows[i].status == Pending <==> k <= i))
    && t.attempts == Ids(t.rows[..k])
  }

  function Upward(from: nat, n: nat): seq<nat> {
    seq(n, i requires 0 <= i => from + i)
  }

  lemma UpwardFirst(from: nat, n: nat)
    requires n > 0
    ensures Upward(from, n) == [from] + Upward(from + 1, n - 1)
  {
  }

  /** Settled rows are skipped. */
  lemma {:induction false} PickSkips(rows: seq<OutRow>, k: nat, from: nat, limit: nat)
    requires from <= k <= |rows| && forall i :: 0 <= i < k ==> rows[i].status != Pending
    ensures Pick(rows, from, limit) == Pick(rows, k, limit)
    decreases k - from
  {
    if from < k {
      PickSkips(rows, k, from + 1, limit);
      assert rows[from].status != Pending;
    }
  }

  /** Pending ones are picked in a row. */
  lemma {:induction false} PickTakes(rows: seq<OutRow>, from: nat, limit: nat)
    requires from <= |rows| && forall i :: from <= i < |rows| ==> rows[i].status == Pending
    ensures Pick(rows, from, limit) == Upward(from, Min(limit, |rows| - from))
    decreases |rows| - from
  {
    if limit != 0 && from < |rows| {
      assert rows[from].status == Pending;
      PickTakes(rows, from + 1, limit - 1);
      UpwardFirst(from, Min(limit, |rows| - from));
    }
  }

  lemma DrainPicks(t: Table, k: nat, limit: nat)
    requires Settled(t, k)
    ensures Pick(t.rows, 0, limit) == Upward(k, Min(limit, |t.rows| - k))
  {
    PickSkips(t.rows, k, 0, limit);
    PickTakes(t.rows, k, limit);
  }

  /** Attempting n consecutive rows rewrites exactly their statuses. */
  lemma {:induction false} AttemptsRow(t: Table, k: nat, n: nat, faults: nat -> bool, i: nat)
    requires k + n <= |t.rows| && i < |t.rows|
    ensures Attempt(t, Upward(k, n), faults).rows[i]
            == if k <= i < k + n then t.rows[i].(status := if faults(i - k) then Failed else Sent) else t.rows[i]
  {
    if n > 0 {
      assert Upward(k, n)[..n - 1] == Upward(k, n - 1);
      AttemptsRow(t, k, n - 1, faults, i);
    }
  }

  /** ... and attempts their ids in order. */
  lemma {:induction false} AttemptsIds(t: Table, k: nat, n: nat, faults: nat -> bool)
    requires k + n <= |t.rows|
    ensures Attempt(t, Upward(k, n), faults).attempts == t.attempts + Ids(t.rows[k..k + n])
  {
    if n > 0 {
      assert Upward(k, n)[..n - 1] == Upward(k, n - 1);
      AttemptsIds(t, k, n - 1, faults);
      AttemptsRow(t, k, n - 1, faults, k + n - 1);
      assert Ids(t.rows[k..k + n]) == Ids(t.rows[k..k + n - 1]) + [t.rows[k + n - 1].id];
    }
  }

  lemma {:induction false} AttemptSettles(t: Table, k: nat, n: nat, faults: nat -> bool)
    requires Settled(t, k) && k + n <= |t.rows|
    ensures Settled(Attempt(t, Upward(k, n), faults), k + n)
    ensures Ids(Attempt(t, Upward(k, n), faults).rows) == Ids(t.rows)
    ensures forall i :: 0 <= i < |t.rows| && !(k <= i < k + n) ==>
              Attempt(t, Upward(k, n), faults).rows[i] == t.rows[i]
  {
    var after := Attempt(t, Upward(k, n), faults);
    forall i: nat | i < |t.rows|
      ensures after.rows[i].id == t.rows[i].id
      ensures after.rows[i].status == Pending <==> k + n <= i
      ensures !(k <= i < k + n) ==> after.rows[i] == t.rows[i]
    {
      AttemptsRow(t, k, n, faults, i);
    }
    assert Ids(after.rows) == Ids(t.rows);
    AttemptsIds(t, k, n, faults);
    IdsUpTo(after.rows, k + n);
    IdsUpTo(t.rows, k + n);
    IdsSplit(t.rows, k, n);
  }

  lemma IdsUpTo(rows: seq<OutRow>, n: nat)
    requires n <= |rows|
    ensures Ids(rows[..n]) == Ids(rows)[..n]
  {
  }

  lemma IdsSplit(rows: seq<OutRow>, k: nat, n: nat)
    requires k + n <= |rows|
    ensures Ids(rows[..k + n]) == Ids(rows[..k]) + Ids(rows[k..k + n])
  {
  }

  /** One crash-free drain attempts the oldest min(limit, pending) rows, in order, and settles them
      all: none of them is left pending, and nothing else changes. */
  lemma {:induction false} DrainSettlesOldest(t: Table, k: nat, limit: nat, faults: nat -> bool)
    requires Settled(t, k)
    ensures var n := Min(limit, |t.rows| - k);
            && Settled(DrainOnce(t, limit, faults), k + n)
            && |Pick(t.rows, 0, limit)| == n
            && (forall i :: 0 <= i < |t.rows| && !(k <= i < k + n) ==>
                  DrainOnce(t, limit, faults).rows[i] == t.rows[i])
            && Ids(DrainOnce(t, limit, faults).rows) == Ids(t.rows)
  {
    DrainPicks(t, k, limit);
    AttemptSettles(t, k, Min(limit, |t.rows| - k), faults);
  }

  datatype Op = Add(row: OutRow) | Drain(limit: nat, faults: nat -> bool)

  function Run(ops: seq<Op>): Table {
    if ops == [] then Table([], [])
    else
      var t := Run(ops[..|ops| - 1]);
      match ops[|ops| - 1]
      case Add(row) => EnqueueRow(t, row.(status := Pending))
      case Drain(limit, faults) => DrainOnce(t, limit, faults)
  }

  /** How many rows a run has settled. */
  function SettledBy(ops: seq<Op>): nat {
    if ops == [] then 0
    else
      var before := SettledBy(ops[..|ops| - 1]);
      match ops[|ops| - 1]
      case Add(_) => before
      case Drain(limit, _) => Min(before + limit, |Run(ops).rows|)
  }

  /** With one drainer that never crashes, the attempts of a whole run carry the ids of the settled
      rows in creation order, each exactly once. */
  lemma {:induction false} AttemptsFollowCreation(ops: seq<Op>)
    ensures Settled(Run(ops), SettledBy(ops))
  {
    if ops == [] {
      assert Ids(Run(ops).rows[..0]) == [];
    } else {
      var init, last := ops[..|ops| - 1], ops[|ops| - 1];
      AttemptsFollowCreation(init);
      var t, k := Run(init), SettledBy(init);
      match last {
        case Add(row) =>
          assert Run(ops).rows[..k] == t.rows[..k];
        case Drain(limit, faults) =>
          DrainSettlesOldest(t, k, limit, faults);
      }
    }
  }

  function Drains(t: Table, limit: nat, faults: nat -> (nat -> bool), j: nat): Table {
    if j == 0 then t else DrainOnce(Drains(t, limit, faults, j - 1), limit, faults(j - 1))
  }

  /** With no new rows, j drains settle the oldest min(j * limit, pending) rows. */
  lemma {:induction false} DrainsEmptyTheOutbox(t: Table, k: nat, limit: nat, faults: nat -> (nat -> bool), j: nat)
    requires Settled(t, k)
    ensures Settled(Drains(t, limit, faults, j), Min(k + j * limit, |t.rows|))
    ensures |Drains(t, limit, faults, j).rows| == |t.rows|
  {
    if j > 0 {
      DrainsEmptyTheOutbox(t, k, limit, faults, j - 1);
      var before := Drains(t, limit, faults, j - 1);
      var swept := (j - 1) * limit;
      assert j * limit == swept + limit;
      DrainSettlesOldest(before, Min(k + swept, |t.rows|), limit, faults(j - 1));
      MinAdvances(k + swept, limit, |t.rows|);
    }
  }

  /** ... so no row is pending after j of them exactly if j * limit is at least what was pending. */
  lemma EmptyAfterIff(t: Table, k: nat, limit: nat, faults: nat -> (nat -> bool), j: nat)
    requires Settled(t, k)
    ensures (forall row :: row in Drains(t, limit, faults, j).rows ==> row.status != Pending) <==> |t.rows| - k <= j * limit
  {
    DrainsEmptyTheOutbox(t, k, limit, faults, j);
    var rows, m := Drains(t, limit, faults, j).rows, Min(k + j * limit, |t.rows|);
    if m < |t.rows| {
      assert rows[m] in rows && rows[m].status == Pending;
    }
  }

  lemma MinAdvances(a: nat, limit: nat, n: nat)
    ensures Min(a, n) + Min(limit, n - Min(a, n)) == Min(a + limit, n)
  {
  }

  // ---------------------------------------------------------------------------
  // Overlapping drainers, crashes before commit
  // ---------------------------------------------------------------------------

  datatype Drainer = Drainer(batch: seq<nat>, outcomes: seq<Outcome>)

  datatype World = World(
    rows: seq<OutRow>,
    attempts: seq<string>,
    published: seq<string>,
    drainers: map<nat, Drainer>)

  datatype Action =
    | Insert(row: OutRow)
    | Begin(drainer: nat, limit: nat)
    | PublishNext(drainer: nat, outcome: Outcome)
    | Commit(drainer: nat)
    | Crash(drainer: nat)

  function Mark(rows: seq<OutRow>, batch: seq<nat>, outcomes: seq<Outcome>): (rows': seq<OutRow>)
    requires InRange(batch, |rows|) && |batch| == |outcomes|
    ensures |rows'| == |rows|
  {
    if batch == [] then rows
    else
      var n := |batch| - 1;
      var before := Mark(rows, batch[..n], outcomes[..n]);
      before[batch[n] := before[batch[n]].(status := if outcomes[n] == Delivered then Sent else Failed)]
  }

  function Step(w: World, a: Action): World {
    match a
    case Insert(row) => w.(rows := w.rows + [row.(status := Pending)])
    case Begin(d, limit) =>
      if d in w.drainers then w
      else w.(drainers := w.drainers[d := Drainer(Pick(w.rows, 0, limit), [])])
    case PublishNext(d, outcome) =>
      if d in w.drainers && |w.drainers[d].outcomes| < |w.drainers[d].batch|
         && w.drainers[d].batch[|w.drainers[d].outcomes|] < |w.rows| then
        var dr := w.drainers[d];
        var id := w.rows[dr.batch[|dr.outcomes|]].id;
        World(w.rows, w.attempts + [id],
              if outcome == RaisedFirst then w.published else w.published + [id],
              w.drainers[d := dr.(outcomes := dr.outcomes + [outcome])])
      else w
    case Commit(d) =>
      if d in w.drainers && |w.drainers[d].outcomes| == |w.drainers[d].batch|
         && (forall i :: 0 <= i < |w.drainers[d].batch| ==> w.drainers[d].batch[i] < |w.rows|) then
        w.(rows := Mark(w.rows, w.drainers[d].batch, w.drainers[d].outcomes), drainers := w.drainers - {d})
      else w
    case Crash(d) => w.(drainers := w.drainers - {d})
  }

  function Exec(actions: seq<Action>): World {
    if actions == [] then World([], [], [], map[])
    else Step(Exec(actions[..|actions| - 1]), actions[|actions| - 1])
  }

  ghost predicate RowInv(w: World) {
    forall k :: 0 <= k < |w.rows| ==>
      && (w.rows[k].status != Pending ==> w.rows[k].id in w.attempts)
      && (w.rows[k].status == Sent ==> w.rows[k].id in w.published)
  }

  ghost predicate DrainerInv(w: World) {
    forall d :: d in w.drainers ==>
      && |w.drainers[d].outcomes| <= |w.drainers[d].batch|
      && InRange(w.drainers[d].batch, |w.rows|)
      && (forall i :: 0 <= i < |w.drainers[d].outcomes| ==>
            Vouched(w, w.drainers[d].batch[i], w.drainers[d].outcomes[i]))
  }

  /** An outcome is on record for a row only after an attempt carried that row's id. */
  ghost predicate Vouched(w: World, k: nat, outcome: Outcome)
    requires k < |w.rows|
  {
    w.rows[k].id in w.attempts && (outcome == Delivered ==> w.rows[k].id in w.published)
  }

  lemma {:induction false} MarkIsVouched(w: World, batch: seq<nat>, outcomes: seq<Outcome>)
    requires RowInv(w) && InRange(batch, |w.rows|) && |batch| == |outcomes|
    requires forall i :: 0 <= i < |batch| ==> Vouched(w, batch[i], outcomes[i])
    ensures RowInv(w.(rows := Mark(w.rows, batch, outcomes)))
    ensures Ids(Mark(w.rows, batch, outcomes)) == Ids(w.rows)
  {
    if batch != [] {
      var n := |batch| - 1;
      MarkIsVouched(w, batch[..n], outcomes[..n]);
      assert Ids(Mark(w.rows, batch[..n], outcomes[..n]))[batch[n]] == Ids(w.rows)[batch[n]];
    }
  }

  lemma RowsStay(w: World, a: Action)
    requires RowInv(w) && DrainerInv(w)
    ensures RowInv(Step(w, a))
    ensures |w.rows| <= |Step(w, a).rows|
    ensures forall k :: 0 <= k < |w.rows| ==> Step(w, a).rows[k].id == w.rows[k].id
  {
    if a.Commit? && Step(w, a) != w {
      MarkIsVouched(w, w.drainers[a.drainer].batch, w.drainers[a.drainer].outcomes);
      var rows := Mark(w.rows, w.drainers[a.drainer].batch, w.drainers[a.drainer].outcomes);
      forall k | 0 <= k < |w.rows|
        ensures rows[k].id == w.rows[k].id
      {
        assert Ids(rows)[k] == Ids(w.rows)[k];
      }
    }
  }

  lemma DrainersStay(w: World, a: Action)
    requires RowInv(w) && DrainerInv(w)
    ensures DrainerInv(Step(w, a))
  {
    RowsStay(w, a);
    var w' := Step(w, a);
    forall d | d in w'.drainers
      ensures && |w'.drainers[d].outcomes| <= |w'.drainers[d].batch|
              && InRange(w'.drainers[d].batch, |w'.rows|)
              && (forall i :: 0 <= i < |w'.drainers[d].outcomes| ==>
                    Vouched(w', w'.drainers[d].batch[i], w'.drainers[d].outcomes[i]))
    {
      if a.Begin? && a.drainer == d && d !in w.drainers {
        PickedArePending(w.rows, 0, a.limit);
      } else {
        assert d in w.drainers;
      }
    }
  }

  lemma {:induction false} MarksRow(rows: seq<OutRow>, batch: seq<nat>, outcomes: seq<Outcome>, k: nat)
    requires InRange(batch, |rows|) && |batch| == |outcomes| && k < |rows|
    ensures k !in batch ==> Mark(rows, batch, outcomes)[k] == rows[k]
    ensures forall i :: 0 <= i < |batch| && batch[i] == k && (forall j :: i < j < |batch| ==> batch[j] != k) ==>
              Mark(rows, batch, outcomes)[k] == rows[k].(status := if outcomes[i] == Delivered then Sent else Failed)
    decreases |batch|
  {
    if batch != [] {
      var n := |batch| - 1;
      MarksRow(rows, batch[..n], outcomes[..n], k);
      forall i | 0 <= i < |batch| && batch[i] == k && forall j :: i < j < |batch| ==> batch[j] != k
        ensures Mark(rows, batch, outcomes)[k] == rows[k].(status := if outcomes[i] == Delivered then Sent else Failed)
      {
        if i < n {
          assert batch[..n][i] == k && outcomes[..n][i] == outcomes[i];
        } else {
          MarksOnly(rows, batch[..n], outcomes[..n], k);
        }
      }
    }
  }

  lemma {:induction false} MarksOnly(rows: seq<OutRow>, batch: seq<nat>, outcomes: seq<Outcome>, k: nat)
    requires InRange(batch, |rows|) && |batch| == |outcomes| && k < |rows|
    ensures Mark(rows, batch, outcomes)[k] == rows[k].(status := Mark(rows, batch, outcomes)[k].status)
    decreases |batch|
  {
    if batch != [] {
      MarksOnly(rows, batch[..|batch| - 1], outcomes[..|batch| - 1], k);
    }
  }

  /** A drainer that has attempted its whole batch settles each row of it by its last outcome, and no other. */
  lemma CommitSettles(w: World, d: nat, i: nat, k: nat)
    requires d in w.drainers && InRange(w.drainers[d].batch, |w.rows|) && k < |w.rows|
    requires var dr := w.drainers[d]; |dr.outcomes| == |dr.batch| && i < |dr.batch|
    ensures var dr, w' := w.drainers[d], Step(w, Commit(d));
            && |w'.rows| == |w.rows| && d !in w'.drainers
            && (k !in dr.batch ==> w'.rows[k] == w.rows[k])
            && (dr.batch[i] == k && (forall j :: i < j < |dr.batch| ==> dr.batch[j] != k) ==>
                  w'.rows[k] == w.rows[k].(status := if dr.outcomes[i] == Delivered then Sent else Failed))
  {
    var dr := w.drainers[d];
    assert Step(w, Commit(d)) == w.(rows := Mark(w.rows, dr.batch, dr.outcomes), drainers := w.drainers - {d});
    MarksRow(w.rows, dr.batch, dr.outcomes, k);
  }

  /** However drainers overlap and crash, no row is lost: a row that is no longer pending had a publish
      attempt carrying its own id, and a row marked sent is in the publish log. */
  lemma {:induction false} OutboxLosesNothing(actions: seq<Action>)
    ensures RowInv(Exec(actions)) && DrainerInv(Exec(actions))
  {
    if actions != [] {
      var w := Exec(actions[..|actions| - 1]);
      OutboxLosesNothing(actions[..|actions| - 1]);
      RowsStay(w, actions[|actions| - 1]);
      DrainersStay(w, actions[|actions| - 1]);
    }
  }

  /** One row is inserted and one drainer has read it. */
  lemma OneRowRead(row: OutRow)
    ensures Exec([Insert(row), Begin(0, 1)])
            == World([row.(status := Pending)], [], [], map[0 := Drainer([0], [])])
  {
    var staged := row.(status := Pending);
    ExecMore([], Insert(row));
    assert [] + [Insert(row)] == [Insert(row)] && [] + [staged] == [staged];
    ExecMore([Insert(row)], Begin(0, 1));
    assert [Insert(row)] + [Begin(0, 1)] == [Insert(row), Begin(0, 1)];
    assert Pick([staged], 0, 1) == [0];
  }

  lemma OverlapRepeats(row: OutRow)
    ensures Exec([Insert(row), Begin(0, 1), Begin(1, 1), PublishNext(0, Delivered), PublishNext(1, Delivered)])
              .published == [row.id, row.id]
  {
    var staged, idle := row.(status := Pending), Drainer([0], []);
    OneRowRead(row);
    var a2 := [Insert(row), Begin(0, 1)];
    var a3 := a2 + [Begin(1, 1)];
    ExecMore(a2, Begin(1, 1));
    assert Pick([staged], 0, 1) == [0];
    assert Exec(a3) == World([staged], [], [], map[0 := idle, 1 := idle]);
    var a4 := a3 + [PublishNext(0, Delivered)];
    ExecMore(a3, PublishNext(0, Delivered));
    assert Exec(a4).published == [row.id] && Exec(a4).drainers[1] == idle;
    ExecMore(a4, PublishNext(1, Delivered));
    assert a4 + [PublishNext(1, Delivered)]
           == [Insert(row), Begin(0, 1), Begin(1, 1), PublishNext(0, Delivered), PublishNext(1, Delivered)];
  }

  lemma CrashKeepsPending(row: OutRow)
    ensures var w := Exec([Insert(row), Begin(0, 1), PublishNext(0, Delivered), Crash(0)]);
            w.rows == [row.(status := Pending)] && w.published == [row.id]
  {
    OneRowRead(row);
    var a2 := [Insert(row), Begin(0, 1)];
    var a3 := a2 + [PublishNext(0, Delivered)];
    ExecMore(a2, PublishNext(0, Delivered));
    assert Exec(a3).rows == [row.(status := Pending)] && Exec(a3).published == [row.id];
    ExecMore(a3, Crash(0));
    assert a3 + [Crash(0)] == [Insert(row), Begin(0, 1), PublishNext(0, Delivered), Crash(0)];
  }

  /** Overlap and crashes cost repetition, not loss: two drainers that read the same batch publish one
      row twice, and a drainer that crashes before its commit leaves its row pending. */
  lemma OverlapRepeatsAndCrashKeepsPending(row: OutRow)
    ensures Exec([Insert(row), Begin(0, 1), Begin(1, 1), PublishNext(0, Delivered), PublishNext(1, Delivered)])
              .published == [row.id, row.id]
    ensures var w := Exec([Insert(row), Begin(0, 1), PublishNext(0, Delivered), Crash(0)]);
            w.rows == [row.(status := Pending)] && w.published == [row.id]
  {
    OverlapRepeats(row);
    CrashKeepsPending(row);
  }

  lemma ExecMore(actions: seq<Action>, a: Action)
    ensures Exec(actions + [a]) == Step(Exec(actions), a)
  {
    assert (actions + [a])[..|actions|] == actions;
  }

  // ---------------------------------------------------------------------------
  // The drain itself, against the in-process provider
  // ---------------------------------------------------------------------------

  /** What a publish comes to when `fault` is what goes wrong: a closed provider refuses, and only a
      handler that wants the topic can raise after the log. */
  function OutcomeOf(closed: bool, handler: Option<Handler>, topic: string, fault: Outcome): Outcome {
    if closed then RaisedFirst
    else if fault == RaisedAfter && !Heard(handler, topic) then Delivered
    else fault
  }

  /** The outcomes of a batch. */
  function Outcomes(closed: bool, handler: Option<Handler>, rows: seq<OutRow>, batch: seq<nat>, faults: nat -> Outcome): nat -> Outcome
    requires InRange(batch, |rows|)
  {
    (i: nat) => if i < |batch| then OutcomeOf(closed, handler, rows[batch[i]].topic, faults(i)) else RaisedFirst
  }

  function Raising(outcomes: nat -> Outcome): nat -> bool {
    (i: nat) => outcomes(i) != Delivered
  }

  /** The provider after one attempt: what is delivered is published and fed. */
  function FeedOne(bus: Bus, maxlen: nat, m: Message, outcome: Outcome, at: string): Bus {
    match outcome
    case Delivered => PublishAndFeed(bus, maxlen, m, at)
    case RaisedFirst => bus
    case RaisedAfter => LogOnly(bus, m)
  }

  function FeedBatch(bus: Bus, maxlen: nat, rows: seq<OutRow>, batch: seq<nat>, outcomes: nat -> Outcome, at: string): Bus
    requires InRange(batch, |rows|)
  {
    if batch == [] then bus
    else
      var n := |batch| - 1;
      FeedOne(FeedBatch(bus, maxlen, rows, batch[..n], outcomes, at), maxlen, Envelope(rows[batch[n]], at), outcomes(n), at)
  }

  /** How many of the first n attempts are delivered. */
  function Deliveries(outcomes: nat -> Outcome, n: nat): nat {
    if n == 0 then 0 else Deliveries(outcomes, n - 1) + if outcomes(n - 1) == Delivered then 1 else 0
  }

  lemma OneMoreAttempt(t: Table, bus: Bus, maxlen: nat, batch: seq<nat>, outcomes: nat -> Outcome, at: string, i: nat)
    requires InRange(batch, |t.rows|) && i < |batch|
    ensures var before, k := Attempt(t, batch[..i], Raising(outcomes)), batch[i];
            Attempt(t, batch[..i + 1], Raising(outcomes))
            == Table(before.rows[k := before.rows[k].(status := if outcomes(i) == Delivered then Sent else Failed)],
                     before.attempts + [before.rows[k].id])
    ensures FeedBatch(bus, maxlen, t.rows, batch[..i + 1], outcomes, at)
            == FeedOne(FeedBatch(bus, maxlen, t.rows, batch[..i], outcomes, at), maxlen,
                       Envelope(t.rows[batch[i]], at), outcomes(i), at)
  {
    assert batch[..i + 1][..i] == batch[..i];
  }

  // What reaches the publish log

  /** The table and the bus of a single drainer, and how each attempt so far went. */
  datatype Feed = Feed(table: Table, bus: Bus, outcomes: seq<Outcome>)

  datatype BusOp =
    | AddRow(row: OutRow)
    | DrainTo(limit: nat, faults: nat -> Outcome, at: string)
    | SubscribeAt(handler: Handler, at: string)
    | Close

  function First(outcomes: nat -> Outcome, n: nat): seq<Outcome> {
    seq(n, i requires 0 <= i => outcomes(i))
  }

  function DrainFeed(f: Feed, maxlen: nat, limit: nat, faults: nat -> Outcome, at: string): Feed {
    PickedArePending(f.table.rows, 0, limit);
    var batch := Pick(f.table.rows, 0, limit);
    var outcomes := Outcomes(f.bus.closed, f.bus.handler, f.table.rows, batch, faults);
    Feed(DrainOnce(f.table, limit, Raising(outcomes)),
         FeedBatch(f.bus, maxlen, f.table.rows, batch, outcomes, at),
         f.outcomes + First(outcomes, |batch|))
  }

  function FeedStep(f: Feed, maxlen: nat, op: BusOp): Feed {
    match op
    case AddRow(row) => f.(table := EnqueueRow(f.table, row.(status := Pending)))
    case DrainTo(limit, faults, at) => DrainFeed(f, maxlen, limit, faults, at)
    case SubscribeAt(handler, at) => f.(bus := SubscribeTo(f.bus, maxlen, handler, at))
    case Close => f.(bus := CloseBus(f.bus))
  }

  function FeedRun(ops: seq<BusOp>, maxlen: nat): Feed {
    if ops == [] then Feed(Table([], []), Bus([], None, false, EMPTY), [])
    else FeedStep(FeedRun(ops[..|ops| - 1], maxlen), maxlen, ops[|ops| - 1])
  }

  /** A message without the time at which its envelope was built. */
  function Timeless(m: Message): Message {
    Message(m.topic, Event(m.event.id, m.event.kind, "", m.event.payload))
  }

  function TimelessLog(log: seq<Message>): seq<Message> {
    seq(|log|, i requires 0 <= i < |log| => Timeless(log[i]))
  }

  /** What the attempted rows that reached the log say, oldest first. */
  function ReachedLog(rows: seq<OutRow>, outcomes: seq<Outcome>): seq<Message>
    requires |outcomes| <= |rows|
  {
    if outcomes == [] then []
    else
      var n := |outcomes| - 1;
      ReachedLog(rows, outcomes[..n]) + if outcomes[n] == RaisedFirst then [] else [Envelope(rows[n], "")]
  }

  /** What the sent ones among the first n rows say, oldest first. */
  function SentLog(rows: seq<OutRow>, n: nat): seq<Message>
    requires n <= |rows|
  {
    if n == 0 then []
    else SentLog(rows, n - 1) + if rows[n - 1].status == Sent then [Envelope(rows[n - 1], "")] else []
  }

  /** The publish log is the sent rows, in creation order, and nothing else. */
  predicate LogIsSent(f: Feed) {
    TimelessLog(f.bus.published) == SentLog(f.table.rows, |f.table.rows|)
  }

  /** The publish log is the rows whose publish reached it, in creation order. */
  predicate LogIsReached(f: Feed) {
    |f.outcomes| <= |f.table.rows| && TimelessLog(f.bus.published) == ReachedLog(f.table.rows, f.outcomes)
  }

  /** The first k rows, and no others, have been attempted, with these outcomes. */
  ghost predicate Attempted(f: Feed, k: nat) {
    && Settled(f.table, k) && |f.outcomes| == k
    && forall i :: 0 <= i < k ==> f.table.rows[i].status == (if f.outcomes[i] == Delivered then Sent else Failed)
  }

  lemma {:induction false} ReachedSame(rows: seq<OutRow>, rows': seq<OutRow>, outcomes: seq<Outcome>)
    requires |outcomes| <= |rows| && |outcomes| <= |rows'|
    requires forall i :: 0 <= i < |outcomes| ==> Envelope(rows[i], "") == Envelope(rows'[i], "")
    ensures ReachedLog(rows, outcomes) == ReachedLog(rows', outcomes)
  {
    if outcomes != [] {
      ReachedSame(rows, rows', outcomes[..|outcomes| - 1]);
    }
  }

  lemma LogsOne(bus: Bus, maxlen: nat, m: Message, outcome: Outcome, at: string)
    requires bus.closed ==> outcome == RaisedFirst
    ensures var after := FeedOne(bus, maxlen, m, outcome, at);
            && after.closed == bus.closed
            && TimelessLog(after.published) == TimelessLog(bus.published) + if outcome == RaisedFirst then [] else [Timeless(m)]
  {
    assert TimelessLog(bus.published + [m]) == TimelessLog(bus.published) + [Timeless(m)];
  }

  /** The log after attempting n rows from k on. */
  ghost predicate Reaches(f: Feed, maxlen: nat, k: nat, n: nat, outcomes: nat -> Outcome, at: string)
    requires |f.outcomes| == k && k + n <= |f.table.rows|
  {
    var after := FeedBatch(f.bus, maxlen, f.table.rows, Upward(k, n), outcomes, at);
    && after.closed == f.bus.closed
    && TimelessLog(after.published) == ReachedLog(f.table.rows, f.outcomes + First(outcomes, n))
  }

  lemma ReachesOneMore(f: Feed, maxlen: nat, k: nat, n: nat, outcomes: nat -> Outcome, at: string)
    requires |f.outcomes| == k && k + n < |f.table.rows| && Reaches(f, maxlen, k, n, outcomes, at)
    requires f.bus.closed ==> outcomes(n) == RaisedFirst
    ensures Reaches(f, maxlen, k, n + 1, outcomes, at)
  {
    var before := FeedBatch(f.bus, maxlen, f.table.rows, Upward(k, n), outcomes, at);
    assert Upward(k, n + 1)[..n] == Upward(k, n);
    LogsOne(before, maxlen, Envelope(f.table.rows[k + n], at), outcomes(n), at);
    assert (f.outcomes + First(outcomes, n + 1))[..k + n] == f.outcomes + First(outcomes, n);
  }

  /** Attempting n rows from k on logs exactly those that reach the log. */
  lemma {:induction false} BatchReaches(f: Feed, maxlen: nat, k: nat, n: nat, outcomes: nat -> Outcome, at: string)
    requires LogIsReached(f) && |f.outcomes| == k && k + n <= |f.table.rows|
    requires f.bus.closed ==> forall i: nat :: outcomes(i) == RaisedFirst
    ensures Reaches(f, maxlen, k, n, outcomes, at)
  {
    if n == 0 {
      assert f.outcomes + First(outcomes, 0) == f.outcomes;
      assert Upward(k, 0) == [];
    } else {
      BatchReaches(f, maxlen, k, n - 1, outcomes, at);
      ReachesOneMore(f, maxlen, k, n - 1, outcomes, at);
    }
  }

  lemma {:induction false} SentUpTo(rows: seq<OutRow>, k: nat, n: nat)
    requires k <= n <= |rows| && forall i :: k <= i < n ==> rows[i].status != Sent
    ensures SentLog(rows, n) == SentLog(rows, k)
  {
    if k < n {
      SentUpTo(rows, k, n - 1);
    }
  }

  /** How many of these outcomes are `which`. */
  function CountOutcomes(outcomes: seq<Outcome>, which: Outcome): nat {
    if outcomes == [] then 0
    else CountOutcomes(outcomes[..|outcomes| - 1], which) + if outcomes[|outcomes| - 1] == which then 1 else 0
  }

  lemma {:induction false} NoneCounted(outcomes: seq<Outcome>, which: Outcome)
    ensures CountOutcomes(outcomes, which) == 0 <==> which !in outcomes
  {
    if outcomes != [] {
      NoneCounted(outcomes[..|outcomes| - 1], which);
      assert outcomes == outcomes[..|outcomes| - 1] + [outcomes[|outcomes| - 1]];
    }
  }

  /** The log of the reached rows is longer than that of the sent ones by those that raised after it. */
  lemma {:induction false} ReachedAndSent(rows: seq<OutRow>, outcomes: seq<Outcome>)
    requires |outcomes| <= |rows|
    requires forall i :: 0 <= i < |outcomes| ==> rows[i].status == (if outcomes[i] == Delivered then Sent else Failed)
    ensures |SentLog(rows, |outcomes|)| == CountOutcomes(outcomes, Delivered)
    ensures |ReachedLog(rows, outcomes)| == |SentLog(rows, |outcomes|)| + CountOutcomes(outcomes, RaisedAfter)
    ensures CountOutcomes(outcomes, RaisedAfter) == 0 ==> ReachedLog(rows, outcomes) == SentLog(rows, |outcomes|)
  {
    if outcomes != [] {
      ReachedAndSent(rows, outcomes[..|outcomes| - 1]);
    }
  }

  lemma {:induction false} DeliveriesCounted(before: seq<Outcome>, outcomes: nat -> Outcome, n: nat)
    ensures CountOutcomes(before + First(outcomes, n), Delivered)
            == CountOutcomes(before, Delivered) + Deliveries(outcomes, n)
  {
    if n == 0 {
      assert before + First(outcomes, 0) == before;
    } else {
      DeliveriesCounted(before, outcomes, n - 1);
      assert (before + First(outcomes, n))[..|before| + n - 1] == before + First(outcomes, n - 1);
    }
  }

  /** The rows that are sent, counted and told by the outcomes of the attempts. */
  lemma SentTold(f: Feed, k: nat)
    requires Attempted(f, k) && LogIsReached(f)
    ensures |SentLog(f.table.rows, |f.table.rows|)| == CountOutcomes(f.outcomes, Delivered)
    ensures LogIsSent(f) <==> RaisedAfter !in f.outcomes
  {
    ReachedAndSent(f.table.rows, f.outcomes);
    SentUpTo(f.table.rows, k, |f.table.rows|);
    NoneCounted(f.outcomes, RaisedAfter);
  }

  /** Attempting the n oldest pending rows gives each the status of its outcome. */
  lemma AttemptTold(f: Feed, k: nat, n: nat, outcomes: nat -> Outcome, bus: Bus)
    requires Attempted(f, k) && k + n <= |f.table.rows|
    ensures var f' := Feed(Attempt(f.table, Upward(k, n), Raising(outcomes)), bus, f.outcomes + First(outcomes, n));
            && Attempted(f', k + n)
            && forall i :: 0 <= i < |f.table.rows| ==> Envelope(f'.table.rows[i], "") == Envelope(f.table.rows[i], "")
  {
    AttemptSettles(f.table, k, n, Raising(outcomes));
    forall i: nat | i < |f.table.rows|
      ensures Attempt(f.table, Upward(k, n), Raising(outcomes)).rows[i]
              == if k <= i < k + n then f.table.rows[i].(status := if outcomes(i - k) == Delivered then Sent else Failed)
                 else f.table.rows[i]
    {
      AttemptsRow(f.table, k, n, Raising(outcomes), i);
    }
  }

  /** The feed after attempting the n oldest pending rows. */
  function AttemptFeed(f: Feed, maxlen: nat, k: nat, n: nat, outcomes: nat -> Outcome, at: string): Feed
    requires k + n <= |f.table.rows|
  {
    Feed(Attempt(f.table, Upward(k, n), Raising(outcomes)),
         FeedBatch(f.bus, maxlen, f.table.rows, Upward(k, n), outcomes, at),
         f.outcomes + First(outcomes, n))
  }

  lemma AttemptLogsReached(f: Feed, maxlen: nat, k: nat, n: nat, outcomes: nat -> Outcome, at: string)
    requires Attempted(f, k) && LogIsReached(f) && k + n <= |f.table.rows|
    requires f.bus.closed ==> forall i: nat :: outcomes(i) == RaisedFirst
    ensures var f' := AttemptFeed(f, maxlen, k, n, outcomes, at);
            Attempted(f', k + n) && LogIsReached(f')
  {
    var f' := AttemptFeed(f, maxlen, k, n, outcomes, at);
    AttemptTold(f, k, n, outcomes, f'.bus);
    BatchReaches(f, maxlen, k, n, outcomes, at);
    ReachedSame(f.table.rows, f'.table.rows, f'.outcomes);
  }

  lemma ClosedRefuses(handler: Option<Handler>, rows: seq<OutRow>, batch: seq<nat>, faults: nat -> Outcome)
    requires InRange(batch, |rows|)
    ensures forall i: nat :: Outcomes(true, handler, rows, batch, faults)(i) == RaisedFirst
  {
    forall i: nat ensures Outcomes(true, handler, rows, batch, faults)(i) == RaisedFirst {
      if i < |batch| {
        assert OutcomeOf(true, handler, rows[batch[i]].topic, faults(i)) == RaisedFirst;
      }
    }
  }

  /** A drain is an attempt of the oldest pending rows, and on a closed bus every attempt is refused. */
  lemma DrainAttempts(f: Feed, maxlen: nat, k: nat, limit: nat, faults: nat -> Outcome, at: string)
    returns (n: nat, outcomes: nat -> Outcome)
    requires Settled(f.table, k)
    ensures n == Min(limit, |f.table.rows| - k) && Pick(f.table.rows, 0, limit) == Upward(k, n)
    ensures outcomes == Outcomes(f.bus.closed, f.bus.handler, f.table.rows, Upward(k, n), faults)
    ensures DrainFeed(f, maxlen, limit, faults, at) == AttemptFeed(f, maxlen, k, n, outcomes, at)
    ensures f.bus.closed ==> forall i: nat :: outcomes(i) == RaisedFirst
  {
    DrainPicks(f.table, k, limit);
    n := Min(limit, |f.table.rows| - k);
    outcomes := Outcomes(f.bus.closed, f.bus.handler, f.table.rows, Upward(k, n), faults);
    ClosedRefuses(f.bus.handler, f.table.rows, Upward(k, n), faults);
  }

  /** A drain attempts the oldest pending rows and logs those that reach the log. */
  lemma DrainLogsReached(f: Feed, maxlen: nat, k: nat, limit: nat, faults: nat -> Outcome, at: string)
    requires Attempted(f, k) && LogIsReached(f)
    ensures Attempted(DrainFeed(f, maxlen, limit, faults, at), k + Min(limit, |f.table.rows| - k))
    ensures LogIsReached(DrainFeed(f, maxlen, limit, faults, at))
  {
    var n, outcomes := DrainAttempts(f, maxlen, k, limit, faults, at);
    AttemptLogsReached(f, maxlen, k, n, outcomes, at);
  }

  /** ... and turns as many rows to sent as it reports. */
  lemma DrainReportsSent(f: Feed, maxlen: nat, k: nat, limit: nat, faults: nat -> Outcome, at: string)
    requires Attempted(f, k) && LogIsReached(f) && InRange(Pick(f.table.rows, 0, limit), |f.table.rows|)
    ensures var rows, batch := DrainFeed(f, maxlen, limit, faults, at).table.rows, Pick(f.table.rows, 0, limit);
            |SentLog(rows, |rows|)|
            == |SentLog(f.table.rows, |f.table.rows|)|
               + Deliveries(Outcomes(f.bus.closed, f.bus.handler, f.table.rows, batch, faults), |batch|)
  {
    var n, outcomes := DrainAttempts(f, maxlen, k, limit, faults, at);
    AttemptLogsReached(f, maxlen, k, n, outcomes, at);
    SentTold(f, k);
    SentTold(AttemptFeed(f, maxlen, k, n, outcomes, at), k + n);
    DeliveriesCounted(f.outcomes, outcomes, n);
  }

  lemma AddKeepsLog(f: Feed, k: nat, row: OutRow)
    requires Attempted(f, k) && LogIsReached(f) && row.status == Pending
    ensures Attempted(f.(table := EnqueueRow(f.table, row)), k) && LogIsReached(f.(table := EnqueueRow(f.table, row)))
  {
    ReachedSame(f.table.rows, f.table.rows + [row], f.outcomes);
    assert (f.table.rows + [row])[..k] == f.table.rows[..k];
  }

  /** Over any run with a single drainer that never crashes, whatever the publish faults, subscriptions and
      closings, the publish log carries exactly the rows whose publish reached it, in creation order. */
  lemma {:induction false} PublishLogFollowsCreation(ops: seq<BusOp>, maxlen: nat) returns (k: nat)
    ensures LogIsReached(FeedRun(ops, maxlen)) && Attempted(FeedRun(ops, maxlen), k)
  {
    k := 0;
    if ops == [] {
      assert Ids(FeedRun(ops, maxlen).table.rows[..0]) == [];
    } else {
      var f := FeedRun(ops[..|ops| - 1], maxlen);
      k := PublishLogFollowsCreation(ops[..|ops| - 1], maxlen);
      match ops[|ops| - 1] {
        case AddRow(row) =>
          AddKeepsLog(f, k, row.(status := Pending));
        case DrainTo(limit, faults, at) =>
          DrainLogsReached(f, maxlen, k, limit, faults, at);
          k := k + Min(limit, |f.table.rows| - k);
        case SubscribeAt(handler, at) =>
        case Close =>
      }
    }
  }

  /** ... which are the sent rows exactly if no publish raised after it had reached the log. */
  lemma LogIsSentIff(ops: seq<BusOp>, maxlen: nat)
    ensures LogIsSent(FeedRun(ops, maxlen)) <==> RaisedAfter !in FeedRun(ops, maxlen).outcomes
  {
    var k := PublishLogFollowsCreation(ops, maxlen);
    SentTold(FeedRun(ops, maxlen), k);
  }

  lemma FeedRunMore(ops: seq<BusOp>, op: BusOp, maxlen: nat)
    ensures FeedRun(ops + [op], maxlen) == FeedStep(FeedRun(ops, maxlen), maxlen, op)
  {
    assert (ops + [op])[..|ops|] == ops;
  }

  /** One row is pending and a handler for every topic is registered. */
  function Listening(row: OutRow): Feed {
    Feed(Table([row.(status := Pending)], []), Bus([], Some(Handler(None)), false, EMPTY), [])
  }

  lemma ListeningIsReached(row: OutRow, maxlen: nat, at: string)
    ensures FeedRun([SubscribeAt(Handler(None), at)] + [AddRow(row)], maxlen) == Listening(row)
  {
    FeedRunMore([], SubscribeAt(Handler(None), at), maxlen);
    assert [] + [SubscribeAt(Handler(None), at)] == [SubscribeAt(Handler(None), at)];
    FeedRunMore([SubscribeAt(Handler(None), at)], AddRow(row), maxlen);
    assert [] + [row.(status := Pending)] == [row.(status := Pending)];
  }

  lemma RaisingDrain(row: OutRow, maxlen: nat, at: string)
    ensures var f := DrainFeed(Listening(row), maxlen, 1, (i: nat) => RaisedAfter, at);
            f.table.rows == [row.(status := Failed)] && f.bus.published == [Envelope(row, at)]
  {
    var rows, batch := [row.(status := Pending)], [0];
    assert Pick(rows, 0, 1) == batch;
    var outcomes := Outcomes(false, Some(Handler(None)), rows, batch, (i: nat) => RaisedAfter);
    assert OutcomeOf(false, Some(Handler(None)), rows[batch[0]].topic, RaisedAfter) == RaisedAfter;
    assert outcomes(0) == RaisedAfter;
    OneMoreAttempt(Listening(row).table, Listening(row).bus, maxlen, batch, outcomes, at, 0);
    assert batch[..1] == batch && batch[..0] == [];
  }

  /** The run that the condition excludes: the handler raises, so the row is marked as an error, and it is
      in the log. */
  lemma RaisingHandlerLeavesTheLog(row: OutRow, maxlen: nat, at: string)
    ensures var f := FeedRun([SubscribeAt(Handler(None), at)] + [AddRow(row)] + [DrainTo(1, (i: nat) => RaisedAfter, at)], maxlen);
            f.table.rows == [row.(status := Failed)] && f.bus.published == [Envelope(row, at)] && !LogIsSent(f)
  {
    ListeningIsReached(row, maxlen, at);
    RaisingDrain(row, maxlen, at);
    FeedRunMore([SubscribeAt(Handler(None), at)] + [AddRow(row)], DrainTo(1, (i: nat) => RaisedAfter, at), maxlen);
    assert |TimelessLog([Envelope(row, at)])| == 1;
    assert SentLog([row.(status := Failed)], 1) == [];
  }

  datatype Report = Report(sent: nat, error: nat, pending: nat)

  class OutboxTable {
    var rows: seq<OutRow>
    /** The ids carried by every publish attempt so far. */
    ghost var attempts: seq<string>

    ghost function View(): Table
      reads this
    {
      Table(rows, attempts)
    }

    constructor ()
      ensures View() == Table([], [])
    {
      rows, attempts := [], [];
    }

    method Enqueue(id: string, kind: string, topic: string, payload: nat) returns (row: OutRow)
      modifies this
      ensures row == OutRow(id, kind, topic, payload, Pending)
      ensures rows == old(rows) + [row] && attempts == old(attempts)
    {
      row := Stage(id, kind, topic, payload);
      rows := rows + [row];
    }

    /** One turn of the loop: build the envelope, publish it, and set the row's status. */
    method PublishRow(provider: MemoryEventProvider, k: nat, fault: Outcome, at: string) returns (published: bool)
      requires k < |rows|
      modifies this, provider, provider.buffer
      ensures provider.closed == old(provider.closed) && provider.handler == old(provider.handler)
      ensures var outcome := OutcomeOf(old(provider.closed), old(provider.handler), old(rows)[k].topic, fault);
              && (published <==> outcome == Delivered)
              && provider.View() == FeedOne(old(provider.View()), provider.buffer.maxlen, Envelope(old(rows)[k], at), outcome, at)
      ensures rows == old(rows)[k := old(rows)[k].(status := if published then Sent else Failed)]
      ensures attempts == old(attempts) + [old(rows)[k].id]
    {
      var message := Envelope(rows[k], at);
      published := false;
      if fault != RaisedFirst {
        published := provider.Publish(message, at, fault == RaisedAfter);
      }
      attempts := attempts + [rows[k].id];
      if published {
        provider.buffer.Append(message.topic, message.event, "consumed", at);
      }
      rows := rows[k := rows[k].(status := if published then Sent else Failed)];
    }

    /** The loop over the rows that the query returned. */
    method PublishBatch(provider: MemoryEventProvider, batch: seq<nat>, faults: nat -> Outcome, at: string)
      returns (sent: nat, errors: nat)
      requires InRange(batch, |rows|)
      requires forall i, j :: 0 <= i < j < |batch| ==> batch[i] < batch[j]
      modifies this, provider, provider.buffer
      ensures var outcomes := Outcomes(old(provider.closed), old(provider.handler), old(rows), batch, faults);
              && View() == Attempt(old(View()), batch, Raising(outcomes))
              && provider.View() == FeedBatch(old(provider.View()), provider.buffer.maxlen, old(rows), batch, outcomes, at)
              && sent == Deliveries(outcomes, |batch|) && sent + errors == |batch|
    {
      sent, errors := 0, 0;
      ghost var outcomes := Outcomes(provider.closed, provider.handler, rows, batch, faults);
      ghost var table, bus, maxlen := View(), provider.View(), provider.buffer.maxlen;
      for i := 0 to |batch|
        invariant sent + errors == i && sent == Deliveries(outcomes, i)
        invariant provider.closed == bus.closed && provider.handler == bus.handler
        invariant |rows| == |table.rows|
        invariant View() == Attempt(table, batch[..i], Raising(outcomes))
        invariant provider.View() == FeedBatch(bus, maxlen, table.rows, batch[..i], outcomes, at)
        invariant forall k :: i <= k < |batch| ==> rows[batch[k]] == table.rows[batch[k]]
      {
        OneMoreAttempt(table, bus, maxlen, batch, outcomes, at, i);
        var published := PublishRow(provider, batch[i], faults(i), at);
        if published {
          sent := sent + 1;
        } else {
          errors := errors + 1;
        }
      }
      assert batch[..|batch|] == batch;
    }

    method Drain(provider: MemoryEventProvider, limit: nat, faults: nat -> Outcome, at: string) returns (r: Report)
      modifies this, provider, provider.buffer
      ensures InRange(Pick(old(rows), 0, limit), |old(rows)|)
      ensures var batch := Pick(old(rows), 0, limit);
              var outcomes := Outcomes(old(provider.closed), old(provider.handler), old(rows), batch, faults);
              && View() == DrainOnce(old(View()), limit, Raising(outcomes))
              && provider.View() == FeedBatch(old(provider.View()), provider.buffer.maxlen, old(rows), batch, outcomes, at)
              && r.sent == Deliveries(outcomes, |batch|) && r.sent + r.error == |batch| && r.pending == 0
    {
      PickedArePending(rows, 0, limit);
      var batch := Pick(rows, 0, limit);
      if batch == [] {
        return Report(0, 0, 0);
      }
      var sent, errors := PublishBatch(provider, batch, faults, at);
      r := Report(sent, errors, 0);
    }
  }
}
