/** The bounded, de-duplicating ring of recent events. */
module BusBuffer {
  import opened Common

  /** An event as it arrives; an empty string stands for a missing or empty field. */
  datatype Event = Event(id: string, kind: string, occurredAt: string, payload: nat)

  datatype Row = Row(id: string, kind: string, topic: string, event: Event, source: string, at: string)

  datatype Ring = Ring(
    rows: seq<Row>,
    totalSeen: nat,
    byKind: map<string, nat>,
    lastAt: Option<string>,
    source: string)

  const EMPTY := Ring([], 0, map[], None, "empty")

  function Decimal(n: nat): string {
    if n < 10 then ["0123456789"[n]] else Decimal(n / 10) + ["0123456789"[n % 10]]
  }

  function MakeRow(topic: string, e: Event, source: string, totalSeen: nat, now: string): Row {
    Row(if e.id != "" then e.id else "consumed-" + Decimal(totalSeen),
        if e.kind != "" then e.kind else "unknown",
        topic, e, source,
        if e.occurredAt != "" then e.occurredAt else now)
  }

  predicate Holds(rows: seq<Row>, id: string) {
    exists i :: 0 <= i < |rows| && rows[i].id == id
  }

  /** `appendleft` on a deque of at most `maxlen` rows. */
  function PushLeft(rows: seq<Row>, row: Row, maxlen: nat): seq<Row> {
    ([row] + rows)[..Min(|rows| + 1, maxlen)]
  }

  function CountOf(byKind: map<string, nat>, kind: string): nat {
    if kind in byKind then byKind[kind] else 0
  }

  function Accept(b: Ring, row: Row, maxlen: nat): Ring {
    Ring(PushLeft(b.rows, row, maxlen), b.totalSeen + 1,
         b.byKind[row.kind := CountOf(b.byKind, row.kind) + 1], Some(row.at), row.source)
  }

  function AppendRow(b: Ring, maxlen: nat, topic: string, e: Event, source: string, now: string): Ring {
    var row := MakeRow(topic, e, source, b.totalSeen, now);
    if Holds(b.rows, row.id) then b else Accept(b, row, maxlen)
  }

  // ---------------------------------------------------------------------------
  // The ring refines the log of accepted events
  // ---------------------------------------------------------------------------

  datatype Op =
    | Deliver(topic: string, event: Event, source: string, now: string)
    | Clear

  function Apply(b: Ring, op: Op, maxlen: nat): Ring {
    match op
    case Deliver(topic, e, source, now) => AppendRow(b, maxlen, topic, e, source, now)
    case Clear => EMPTY
  }

  function Run(ops: seq<Op>, maxlen: nat): Ring {
    if ops == [] then EMPTY
    else Apply(Run(ops[..|ops| - 1], maxlen), ops[|ops| - 1], maxlen)
  }

  /** What was accepted since the last clear, oldest first. */
  function Accepted(ops: seq<Op>, maxlen: nat): seq<Row> {
    if ops == [] then []
    else
      var init, last := ops[..|ops| - 1], ops[|ops| - 1];
      match last
      case Clear => []
      case Deliver(topic, e, source, now) =>
        var log := Accepted(init, maxlen);
        var row := MakeRow(topic, e, source, |log|, now);
        if Holds(Newest(log, maxlen), row.id) then log else log + [row]
  }

  /** The last `n` rows of a log, newest first. */
  function Newest(log: seq<Row>, n: nat): seq<Row> {
    if log == [] || n == 0 then []
    else [log[|log| - 1]] + Newest(log[..|log| - 1], n - 1)
  }

  function KindCount(log: seq<Row>, kind: string): nat {
    if log == [] then 0
    else KindCount(log[..|log| - 1], kind) + (if log[|log| - 1].kind == kind then 1 else 0)
  }

  ghost function AnyKind(counts: map<string, nat>): (kind: string)
    requires counts != map[]
    ensures kind in counts
  {
    var kind :| kind in counts;
    kind
  }

  ghost function Total(counts: map<string, nat>): nat {
    if counts == map[] then 0
    else counts[AnyKind(counts)] + Total(counts - {AnyKind(counts)})
  }

  lemma {:induction false} NewestAt(log: seq<Row>, n: nat)
    ensures |Newest(log, n)| == Min(|log|, n)
    ensures forall i :: 0 <= i < |Newest(log, n)| ==> Newest(log, n)[i] == log[|log| - 1 - i]
  {
    if log != [] && n != 0 {
      var init := log[..|log| - 1];
      NewestAt(init, n - 1);
      forall i | 0 <= i < |Newest(log, n)|
        ensures Newest(log, n)[i] == log[|log| - 1 - i]
      {
        assert i > 0 ==> Newest(log, n)[i] == Newest(init, n - 1)[i - 1];
      }
    }
  }

  lemma NewestOfLonger(log: seq<Row>, row: Row, n: nat)
    ensures Newest(log + [row], n) == PushLeft(Newest(log, n), row, n)
  {
    NewestAt(log, n);
    NewestAt(log + [row], n);
  }

  lemma {:induction false} TotalWithout(counts: map<string, nat>, kind: string)
    requires kind in counts
    ensures Total(counts) == counts[kind] + Total(counts - {kind})
    decreases |counts|
  {
    var any := AnyKind(counts);
    if kind != any {
      TotalWithout(counts - {any}, kind);
      TotalWithout(counts - {kind}, any);
      assert counts - {any} - {kind} == counts - {kind} - {any};
    }
  }

  lemma CountOneMore(counts: map<string, nat>, kind: string)
    ensures Total(counts[kind := CountOf(counts, kind) + 1]) == Total(counts) + 1
  {
    var more := counts[kind := CountOf(counts, kind) + 1];
    TotalWithout(more, kind);
    assert more - {kind} == counts - {kind};
    if kind in counts {
      TotalWithout(counts, kind);
    } else {
      assert counts - {kind} == counts;
    }
  }

  /** The ring is determined by the accepted log: it holds the newest min(n, maxlen) accepted events,
      counts all of them, and counts each kind. */
  ghost predicate Refines(b: Ring, log: seq<Row>, maxlen: nat) {
    && b.rows == Newest(log, maxlen)
    && b.totalSeen == |log|
    && (forall kind :: CountOf(b.byKind, kind) == KindCount(log, kind))
    && Total(b.byKind) == b.totalSeen
    && b.lastAt == (if log == [] then None else Some(log[|log| - 1].at))
    && b.source == (if log == [] then "empty" else log[|log| - 1].source)
  }

  lemma AcceptRefines(b: Ring, log: seq<Row>, row: Row, maxlen: nat)
    requires Refines(b, log, maxlen)
    ensures Refines(Accept(b, row, maxlen), log + [row], maxlen)
  {
    NewestOfLonger(log, row, maxlen);
    CountOneMore(b.byKind, row.kind);
    forall kind
      ensures CountOf(Accept(b, row, maxlen).byKind, kind) == KindCount(log + [row], kind)
    {
      assert (log + [row])[..|log|] == log;
    }
  }

  /** After any run of deliveries and clears the ring refines what was accepted since the last clear. */
  lemma {:induction false} RingRefinesLog(ops: seq<Op>, maxlen: nat)
    ensures Refines(Run(ops, maxlen), Accepted(ops, maxlen), maxlen)
  {
    if ops != [] {
      var init, last := ops[..|ops| - 1], ops[|ops| - 1];
      RingRefinesLog(init, maxlen);
      if last.Deliver? {
        var b, log := Run(init, maxlen), Accepted(init, maxlen);
        var row := MakeRow(last.topic, last.event, last.source, |log|, last.now);
        if !Holds(b.rows, row.id) {
          AcceptRefines(b, log, row, maxlen);
        }
      }
    }
  }

  datatype Stats = Stats(buffered: nat, totalSeen: nat, lastAt: Option<string>, byKind: map<string, nat>, source: string)

  function StatsOf(b: Ring): Stats {
    Stats(|b.rows|, b.totalSeen, b.lastAt, b.byKind, if b.rows == [] then "empty" else b.source)
  }

  /** What the statistics say about everything accepted since the last clear. */
  lemma StatsTellLog(ops: seq<Op>, maxlen: nat)
    ensures var s, log := StatsOf(Run(ops, maxlen)), Accepted(ops, maxlen);
            && s.totalSeen == |log| == Total(s.byKind) && s.buffered == Min(s.totalSeen, maxlen)
            && (forall kind :: CountOf(s.byKind, kind) == KindCount(log, kind))
            && s.lastAt == (if log == [] then None else Some(log[|log| - 1].at))
            && s.source == (if log == [] || maxlen == 0 then "empty" else log[|log| - 1].source)
  {
    RingRefinesLog(ops, maxlen);
    StatsOfRefined(Run(ops, maxlen), Accepted(ops, maxlen), maxlen);
  }

  lemma StatsOfRefined(b: Ring, log: seq<Row>, maxlen: nat)
    requires Refines(b, log, maxlen)
    ensures StatsOf(b).buffered == Min(|log|, maxlen)
    ensures StatsOf(b).source == (if log == [] || maxlen == 0 then "empty" else log[|log| - 1].source)
  {
    NewestAt(log, maxlen);
    assert |b.rows| == Min(|log|, maxlen);
  }

  /** A delivery enters the log exactly when none of the newest `maxlen` accepted events has its id. */
  lemma AcceptedIffAbsent(ops: seq<Op>, d: Op, maxlen: nat)
    requires d.Deliver?
    ensures var log := Accepted(ops, maxlen);
            var id := MakeRow(d.topic, d.event, d.source, |log|, d.now).id;
            |Accepted(ops + [d], maxlen)| == |log| + 1
            <==> forall i :: 0 <= i < |log| && |log| - maxlen <= i ==> log[i].id != id
  {
    assert (ops + [d])[..|ops|] == ops;
    var log := Accepted(ops, maxlen);
    NewestAt(log, maxlen);
    var id := MakeRow(d.topic, d.event, d.source, |log|, d.now).id;
    var rows := Newest(log, maxlen);
    if forall i :: 0 <= i < |log| && |log| - maxlen <= i ==> log[i].id != id {
      assert !Holds(rows, id);
    } else {
      var i :| 0 <= i < |log| && |log| - maxlen <= i && log[i].id == id;
      assert rows[|log| - 1 - i].id == id;
    }
  }

  /** Any maxlen + 1 consecutive accepted events have pairwise distinct ids. */
  lemma {:induction false} NearbyIdsDiffer(ops: seq<Op>, maxlen: nat, i: nat, j: nat)
    requires i < j < |Accepted(ops, maxlen)| && j - i <= maxlen
    ensures Accepted(ops, maxlen)[i].id != Accepted(ops, maxlen)[j].id
  {
    var init, last := ops[..|ops| - 1], ops[|ops| - 1];
    var log := Accepted(init, maxlen);
    if j < |log| {
      NearbyIdsDiffer(init, maxlen, i, j);
    } else {
      NewestAt(log, maxlen);
      assert Newest(log, maxlen)[|log| - 1 - i] == log[i];
    }
  }

  /** The number that a string of digits stands for. */
  function Reads(s: string): int {
    if s == "" then 0 else 10 * Reads(s[..|s| - 1]) + (s[|s| - 1] as int - '0' as int)
  }

  lemma DigitIs(d: nat)
    requires d < 10
    ensures "0123456789"[d] as int == '0' as int + d
  {
  }

  lemma {:induction false} ReadsOneMore(s: string, c: char)
    ensures Reads(s + [c]) == 10 * Reads(s) + (c as int - '0' as int)
  {
    assert (s + [c])[..|s|] == s;
  }

  /** The generated ids count: each number has its own digits. */
  lemma {:induction false} DecimalReads(n: nat)
    ensures Reads(Decimal(n)) == n
  {
    DigitIs(n % 10);
    if n >= 10 {
      DecimalReads(n / 10);
      ReadsOneMore(Decimal(n / 10), "0123456789"[n % 10]);
    } else {
      ReadsOneMore("", "0123456789"[n]);
      assert "" + ["0123456789"[n]] == ["0123456789"[n]];
    }
  }

  // ---------------------------------------------------------------------------
  // The buffer object
  // ---------------------------------------------------------------------------

  class Buffer {
    const maxlen: nat
    var rows: seq<Row>
    var totalSeen: nat
    var lastAt: Option<string>
    var byKind: map<string, nat>
    var source: string

    function View(): Ring
      reads this
    {
      Ring(rows, totalSeen, byKind, lastAt, source)
    }

    constructor (maxlen: nat)
      ensures this.maxlen == maxlen && View() == EMPTY
    {
      this.maxlen := maxlen;
      rows, totalSeen, lastAt, byKind, source := [], 0, None, map[], "empty";
    }

    method Clear()
      modifies this
      ensures View() == EMPTY
    {
      rows, totalSeen, lastAt, byKind, source := [], 0, None, map[], "empty";
    }

    method Append(topic: string, e: Event, source: string, now: string)
      modifies this
      ensures View() == AppendRow(old(View()), maxlen, topic, e, source, now)
      ensures var row := Row(if e.id != "" then e.id else "consumed-" + Decimal(old(totalSeen)),
                             if e.kind != "" then e.kind else "unknown", topic, e, source,
                             if e.occurredAt != "" then e.occurredAt else now);
              if exists i :: 0 <= i < |old(rows)| && old(rows)[i].id == row.id then View() == old(View())
              else
                && rows == ([row] + old(rows))[..Min(|old(rows)| + 1, maxlen)]
                && totalSeen == old(totalSeen) + 1 && lastAt == Some(row.at) && this.source == source
                && byKind == old(byKind)[row.kind := 1 + if row.kind in old(byKind) then old(byKind)[row.kind] else 0]
    {
      var row := MakeRow(topic, e, source, totalSeen, now);
      if exists i :: 0 <= i < |rows| && rows[i].id == row.id {
        return;
      }
      rows := PushLeft(rows, row, maxlen);
      totalSeen := totalSeen + 1;
      lastAt := Some(row.at);
      byKind := byKind[row.kind := CountOf(byKind, row.kind) + 1];
      this.source := source;
    }

    method GetStats() returns (s: Stats)
      ensures s == StatsOf(View())
    {
      s := Stats(|rows|, totalSeen, lastAt, byKind, if |rows| > 0 then source else "empty");
    }
  }
}
