/** Whole runs of the subscription and instance operations: later trading follows from the windows
    alone, and a destroyed instance stays destroyed. */
module TradingHistory {
  import opened Common
  import opened Subscriptions
  import opened SubscriptionRuns

  datatype Command =
    | CreateWindow(client: nat, startsAt: int, endsAt: int, mode: Mode, at: int)
    | CheckTrading(client: nat, at: int)
    | EnforceAt(at: int, order: seq<nat>, replies: Replies)
    | ExpireAt(k: nat, cut: int, at: int, order: seq<nat>, replies: Replies)
    | StartInstance(i: nat, ok: bool)
    | SuspendInstance(i: nat, ok: bool)
    | DestroyInstance(i: nat, ok: bool)

  /** Due rows come in some order of the database, and the clock never goes back. */
  ghost predicate Legal(w: World, clock: int, cmd: Command) {
    match cmd
    case CreateWindow(_, _, _, _, at) => clock <= at
    case CheckTrading(_, at) => clock <= at
    case EnforceAt(at, order, _) => clock <= at && ListsDue(order, w.subs, at)
    case ExpireAt(k, cut, at, order, _) =>
      clock <= cut <= at && (k < |w.subs| && w.subs[k].status == Open ==> ListsDue(order, Shortened(w, k, cut).subs, at))
    case StartInstance(_, _) => true
    case SuspendInstance(_, _) => true
    case DestroyInstance(_, _) => true
  }

  function Clock(clock: int, cmd: Command): int {
    if cmd.StartInstance? || cmd.SuspendInstance? || cmd.DestroyInstance? then clock else cmd.at
  }

  /** Starting and suspending refuse a destroyed instance; destroying does not look. */
  function SetStatus(w: World, i: nat, ok: bool, status: InstanceStatus): World {
    if i < |w.instances| && ok && (w.instances[i].status != Destroyed || status == Destroyed)
    then w.(instances := w.instances[i := w.instances[i].(status := status)]) else w
  }

  ghost function Do(w: World, clock: int, cmd: Command): World
    requires Legal(w, clock, cmd)
  {
    match cmd
    case CreateWindow(client, startsAt, endsAt, mode, at) => Created(w, client, startsAt, endsAt, mode, at)
    case CheckTrading(client, at) => Checked(w, client, at)
    case EnforceAt(at, order, replies) => ExpireAll(w, order, at, replies)
    case ExpireAt(k, cut, at, order, replies) =>
      if k < |w.subs| && w.subs[k].status == Open then ExpireAll(Shortened(w, k, cut), order, at, replies) else w
    case StartInstance(i, ok) => SetStatus(w, i, ok, Running)
    case SuspendInstance(i, ok) => SetStatus(w, i, ok, Paused)
    case DestroyInstance(i, ok) => SetStatus(w, i, ok, Destroyed)
  }

  ghost predicate LegalRun(w: World, clock: int, cmds: seq<Command>)
    decreases |cmds|
  {
    cmds == [] || (Legal(w, clock, cmds[0]) && LegalRun(Do(w, clock, cmds[0]), Clock(clock, cmds[0]), cmds[1..]))
  }

  ghost function Final(w: World, clock: int, cmds: seq<Command>): World
    requires LegalRun(w, clock, cmds)
    decreases |cmds|
  {
    if cmds == [] then w else Final(Do(w, clock, cmds[0]), Clock(clock, cmds[0]), cmds[1..])
  }

  function LastClock(clock: int, cmds: seq<Command>): int
    decreases |cmds|
  {
    if cmds == [] then clock else LastClock(Clock(clock, cmds[0]), cmds[1..])
  }

  // ---------------------------------------------------------------------------
  // The reference: windows and nothing else
  // ---------------------------------------------------------------------------

  datatype Window = Window(client: nat, startsAt: int, endsAt: int)

  function Earlier(a: int, b: int): int {
    if a < b then a else b
  }

  /** A run as a record of windows: creating adds one, force-expiring cuts one short, and enforcement
      does nothing at all. */
  function Record(ws: seq<Window>, clients: set<nat>, cmd: Command): seq<Window> {
    match cmd
    case CreateWindow(client, startsAt, endsAt, _, _) =>
      if client in clients && startsAt < endsAt then ws + [Window(client, startsAt, endsAt)] else ws
    case ExpireAt(k, cut, _, _, _) =>
      if k < |ws| then ws[k := ws[k].(endsAt := Earlier(ws[k].endsAt, cut))] else ws
    case CheckTrading(_, _) => ws
    case EnforceAt(_, _, _) => ws
    case StartInstance(_, _) => ws
    case SuspendInstance(_, _) => ws
    case DestroyInstance(_, _) => ws
  }

  function Windows(ws: seq<Window>, clients: set<nat>, cmds: seq<Command>): seq<Window>
    decreases |cmds|
  {
    if cmds == [] then ws else Windows(Record(ws, clients, cmds[0]), clients, cmds[1..])
  }

  predicate OwnsWindow(ws: seq<Window>, c: nat) {
    exists i :: 0 <= i < |ws| && ws[i].client == c
  }

  predicate WindowOver(ws: seq<Window>, c: nat, t: int) {
    exists i :: 0 <= i < |ws| && ws[i].client == c && ws[i].startsAt <= t <= ws[i].endsAt
  }

  // ---------------------------------------------------------------------------
  // The rows agree with the record
  // ---------------------------------------------------------------------------

  predicate RowAgrees(s: Subscription, x: Window, clock: int) {
    && s.client == x.client
    && if InForce(s) then s.startsAt == x.startsAt && s.endsAt == x.endsAt else x.endsAt <= clock
  }

  ghost predicate Agrees(w: World, ws: seq<Window>, clock: int) {
    |ws| == |w.subs| && forall i :: 0 <= i < |ws| ==> RowAgrees(w.subs[i], ws[i], clock)
  }

  lemma EnforceAgrees(w: World, order: seq<nat>, now: int, replies: Replies, ws: seq<Window>, clock: int)
    requires Agrees(w, ws, clock) && clock <= now && ListsDue(order, w.subs, now)
    ensures Agrees(ExpireAll(w, order, now, replies), ws, now)
  {
    forall i: nat | i < |ws| ensures RowAgrees(ExpireAll(w, order, now, replies).subs[i], ws[i], now) {
      assert RowAgrees(w.subs[i], ws[i], clock);
      ExpiresListedRows(w, order, now, replies, i);
    }
  }

  /** A window that is forced to end now, even one that had already ended, is over after the
      enforcement that follows. */
  lemma ExpireNowAgrees(w: World, k: nat, cut: int, now: int, order: seq<nat>, replies: Replies, ws: seq<Window>, clock: int)
    requires Agrees(w, ws, clock) && clock <= cut <= now && k < |w.subs| && w.subs[k].status == Open
    requires ListsDue(order, Shortened(w, k, cut).subs, now)
    ensures Agrees(ExpireAll(Shortened(w, k, cut), order, now, replies),
                   ws[k := ws[k].(endsAt := Earlier(ws[k].endsAt, cut))], now)
  {
    var cutShort := Shortened(w, k, cut);
    forall i: nat | i < |ws|
      ensures RowAgrees(ExpireAll(cutShort, order, now, replies).subs[i],
                        ws[k := ws[k].(endsAt := Earlier(ws[k].endsAt, cut))][i], now)
    {
      assert RowAgrees(w.subs[i], ws[i], clock);
      ExpiresListedRows(cutShort, order, now, replies, i);
    }
  }

  lemma AgreesStep(w: World, ws: seq<Window>, clock: int, cmd: Command)
    requires Agrees(w, ws, clock) && Legal(w, clock, cmd)
    ensures Agrees(Do(w, clock, cmd), Record(ws, w.clients.Keys, cmd), Clock(clock, cmd))
    ensures Do(w, clock, cmd).clients.Keys == w.clients.Keys
  {
    match cmd
    case CreateWindow(_, _, _, _, _) =>
    case CheckTrading(_, _) =>
    case EnforceAt(at, order, replies) => EnforceAgrees(w, order, at, replies, ws, clock);
    case ExpireAt(k, cut, at, order, replies) =>
      if k < |w.subs| && w.subs[k].status == Open {
        ExpireNowAgrees(w, k, cut, at, order, replies, ws, clock);
      } else if k < |ws| {
        assert RowAgrees(w.subs[k], ws[k], clock);
        assert Record(ws, w.clients.Keys, cmd) == ws;
      }
    case StartInstance(_, _) =>
    case SuspendInstance(_, _) =>
    case DestroyInstance(_, _) =>
  }

  lemma {:induction false} AgreesRun(w: World, ws: seq<Window>, clock: int, cmds: seq<Command>)
    requires Agrees(w, ws, clock) && LegalRun(w, clock, cmds)
    ensures Agrees(Final(w, clock, cmds), Windows(ws, w.clients.Keys, cmds), LastClock(clock, cmds))
    ensures Final(w, clock, cmds).clients.Keys == w.clients.Keys
    decreases |cmds|
  {
    if cmds != [] {
      AgreesStep(w, ws, clock, cmds[0]);
      AgreesRun(Do(w, clock, cmds[0]), Record(ws, w.clients.Keys, cmds[0]), Clock(clock, cmds[0]), cmds[1..]);
    }
  }

  lemma AgreeingRowsDecide(w: World, ws: seq<Window>, clock: int, c: nat, t: int)
    requires Agrees(w, ws, clock) && t > clock
    ensures HasRows(w.subs, c) <==> OwnsWindow(ws, c)
    ensures Covered(w.subs, c, t) <==> WindowOver(ws, c, t)
  {
    forall i | 0 <= i < |ws| ensures RowAgrees(w.subs[i], ws[i], clock) {
    }
    if i :| 0 <= i < |w.subs| && w.subs[i].client == c && Covers(w.subs[i], t) {
      assert ws[i].client == c && ws[i].startsAt <= t <= ws[i].endsAt;
    }
    if i :| 0 <= i < |ws| && ws[i].client == c && ws[i].startsAt <= t <= ws[i].endsAt {
      assert w.subs[i].client == c && Covers(w.subs[i], t);
    }
    if i :| 0 <= i < |ws| && ws[i].client == c {
      assert w.subs[i].client == c;
    }
  }

  // ---------------------------------------------------------------------------
  // A client without windows keeps its status
  // ---------------------------------------------------------------------------

  lemma StatusStep(w: World, clock: int, cmd: Command, c: nat)
    requires Legal(w, clock, cmd) && c in w.clients && !HasRows(Do(w, clock, cmd).subs, c)
    ensures !HasRows(w.subs, c)
    ensures c in Do(w, clock, cmd).clients && Do(w, clock, cmd).clients[c] == w.clients[c]
  {
    var w' := Do(w, clock, cmd);
    match cmd
    case CreateWindow(client, startsAt, endsAt, mode, at) =>
      RowsGrow(w, w', c);
      if w' != w {
        assert w'.subs[|w.subs|].client == client;
      }
    case CheckTrading(_, _) =>
    case EnforceAt(at, order, replies) => EnforceKeepsStatus(w, order, at, replies, c);
    case ExpireAt(k, cut, at, order, replies) =>
      if k < |w.subs| && w.subs[k].status == Open {
        EnforceKeepsStatus(Shortened(w, k, cut), order, at, replies, c);
        RowsGrow(w, Shortened(w, k, cut), c);
      }
    case StartInstance(_, _) =>
    case SuspendInstance(_, _) =>
    case DestroyInstance(_, _) =>
  }

  lemma RowsGrow(w: World, w': World, c: nat)
    requires |w.subs| <= |w'.subs| && forall i :: 0 <= i < |w.subs| ==> w'.subs[i].client == w.subs[i].client
    ensures HasRows(w.subs, c) ==> HasRows(w'.subs, c)
  {
    if i :| 0 <= i < |w.subs| && w.subs[i].client == c {
      assert w'.subs[i].client == c;
    }
  }

  lemma EnforceKeepsStatus(w: World, order: seq<nat>, now: int, replies: Replies, c: nat)
    requires InRange(order, |w.subs|) && c in w.clients && !HasRows(ExpireAll(w, order, now, replies).subs, c)
    ensures !HasRows(w.subs, c)
    ensures ExpireAll(w, order, now, replies).clients[c] == w.clients[c]
  {
    var w' := ExpireAll(w, order, now, replies);
    forall i: nat | i < |w.subs| ensures w'.subs[i].client == w.subs[i].client {
      ExpiresListedRows(w, order, now, replies, i);
    }
    RowsGrow(w, w', c);
    SuspendsListedClients(w, order, now, replies, c);
  }

  lemma {:induction false} StatusRun(w: World, clock: int, cmds: seq<Command>, c: nat)
    requires LegalRun(w, clock, cmds) && c in w.clients && !HasRows(Final(w, clock, cmds).subs, c)
    ensures !HasRows(w.subs, c)
    ensures c in Final(w, clock, cmds).clients && Final(w, clock, cmds).clients[c] == w.clients[c]
    decreases |cmds|
  {
    if cmds != [] {
      assert c in Do(w, clock, cmds[0]).clients by {
        KeysStay(w, clock, cmds[0]);
      }
      StatusRun(Do(w, clock, cmds[0]), Clock(clock, cmds[0]), cmds[1..], c);
      StatusStep(w, clock, cmds[0], c);
    }
  }

  lemma KeysStay(w: World, clock: int, cmd: Command)
    requires Legal(w, clock, cmd)
    ensures Do(w, clock, cmd).clients.Keys == w.clients.Keys
  {
  }

  // ---------------------------------------------------------------------------
  // Main results
  // ---------------------------------------------------------------------------

  /** After any run from an empty table, whether a client may trade at a later time follows from its
      windows alone, or from its initial status if it never had a window. When and whether expiry was
      enforced makes no difference. */
  lemma TradingFollowsWindows(w: World, clock: int, cmds: seq<Command>, c: nat, t: int)
    requires w.subs == [] && LegalRun(w, clock, cmds) && t > LastClock(clock, cmds)
    ensures var ws := Windows([], w.clients.Keys, cmds);
            TradingAllowed(Final(w, clock, cmds), c, t)
            <==> c in w.clients && if OwnsWindow(ws, c) then WindowOver(ws, c, t) else w.clients[c] != Suspended
  {
    var final, ws := Final(w, clock, cmds), Windows([], w.clients.Keys, cmds);
    AgreesRun(w, [], clock, cmds);
    AgreeingRowsDecide(final, ws, LastClock(clock, cmds), c, t);
    if c in w.clients && !OwnsWindow(ws, c) {
      StatusRun(w, clock, cmds, c);
    }
  }

  lemma DestroyedStep(w: World, clock: int, cmd: Command, j: nat)
    requires Legal(w, clock, cmd) && j < |w.instances| && w.instances[j].status == Destroyed
    ensures |Do(w, clock, cmd).instances| == |w.instances| && Do(w, clock, cmd).instances[j].status == Destroyed
  {
    match cmd
    case CreateWindow(_, _, _, _, _) =>
    case CheckTrading(_, _) =>
    case EnforceAt(at, order, replies) => EnforceKeepsDestroyed(w, order, at, replies, j);
    case ExpireAt(k, cut, at, order, replies) =>
      if k < |w.subs| && w.subs[k].status == Open {
        EnforceKeepsDestroyed(Shortened(w, k, cut), order, at, replies, j);
      }
    case StartInstance(_, _) =>
    case SuspendInstance(_, _) =>
    case DestroyInstance(_, _) =>
  }

  lemma {:induction false} EnforceKeepsDestroyed(w: World, order: seq<nat>, now: int, replies: Replies, j: nat)
    requires InRange(order, |w.subs|) && j < |w.instances| && w.instances[j].status == Destroyed
    ensures ExpireAll(w, order, now, replies).instances[j] == w.instances[j]
  {
    if order != [] {
      EnforceKeepsDestroyed(w, order[..|order| - 1], now, replies, j);
    }
  }

  /** No run brings a destroyed instance back, whatever the provider answers. */
  lemma {:induction false} DestroyedIsForever(w: World, clock: int, cmds: seq<Command>, j: nat)
    requires LegalRun(w, clock, cmds) && j < |w.instances| && w.instances[j].status == Destroyed
    ensures j < |Final(w, clock, cmds).instances| && Final(w, clock, cmds).instances[j].status == Destroyed
    decreases |cmds|
  {
    if cmds != [] {
      DestroyedStep(w, clock, cmds[0], j);
      DestroyedIsForever(Do(w, clock, cmds[0]), Clock(clock, cmds[0]), cmds[1..], j);
    }
  }
}
