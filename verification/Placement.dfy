/** Concurrent placement: check-then-commit under a unique key, a semaphore and an in-flight counter.
    Each action is one uninterrupted stretch of one call; any interleaving is allowed. */
module Placement {
  import opened Common

  datatype Row = Row(id: nat, client: nat, key: string)

  datatype Stage =
    | Arrived
    | Missed
    | Counted
    | Conflicted
    | Inserted(id: nat)
    | Returned(id: nat, created: bool)
    | Raised

  datatype Call = Call(client: nat, key: string, stage: Stage)

  datatype State = State(rows: seq<Row>, calls: map<nat, Call>, permits: nat, inflight: int)

  datatype Action =
    | Arrive(call: nat, client: nat, key: string)
    | LookUp(call: nat)
    | Acquire(call: nat)
    | TimeOut(call: nat)
    | Insert(call: nat, id: nat)
    | SelectAgain(call: nat)
    | Submit(call: nat)
    | Fail(call: nat)

  predicate HasKey(rows: seq<Row>, client: nat, key: string) {
    exists i :: 0 <= i < |rows| && rows[i].client == client && rows[i].key == key
  }

  predicate HasId(rows: seq<Row>, id: nat) {
    exists i :: 0 <= i < |rows| && rows[i].id == id
  }

  /** `scalar_one_or_none` on the key: the first row found. */
  function Find(rows: seq<Row>, client: nat, key: string): Option<Row> {
    if rows == [] then None
    else if rows[0].client == client && rows[0].key == key then Some(rows[0])
    else Find(rows[1..], client, key)
  }

  function Move(s: State, c: nat, stage: Stage): State
    requires c in s.calls
  {
    s.(calls := s.calls[c := s.calls[c].(stage := stage)])
  }

  /** The two finally-blocks: the clamped decrement, then the release. */
  function Leave(s: State, c: nat, stage: Stage): State
    requires c in s.calls
  {
    Move(s, c, stage).(permits := s.permits + 1, inflight := if s.inflight - 1 > 0 then s.inflight - 1 else 0)
  }

  predicate At(s: State, c: nat, stage: Stage) {
    c in s.calls && s.calls[c].stage == stage
  }

  /** Between acquiring the permit and leaving. */
  predicate Holds(stage: Stage) {
    stage == Counted || stage == Conflicted || stage.Inserted?
  }

  function Step(s: State, a: Action): State {
    match a
    case Arrive(c, client, key) =>
      if c in s.calls then s else s.(calls := s.calls[c := Call(client, key, Arrived)])
    case LookUp(c) =>
      if !At(s, c, Arrived) then s
      else
        var prior := Find(s.rows, s.calls[c].client, s.calls[c].key);
        Move(s, c, if prior.Some? then Returned(prior.value.id, false) else Missed)
    case Acquire(c) =>
      if !At(s, c, Missed) || s.permits == 0 then s
      else Move(s, c, Counted).(permits := s.permits - 1, inflight := s.inflight + 1)
    case TimeOut(c) =>
      if !At(s, c, Missed) then s else Move(s, c, Raised)
    case Insert(c, id) =>
      if !At(s, c, Counted) || HasId(s.rows, id) then s
      else if HasKey(s.rows, s.calls[c].client, s.calls[c].key) then Move(s, c, Conflicted)
      else Move(s, c, Inserted(id)).(rows := s.rows + [Row(id, s.calls[c].client, s.calls[c].key)])
    case SelectAgain(c) =>
      if !At(s, c, Conflicted) then s
      else
        var prior := Find(s.rows, s.calls[c].client, s.calls[c].key);
        Leave(s, c, if prior.Some? then Returned(prior.value.id, false) else Raised)
    case Submit(c) =>
      if !(c in s.calls && s.calls[c].stage.Inserted?) then s
      else Leave(s, c, Returned(s.calls[c].stage.id, true))
    case Fail(c) =>
      if c !in s.calls || s.calls[c].stage.Returned? || s.calls[c].stage == Raised then s
      else if Holds(s.calls[c].stage) then Leave(s, c, Raised)
      else Move(s, c, Raised)
  }

  function Exec(actions: seq<Action>, max: nat): State {
    if actions == [] then State([], map[], max, 0)
    else Step(Exec(actions[..|actions| - 1], max), actions[|actions| - 1])
  }

  // ---------------------------------------------------------------------------
  // What every step keeps
  // ---------------------------------------------------------------------------

  function Holders(s: State): set<nat> {
    set c | c in s.calls && Holds(s.calls[c].stage)
  }

  ghost predicate CountInv(s: State, max: nat) {
    s.inflight == |Holders(s)| && s.permits + |Holders(s)| == max
  }

  ghost predicate UniqueRows(rows: seq<Row>) {
    forall i, j :: 0 <= i < j < |rows| ==>
      rows[i].id != rows[j].id && !(rows[i].client == rows[j].client && rows[i].key == rows[j].key)
  }

  ghost predicate Stored(s: State, c: nat, id: nat)
    requires c in s.calls
  {
    Row(id, s.calls[c].client, s.calls[c].key) in s.rows
  }

  /** The call that inserted a row, whether or not it has returned yet. */
  predicate Creates(stage: Stage, id: nat) {
    stage == Inserted(id) || stage == Returned(id, true)
  }

  ghost predicate CallInv(s: State) {
    && (forall c :: c in s.calls && s.calls[c].stage.Inserted? ==> Stored(s, c, s.calls[c].stage.id))
    && (forall c :: c in s.calls && s.calls[c].stage.Returned? ==> Stored(s, c, s.calls[c].stage.id))
    && (forall c, d, id :: c in s.calls && d in s.calls && c != d && Creates(s.calls[c].stage, id) ==>
          !Creates(s.calls[d].stage, id))
    && (forall c :: c in s.calls && s.calls[c].stage == Conflicted ==> HasKey(s.rows, s.calls[c].client, s.calls[c].key))
  }

  lemma {:induction false} FindFinds(rows: seq<Row>, client: nat, key: string)
    ensures if HasKey(rows, client, key)
            then Find(rows, client, key).Some? && Find(rows, client, key).value in rows
                 && Find(rows, client, key).value.client == client && Find(rows, client, key).value.key == key
            else Find(rows, client, key) == None
  {
    if rows != [] {
      FindFinds(rows[1..], client, key);
      if !(rows[0].client == client && rows[0].key == key) {
        if i :| 0 <= i < |rows| && rows[i].client == client && rows[i].key == key {
          assert rows[1..][i - 1] == rows[i];
        }
        if i :| 0 <= i < |rows[1..]| && rows[1..][i].client == client && rows[1..][i].key == key {
          assert rows[i + 1] == rows[1..][i];
        }
      }
    }
  }

  lemma HoldersMove(s: State, c: nat, stage: Stage)
    requires c in s.calls
    ensures var s' := Move(s, c, stage);
            Holders(s') == if Holds(stage) then Holders(s) + {c} else Holders(s) - {c}
    ensures c in Holders(s) <==> Holds(s.calls[c].stage)
  {
  }

  lemma LeaveCounts(s: State, c: nat, stage: Stage, max: nat)
    requires CountInv(s, max) && c in s.calls && Holds(s.calls[c].stage) && !Holds(stage)
    ensures CountInv(Leave(s, c, stage), max)
  {
    HoldersMove(s, c, stage);
    assert Holders(Leave(s, c, stage)) == Holders(Move(s, c, stage));
  }

  lemma MoveCounts(s: State, s': State, c: nat, stage: Stage, max: nat)
    requires CountInv(s, max) && c in s.calls && Holds(s.calls[c].stage) == Holds(stage)
    requires s'.calls == Move(s, c, stage).calls && s'.permits == s.permits && s'.inflight == s.inflight
    ensures CountInv(s', max)
  {
    HoldersMove(s, c, stage);
    assert Holders(s') == Holders(Move(s, c, stage)) == Holders(s);
  }

  lemma AcquireCounts(s: State, c: nat, max: nat)
    requires CountInv(s, max) && At(s, c, Missed) && s.permits > 0
    ensures CountInv(Step(s, Acquire(c)), max)
  {
    HoldersMove(s, c, Counted);
    assert Holders(Step(s, Acquire(c))) == Holders(Move(s, c, Counted));
  }

  lemma CountInvStep(s: State, a: Action, max: nat)
    requires CountInv(s, max)
    ensures CountInv(Step(s, a), max)
  {
    var s', c := Step(s, a), a.call;
    if a.Arrive? || c !in s.calls || s' == s {
      assert Holders(s') == Holders(s);
    } else if a.Acquire? {
      AcquireCounts(s, c, max);
    } else if Holds(s.calls[c].stage) && !Holds(s'.calls[c].stage) {
      LeaveCounts(s, c, s'.calls[c].stage, max);
    } else {
      MoveCounts(s, s', c, s'.calls[c].stage, max);
    }
  }

  /** A call that leaves finds the counter above zero: the clamp never changes the result. */
  lemma ClampNeverFires(s: State, c: nat, max: nat)
    requires CountInv(s, max) && c in s.calls && Holds(s.calls[c].stage)
    ensures 1 <= s.inflight <= max && Leave(s, c, Raised).inflight == s.inflight - 1
  {
    assert c in Holders(s);
  }

  lemma RowsInvStep(s: State, a: Action)
    requires UniqueRows(s.rows)
    ensures UniqueRows(Step(s, a).rows) && s.rows <= Step(s, a).rows
  {
  }

  lemma CallInvStep(s: State, a: Action)
    requires UniqueRows(s.rows) && CallInv(s)
    ensures CallInv(Step(s, a))
  {
    RowsInvStep(s, a);
    var s' := Step(s, a);
    if a.call in s.calls {
      FindFinds(s.rows, s.calls[a.call].client, s.calls[a.call].key);
    }
    forall c | c in s'.calls
      ensures s'.calls[c].stage.Inserted? ==> Stored(s', c, s'.calls[c].stage.id)
      ensures s'.calls[c].stage.Returned? ==> Stored(s', c, s'.calls[c].stage.id)
      ensures s'.calls[c].stage == Conflicted ==> HasKey(s'.rows, s'.calls[c].client, s'.calls[c].key)
    {
      CallStep(s, a, c);
    }
    OneCreatorStep(s, a);
  }

  lemma CallStep(s: State, a: Action, c: nat)
    requires UniqueRows(s.rows) && CallInv(s) && c in Step(s, a).calls
    ensures var s' := Step(s, a);
            && (s'.calls[c].stage.Inserted? ==> Stored(s', c, s'.calls[c].stage.id))
            && (s'.calls[c].stage.Returned? ==> Stored(s', c, s'.calls[c].stage.id))
            && (s'.calls[c].stage == Conflicted ==> HasKey(s'.rows, s'.calls[c].client, s'.calls[c].key))
  {
    RowsInvStep(s, a);
    var s' := Step(s, a);
    if c in s.calls {
      var call := s.calls[c];
      FindFinds(s.rows, call.client, call.key);
      if HasKey(s.rows, call.client, call.key) {
        KeyStays(s.rows, s'.rows, call.client, call.key);
      }
      if call.stage.Inserted? || call.stage.Returned? {
        assert Stored(s, c, call.stage.id);
        RowStays(s.rows, s'.rows, Row(call.stage.id, call.client, call.key));
      }
    }
  }

  lemma KeyStays(rows: seq<Row>, rows': seq<Row>, client: nat, key: string)
    requires rows <= rows' && HasKey(rows, client, key)
    ensures HasKey(rows', client, key)
  {
    var i :| 0 <= i < |rows| && rows[i].client == client && rows[i].key == key;
    assert rows'[i] == rows[i];
  }

  lemma RowStays(rows: seq<Row>, rows': seq<Row>, row: Row)
    requires rows <= rows' && row in rows
    ensures row in rows'
  {
    var i :| 0 <= i < |rows| && rows[i] == row;
    assert rows'[i] == rows[i];
  }

  lemma OneCreatorStep(s: State, a: Action)
    requires UniqueRows(s.rows) && CallInv(s)
    ensures var s' := Step(s, a);
            forall c, d, id :: c in s'.calls && d in s'.calls && c != d && Creates(s'.calls[c].stage, id) ==>
              !Creates(s'.calls[d].stage, id)
  {
    var s' := Step(s, a);
    forall c, d, id | c in s'.calls && d in s'.calls && c != d && Creates(s'.calls[c].stage, id)
      ensures !Creates(s'.calls[d].stage, id)
    {
      if Creates(s'.calls[d].stage, id) {
        CreatedBefore(s, a, c, id);
        CreatedBefore(s, a, d, id);
      }
    }
  }

  /** A creator of `id` after a step was one before, unless the step inserted it just now under an id
      that no row had. */
  lemma CreatedBefore(s: State, a: Action, c: nat, id: nat)
    requires CallInv(s) && c in Step(s, a).calls && Creates(Step(s, a).calls[c].stage, id)
    ensures c in s.calls
    ensures Creates(s.calls[c].stage, id) || (a == Insert(c, id) && !HasId(s.rows, id))
    ensures Creates(s.calls[c].stage, id) ==> HasId(s.rows, id)
  {
    if Creates(s.calls[c].stage, id) {
      assert Stored(s, c, id);
      var i :| 0 <= i < |s.rows| && s.rows[i] == Row(id, s.calls[c].client, s.calls[c].key);
      assert s.rows[i].id == id;
    }
  }

  lemma {:induction false} InvHolds(actions: seq<Action>, max: nat)
    ensures var s := Exec(actions, max);
            CountInv(s, max) && UniqueRows(s.rows) && CallInv(s)
  {
    if actions == [] {
      assert Holders(Exec([], max)) == {};
    } else {
      var s := Exec(actions[..|actions| - 1], max);
      var a := actions[|actions| - 1];
      InvHolds(actions[..|actions| - 1], max);
      CountInvStep(s, a, max);
      RowsInvStep(s, a);
      CallInvStep(s, a);
    }
  }

  /** The row is stored, and no other row has its key. */
  ghost predicate OnlyRow(rows: seq<Row>, row: Row) {
    exists i :: 0 <= i < |rows| && rows[i] == row
      && forall j :: 0 <= j < |rows| && j != i ==> !(rows[j].client == row.client && rows[j].key == row.key)
  }

  /** In every interleaving, calls for one key share one row: every call that returns yields it, and
      at most one of them reports that it created it. */
  lemma {:induction false} PlacementIsIdempotent(actions: seq<Action>, max: nat, c: nat, d: nat)
    requires var s := Exec(actions, max);
             && c in s.calls && d in s.calls && s.calls[c].stage.Returned? && s.calls[d].stage.Returned?
             && s.calls[c].client == s.calls[d].client && s.calls[c].key == s.calls[d].key
    ensures var s := Exec(actions, max);
            && s.calls[c].stage.id == s.calls[d].stage.id
            && (c != d ==> !(s.calls[c].stage.created && s.calls[d].stage.created))
            && OnlyRow(s.rows, Row(s.calls[c].stage.id, s.calls[c].client, s.calls[c].key))
  {
    InvHolds(actions, max);
    var s := Exec(actions, max);
    assert Stored(s, c, s.calls[c].stage.id) && Stored(s, d, s.calls[d].stage.id);
    var i :| 0 <= i < |s.rows| && s.rows[i] == Row(s.calls[c].stage.id, s.calls[c].client, s.calls[c].key);
    var j :| 0 <= j < |s.rows| && s.rows[j] == Row(s.calls[d].stage.id, s.calls[d].client, s.calls[d].key);
    assert i == j;
    if s.calls[c].stage.created {
      assert Creates(s.calls[c].stage, s.calls[c].stage.id);
    }
  }

  /** The counter is the number of permits held, never above the maximum, and a conflict always finds
      the row it conflicted with. */
  lemma CounterMatchesPermits(actions: seq<Action>, max: nat)
    ensures var s := Exec(actions, max);
            && 0 <= s.inflight <= max && s.inflight == |Holders(s)| && s.permits == max - s.inflight
            && (forall c :: c in s.calls && s.calls[c].stage == Conflicted ==>
                  Step(s, SelectAgain(c)).calls[c].stage.Returned?)
  {
    InvHolds(actions, max);
    var s := Exec(actions, max);
    forall c | c in s.calls && s.calls[c].stage == Conflicted
      ensures Step(s, SelectAgain(c)).calls[c].stage.Returned?
    {
      FindFinds(s.rows, s.calls[c].client, s.calls[c].key);
    }
  }
}
