/** The serialized operations on orders are runs of the interleaved machine, crashes included. */
module OrderSolo {
  import opened Common
  import opened OrderEngine
  import opened OrderRuns
  import Races = OrderRaces

  /** Only call c works, with the order as it is stored. */
  function Working(db: Db, c: nat, o: nat, stage: Races.Stage): Races.State
    requires o in db.orders
  {
    Races.State(db, map[c := Races.Call(o, db.orders[o], stage)])
  }

  function Done(db: Db): Races.State {
    Races.State(db, map[])
  }

  lemma FirstStep(s: Races.State, a: Races.Action, rest: seq<Races.Action>)
    ensures Races.Exec(s, [a] + rest) == Races.Exec(Races.Step(s, a), rest)
  {
    assert ([a] + rest)[1..] == rest;
  }

  lemma LastStep(s: Races.State, a: Races.Action)
    ensures Races.Exec(s, [a]) == Races.Step(s, a)
  {
    FirstStep(s, a, []);
    assert [a] + [] == [a];
  }

  // One step of a call that works alone

  lemma CallMoves(c: nat, x: Races.Call, y: Races.Call)
    ensures map[c := x][c := y] == map[c := y] && map[c := x] - {c} == map[]
  {
  }

  lemma Drops(db: Db, c: nat, o: nat, stage: Races.Stage)
    requires o in db.orders
    ensures Races.Exec(Working(db, c, o, stage), [Races.Drop(c)]) == Done(db)
  {
    LastStep(Working(db, c, o, stage), Races.Drop(c));
  }

  lemma Submits(db: Db, c: nat, o: nat, chain: Chain, k: nat, last: string)
    requires o in db.orders && k < |chain|
    ensures Races.Step(Working(db, c, o, Races.At(chain, k, last)), Races.Submit(c))
            == Working(Send(db, o, chain[k], k), c, o, Races.Asking(chain, k, |db.attempts|))
  {
    var s := Working(db, c, o, Races.At(chain, k, last));
    var s' := Races.Step(s, Races.Submit(c));
    CallMoves(c, s.calls[c], s'.calls[c]);
  }

  lemma Denies(db: Db, c: nat, o: nat, chain: Chain, k: nat, last: string)
    requires o in db.orders && k < |chain|
    ensures var s := Working(db, c, o, Races.At(chain, k, last));
            && Races.Step(s, Races.Deny(c, true)) == Done(Fail(db, o, "RATE_LIMITED"))
            && Races.Step(s, Races.Deny(c, false)) == Working(db, c, o, Races.Onward(chain, k, "RATE_LIMITED"))
  {
    var s := Working(db, c, o, Races.At(chain, k, last));
    CallMoves(c, s.calls[c], Races.Step(s, Races.Deny(c, false)).calls[c]);
  }

  lemma GivesUp(db: Db, c: nat, o: nat, stage: Races.Stage)
    requires o in db.orders && (stage.Refused? || (stage.At? && stage.k >= |stage.chain|))
    ensures Races.Step(Working(db, c, o, stage), Races.GiveUp(c))
            == Done(Fail(db, o, if stage.Refused? then stage.code else FinalCode(stage.last)))
  {
    CallMoves(c, Working(db, c, o, stage).calls[c], Working(db, c, o, stage).calls[c]);
  }

  lemma Takes(db: Db, c: nat, o: nat, chain: Chain, k: nat, id: Option<string>)
    requires o in db.orders && k < |chain| && db.attempts != []
    ensures Races.Step(Working(db, c, o, Races.Asking(chain, k, |db.attempts| - 1)), Races.Take(c, id))
            == Done(Accept(db, o, chain[k], id))
  {
    var s := Working(db, c, o, Races.Asking(chain, k, |db.attempts| - 1));
    CallMoves(c, s.calls[c], s.calls[c]);
  }

  lemma Refuses(db: Db, c: nat, o: nat, chain: Chain, k: nat, code: string, retryable: bool)
    requires o in db.orders && k < |chain| && db.attempts != []
    ensures Races.Step(Working(db, c, o, Races.Asking(chain, k, |db.attempts| - 1)), Races.Refuse(c, code, retryable))
            == Working(Lose(db), c, o, if retryable then Races.Onward(chain, k, code) else Races.Refused(code))
  {
    var s := Working(db, c, o, Races.Asking(chain, k, |db.attempts| - 1));
    CallMoves(c, s.calls[c], Races.Step(s, Races.Refuse(c, code, retryable)).calls[c]);
  }

  lemma Hops(db: Db, c: nat, o: nat, chain: Chain, k: nat, reason: string)
    requires o in db.orders && k + 1 < |chain|
    ensures Races.Step(Working(db, c, o, Races.Hopping(chain, k, reason)), Races.Hop(c))
            == Working(NoteFailover(db, o, chain, k, reason), c, o, Races.At(chain, k + 1, reason))
  {
    var s := Working(db, c, o, Races.Hopping(chain, k, reason));
    CallMoves(c, s.calls[c], Races.Step(s, Races.Hop(c)).calls[c]);
  }

  lemma Routes(db: Db, c: nat, o: nat, chain: Chain)
    requires o in db.orders
    ensures Races.Step(Working(db, c, o, Races.Ready), Races.Route(c, chain)) == Working(db, c, o, Races.At(chain, 0, ""))
  {
    var s := Working(db, c, o, Races.Ready);
    CallMoves(c, s.calls[c], Races.Step(s, Races.Route(c, chain)).calls[c]);
  }

  lemma Examines(db: Db, c: nat, o: nat)
    requires o in db.orders
    ensures Races.Step(Working(db, c, o, Races.Loaded), Races.Examine(c))
            == Working(db, c, o, if Adoptable(db.attempts, o).Some? then Races.Adopting(Adoptable(db.attempts, o).value)
                                 else if db.orders[o].status == InDoubt then Races.Resetting else Races.Ready)
  {
    var s := Working(db, c, o, Races.Loaded);
    CallMoves(c, s.calls[c], Races.Step(s, Races.Examine(c)).calls[c]);
  }

  lemma Settles(db: Db, c: nat, o: nat, a: Attempt)
    requires o in db.orders
    ensures Races.Step(Working(db, c, o, Races.Adopting(a)), Races.Settle(c)) == Done(Adopt(db, o, a))
    ensures Races.Step(Working(db, c, o, Races.Resetting), Races.Settle(c))
            == Working(db.(orders := db.orders[o := db.orders[o].(status := Created)]), c, o, Races.Ready)
  {
    var s := Working(db, c, o, Races.Resetting);
    CallMoves(c, s.calls[c], Races.Step(s, Races.Settle(c)).calls[c]);
    CallMoves(c, Working(db, c, o, Races.Adopting(a)).calls[c], s.calls[c]);
  }

  /** A walk from position k on, cut off where its commits run out. */
  lemma {:induction false} WalkIsARun(db: Db, c: nat, o: nat, chain: Chain, replies: seq<Reply>, k: nat, last: string, budget: nat)
    returns (actions: seq<Races.Action>)
    requires o in db.orders && |replies| == |chain| && k <= |chain|
    ensures Races.Exec(Working(db, c, o, Races.At(chain, k, last)), actions)
            == Done(Walk(db, o, chain, replies, k, last, budget).db)
    decreases |chain| - k, 1
  {
    var s := Working(db, c, o, Races.At(chain, k, last));
    if k < |chain| && replies[k] == Denied(false) {
      Denies(db, c, o, chain, k, last);
      var rest := MoveOnIsARun(db, c, o, chain, replies, k, budget);
      actions := [Races.Deny(c, false)] + rest;
      FirstStep(s, Races.Deny(c, false), rest);
    } else if budget == 0 || (k < |chain| && replies[k].SessionFails?) {
      actions := [Races.Drop(c)];
      Drops(db, c, o, s.calls[c].stage);
    } else if k == |chain| {
      actions := [Races.GiveUp(c)];
      LastStep(s, Races.GiveUp(c));
      GivesUp(db, c, o, s.calls[c].stage);
    } else if replies[k].Denied? {
      actions := [Races.Deny(c, true)];
      LastStep(s, Races.Deny(c, true));
      Denies(db, c, o, chain, k, last);
    } else {
      Submits(db, c, o, chain, k, last);
      var rest := AskIsARun(Send(db, o, chain[k], k), c, o, chain, replies, k, budget - 1);
      actions := [Races.Submit(c)] + rest;
      FirstStep(s, Races.Submit(c), rest);
    }
  }

  lemma {:induction false} AskIsARun(db: Db, c: nat, o: nat, chain: Chain, replies: seq<Reply>, k: nat, budget: nat)
    returns (actions: seq<Races.Action>)
    requires o in db.orders && |replies| == |chain| && k < |chain| && db.attempts != [] && Asks(replies[k])
    ensures Races.Exec(Working(db, c, o, Races.Asking(chain, k, |db.attempts| - 1)), actions)
            == Done(Ask(db, o, chain, replies, k, budget).db)
    decreases |chain| - k, 0, 1
  {
    var s, r := Working(db, c, o, Races.Asking(chain, k, |db.attempts| - 1)), replies[k];
    if budget == 0 {
      actions := [Races.Drop(c)];
      Drops(db, c, o, s.calls[c].stage);
    } else if r.Accepts? {
      actions := [Races.Take(c, r.brokerOrderId)];
      LastStep(s, Races.Take(c, r.brokerOrderId));
      Takes(db, c, o, chain, k, r.brokerOrderId);
    } else {
      var retryable := !(r.Refuses? && !r.retryable);
      var a := Races.Refuse(c, ReasonOf(r), retryable);
      Refuses(db, c, o, chain, k, ReasonOf(r), retryable);
      var rest;
      if retryable {
        rest := MoveOnIsARun(Lose(db), c, o, chain, replies, k, budget - 1);
      } else {
        rest := RefusedIsARun(Lose(db), c, o, r.code, budget - 1);
      }
      actions := [a] + rest;
      FirstStep(s, a, rest);
    }
  }

  /** A hard refusal is recorded by one more commit. */
  lemma RefusedIsARun(db: Db, c: nat, o: nat, code: string, budget: nat) returns (actions: seq<Races.Action>)
    requires o in db.orders
    ensures Races.Exec(Working(db, c, o, Races.Refused(code)), actions) == Done(if budget == 0 then db else Fail(db, o, code))
  {
    var s := Working(db, c, o, Races.Refused(code));
    if budget == 0 {
      actions := [Races.Drop(c)];
      Drops(db, c, o, Races.Refused(code));
    } else {
      actions := [Races.GiveUp(c)];
      LastStep(s, Races.GiveUp(c));
      GivesUp(db, c, o, Races.Refused(code));
    }
  }

  lemma {:induction false} MoveOnIsARun(db: Db, c: nat, o: nat, chain: Chain, replies: seq<Reply>, k: nat, budget: nat)
    returns (actions: seq<Races.Action>)
    requires o in db.orders && |replies| == |chain| && k < |chain|
    ensures Races.Exec(Working(db, c, o, Races.Onward(chain, k, ReasonOf(replies[k]))), actions)
            == Done(MoveOn(db, o, chain, replies, k, budget).db)
    decreases |chain| - k, 0, 0
  {
    var reason := ReasonOf(replies[k]);
    var s := Working(db, c, o, Races.Onward(chain, k, reason));
    if k + 1 == |chain| {
      actions := WalkIsARun(db, c, o, chain, replies, k + 1, reason, budget);
    } else if budget == 0 {
      actions := [Races.Drop(c)];
      Drops(db, c, o, s.calls[c].stage);
    } else {
      Hops(db, c, o, chain, k, reason);
      var rest := WalkIsARun(NoteFailover(db, o, chain, k, reason), c, o, chain, replies, k + 1, reason, budget - 1);
      actions := [Races.Hop(c)] + rest;
      FirstStep(s, Races.Hop(c), rest);
    }
  }

  /** From a call that is ready on: a route and the walk, or no route. */
  lemma RoutedIsARun(db: Db, c: nat, o: nat, route: Option<Chain>, replies: seq<Reply>, budget: nat)
    returns (actions: seq<Races.Action>)
    requires o in db.orders && (route.Some? ==> |replies| == |route.value|)
    ensures Races.Exec(Working(db, c, o, Races.Ready), actions)
            == Done(if route.None? then db else Walk(db, o, route.value, replies, 0, "", budget).db)
  {
    if route.None? {
      actions := [Races.Drop(c)];
      Drops(db, c, o, Races.Ready);
    } else {
      Routes(db, c, o, route.value);
      var rest := WalkIsARun(db, c, o, route.value, replies, 0, "", budget);
      actions := [Races.Route(c, route.value)] + rest;
      FirstStep(Working(db, c, o, Races.Ready), Races.Route(c, route.value), rest);
    }
  }

  lemma PlaceIsARun(db: Db, c: nat, id: nat, client: nat, key: string, route: Option<Chain>, replies: seq<Reply>, budget: nat)
    returns (actions: seq<Races.Action>)
    requires route.Some? ==> |replies| == |route.value|
    ensures Races.Exec(Done(db), actions) == Done(Place(db, id, client, key, route, replies, budget))
  {
    actions := [];
    if id !in db.orders && !KeyTaken(db, client, key) && budget > 0 {
      var db1 := db.(orders := db.orders[id := NewOrder(id, client, key)]);
      var rest := RoutedIsARun(db1, c, id, route, replies, budget - 1);
      var a := Races.Insert(c, id, client, key);
      actions := [a] + rest;
      FirstStep(Done(db), a, rest);
      assert Races.Step(Done(db), a) == Working(db1, c, id, Races.Ready);
    }
  }

  /** A recovery that has read the order. */
  lemma LoadedIsARun(db: Db, c: nat, id: nat, route: Option<Chain>, replies: seq<Reply>, budget: nat)
    returns (actions: seq<Races.Action>)
    requires id in db.orders && !Terminal(db.orders[id].status) && budget > 0
    requires route.Some? ==> |replies| == |route.value|
    ensures Races.Exec(Working(db, c, id, Races.Loaded), actions) == Done(Recover(db, id, route, replies, budget))
  {
    var found, rest := Adoptable(db.attempts, id), [];
    if found.Some? {
      Settles(db, c, id, found.value);
      rest := [Races.Settle(c)];
      LastStep(Working(db, c, id, Races.Adopting(found.value)), Races.Settle(c));
    } else if db.orders[id].status == InDoubt {
      Settles(db, c, id, Attempt(id, 0, 0, None, Lost, None));
      var db1 := db.(orders := db.orders[id := db.orders[id].(status := Created)]);
      var routed := RoutedIsARun(db1, c, id, route, replies, budget - 1);
      rest := [Races.Settle(c)] + routed;
      FirstStep(Working(db, c, id, Races.Resetting), Races.Settle(c), routed);
    } else {
      rest := RoutedIsARun(db, c, id, route, replies, budget);
    }
    Examines(db, c, id);
    actions := [Races.Examine(c)] + rest;
    FirstStep(Working(db, c, id, Races.Loaded), Races.Examine(c), rest);
  }

  lemma RecoverIsARun(db: Db, c: nat, id: nat, route: Option<Chain>, replies: seq<Reply>, budget: nat)
    returns (actions: seq<Races.Action>)
    requires route.Some? ==> |replies| == |route.value|
    ensures Races.Exec(Done(db), actions) == Done(Recover(db, id, route, replies, budget))
  {
    actions := [];
    if id in db.orders && !Terminal(db.orders[id].status) && budget > 0 {
      var rest := LoadedIsARun(db, c, id, route, replies, budget);
      actions := [Races.Load(c, id)] + rest;
      FirstStep(Done(db), Races.Load(c, id), rest);
      assert Races.Step(Done(db), Races.Load(c, id)) == Working(db, c, id, Races.Loaded);
    }
  }

  /** Every serialized step, with a crash at any commit, is a run of the interleaved machine from and to a
      state in which nobody works. */
  lemma StepIsARun(db: Db, a: Action, c: nat) returns (actions: seq<Races.Action>)
    ensures Races.Exec(Done(db), actions) == Done(Step(db, a))
  {
    actions := [];
    match a
    case PlaceOrder(id, client, key, route, replies, budget) =>
      if route.None? || |replies| == |route.value| {
        actions := PlaceIsARun(db, c, id, client, key, route, replies, budget);
      }
    case RecoverOrder(id, route, replies, budget) =>
      if route.None? || |replies| == |route.value| {
        actions := RecoverIsARun(db, c, id, route, replies, budget);
      }
    case CancelOrder(id, agrees) =>
      actions := [Races.Cancel(id, agrees)];
      LastStep(Done(db), Races.Cancel(id, agrees));
    case MarkInDoubt(id) =>
      if id in db.orders && db.orders[id].status != Cancelled {
        actions := [Races.Mark(id, InDoubt)];
        LastStep(Done(db), Races.Mark(id, InDoubt));
      }
  }

  /** ... and so is every serialized run. */
  lemma {:induction false} RunIsARun(all: seq<Action>, c: nat) returns (actions: seq<Races.Action>)
    ensures Races.Exec(Races.START, actions) == Done(Run(all))
  {
    actions := [];
    if all != [] {
      var first := RunIsARun(all[..|all| - 1], c);
      var rest := StepIsARun(Run(all[..|all| - 1]), all[|all| - 1], c);
      Races.ExecMore(Races.START, first, rest);
      actions := first + rest;
    }
  }
}
