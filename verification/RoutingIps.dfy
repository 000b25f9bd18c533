/** The assigned IP that routing reads is the one of the assignment table. */
module RoutingIps {
  import opened Common
  import IpTables
  import OrderEngine
  import OrderRuns
  import Routing

  /** The join of a broker's active assignment with its static IP. */
  function Held(t: IpTables.Tables, broker: nat): Option<Routing.Assigned> {
    var a := IpTables.ActiveOf(t.assignments, broker, 0);
    if a.None? || t.assignments[a.value].ip !in t.ips then None
    else Some(Routing.Assigned(t.assignments[a.value].ip, t.ips[t.assignments[a.value].ip].region))
  }

  /** The facts were read from these tables. */
  ghost predicate ReadFrom(all: seq<Routing.Facts>, t: IpTables.Tables) {
    forall p :: 0 <= p < |all| ==> all[p].held == Held(t, all[p].broker.id)
  }

  /** The broker has an active assignment in the tables, and it is of this IP. */
  ghost predicate AssignedTo(t: IpTables.Tables, broker: nat, ip: nat) {
    exists i :: 0 <= i < |t.assignments| && t.assignments[i].broker == broker && t.assignments[i].ip == ip
                && t.assignments[i].status == IpTables.Active
                && IpTables.ActiveOf(t.assignments, broker, 0) == Some(i)
  }

  /** When an assigned IP is required, every broker in the chain of a decision goes out on the IP of its
      active assignment, in the tables that routing read. */
  lemma ChainUsesActiveAssignments(all: seq<Routing.Facts>, q: Routing.Query, t: IpTables.Tables, c: Routing.Candidate)
    requires q.requireIp && Routing.DistinctBrokers(all) && ReadFrom(all, t) && c in Routing.Select(all, q).chain
    ensures c.ip.Some? && AssignedTo(t, c.broker, c.ip.value)
  {
    Routing.ChainHolds(all, q, c);
    var f :| Routing.IsAsked(all, q, f) && Routing.Evaluate(f, q) == Routing.Eligible(c);
    Routing.EligibleHasIp(f, q);
    var p :| 0 <= p < |all| && all[p] == f;
    assert f.held == Held(t, f.broker.id);
    var a := IpTables.ActiveOf(t.assignments, f.broker.id, 0);
    assert t.assignments[a.value].ip == f.held.value.ip;
  }

  /** So does every attempt of a walk over that chain. */
  lemma AttemptsUseActiveAssignments(db: OrderEngine.Db, o: nat, all: seq<Routing.Facts>, q: Routing.Query,
                                     t: IpTables.Tables, replies: seq<OrderEngine.Reply>, i: nat)
    requires o in db.orders && q.requireIp && Routing.DistinctBrokers(all) && ReadFrom(all, t)
    requires |replies| == |Routing.Select(all, q).chain|
    requires var chain := Routing.Select(all, q).chain;
             |db.attempts| <= i < |OrderEngine.Walk(db, o, chain, replies, 0, "", OrderEngine.Enough(|chain|)).db.attempts|
    ensures var chain := Routing.Select(all, q).chain;
            var a := OrderEngine.Walk(db, o, chain, replies, 0, "", OrderEngine.Enough(|chain|)).db.attempts[i];
            a.ip.Some? && AssignedTo(t, a.broker, a.ip.value)
  {
    var chain := Routing.Select(all, q).chain;
    var n := OrderRuns.AttemptFromChain(db, o, chain, replies, i);
    ChainUsesActiveAssignments(all, q, t, chain[n]);
  }
}
