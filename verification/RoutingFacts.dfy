/** The decision told by the facts about the brokers: who is excluded and why, and who goes first. */
module RoutingFacts {
  import opened Common
  import opened Health
  import opened Routing

  // ---------------------------------------------------------------------------
  // The five checks
  // ---------------------------------------------------------------------------

  predicate LacksIp(f: Facts, q: Query) {
    q.requireIp && f.held.None?
  }

  predicate WrongRegion(f: Facts, q: Query) {
    q.region != "" && f.broker.allowedRegions != [] && q.region !in f.broker.allowedRegions
  }

  predicate WrongIpRegion(f: Facts, q: Query) {
    q.region != "" && f.held.Some? && f.held.value.region != q.region
  }

  /** No snapshot, an unhealthy one, or a score below the minimum. */
  predicate Ill(f: Facts, q: Query) {
    f.health.None? || f.health.value.status == Unhealthy || f.health.value.score < q.degradedMin
  }

  predicate OverLimit(f: Facts, q: Query) {
    !f.rate.allowed && q.rejects
  }

  predicate Fit(f: Facts, q: Query) {
    !LacksIp(f, q) && !WrongRegion(f, q) && !WrongIpRegion(f, q) && !Ill(f, q) && !OverLimit(f, q)
  }

  /** The first check that the broker does not pass. */
  predicate FailsWith(f: Facts, q: Query, reason: Reason) {
    match reason
    case NoAssignedIp => LacksIp(f, q)
    case RegionMismatch => !LacksIp(f, q) && WrongRegion(f, q)
    case RegionIpMismatch => !LacksIp(f, q) && !WrongRegion(f, q) && WrongIpRegion(f, q)
    case UnhealthyBroker => !LacksIp(f, q) && !WrongRegion(f, q) && !WrongIpRegion(f, q) && Ill(f, q)
    case RateLimited => !LacksIp(f, q) && !WrongRegion(f, q) && !WrongIpRegion(f, q) && !Ill(f, q) && OverLimit(f, q)
  }

  lemma JudgedBy(f: Facts, q: Query)
    ensures Evaluate(f, q).Eligible? <==> Fit(f, q)
    ensures forall reason :: Evaluate(f, q) == Out(Exclusion(f.broker.id, reason)) <==> FailsWith(f, q, reason)
    ensures if Fit(f, q) then Evaluate(f, q).candidate.broker == f.broker.id else Evaluate(f, q).exclusion.broker == f.broker.id
  {
  }

  /** A broker of the client that is enabled is in the chain exactly if it passes all checks, and is
      excluded for a reason exactly if that is the first check that it fails. */
  lemma PlacedBy(all: seq<Facts>, q: Query, f: Facts)
    requires DistinctBrokers(all) && f in all && f.broker.client == q.client && f.broker.enabled
    ensures (exists c :: c in Select(all, q).chain && c.broker == f.broker.id) <==> Fit(f, q)
    ensures forall reason :: Exclusion(f.broker.id, reason) in Select(all, q).excluded <==> FailsWith(f, q, reason)
  {
    DecisionIsRight(all, q);
    JudgedBy(f, q);
    assert IsAsked(all, q, f);
    if c :| c in Select(all, q).chain && c.broker == f.broker.id {
      var g :| IsAsked(all, q, g) && Evaluate(g, q) == Eligible(c);
      JudgedBy(g, q);
      OneRow(all, f, g);
    }
    if Fit(f, q) {
      assert Evaluate(f, q).candidate in Select(all, q).chain;
    }
    forall reason
      ensures Exclusion(f.broker.id, reason) in Select(all, q).excluded <==> FailsWith(f, q, reason)
    {
      var e := Exclusion(f.broker.id, reason);
      if e in Select(all, q).excluded {
        var g :| IsAsked(all, q, g) && Evaluate(g, q) == Out(e);
        JudgedBy(g, q);
        OneRow(all, f, g);
      }
    }
  }

  lemma OneRow(all: seq<Facts>, f: Facts, g: Facts)
    requires DistinctBrokers(all) && f in all && g in all && f.broker.id == g.broker.id
    ensures f == g
  {
    var i :| 0 <= i < |all| && all[i] == f;
    var j :| 0 <= j < |all| && all[j] == g;
    assert all[i].broker.id == all[j].broker.id;
  }

  /** Nobody else is named in the decision. */
  lemma OnlyAskedAreNamed(all: seq<Facts>, q: Query, id: nat)
    requires DistinctBrokers(all)
    requires (exists c :: c in Select(all, q).chain && c.broker == id) || (exists e :: e in Select(all, q).excluded && e.broker == id)
    ensures exists f :: f in all && f.broker.id == id && f.broker.client == q.client && f.broker.enabled
  {
    DecisionIsRight(all, q);
    if c :| c in Select(all, q).chain && c.broker == id {
      var f :| IsAsked(all, q, f) && Evaluate(f, q) == Eligible(c);
      JudgedBy(f, q);
      assert f.broker.id == id;
    } else {
      var e :| e in Select(all, q).excluded && e.broker == id;
      var f :| IsAsked(all, q, f) && Evaluate(f, q) == Out(e);
      JudgedBy(f, q);
      assert f.broker.id == id;
    }
  }

  // ---------------------------------------------------------------------------
  // Who goes first
  // ---------------------------------------------------------------------------

  /** What counts for a broker, given the pressure p on it. */
  function Points(f: Facts, q: Query, p: real): real
    requires f.health.Some?
  {
    f.health.value.score + 2.0 * f.broker.priority as real - p
    + (if q.preferred == Some(f.broker.id) then 15.0 else 0.0) + (if q.region == "" then 0.0 else 10.0)
  }

  /** The pressure reported, or at least 20 for a broker over its rate. */
  predicate IsPressure(f: Facts, p: real) {
    if f.rate.allowed || f.rate.pressure >= 20.0 then p == f.rate.pressure else p == 20.0
  }

  lemma ScoredBy(f: Facts, q: Query, p: real)
    requires Fit(f, q) && IsPressure(f, p)
    ensures Evaluate(f, q).Eligible? && Evaluate(f, q).candidate.score == Points(f, q, p)
  {
  }

  lemma {:induction false} AskedAt(all: seq<Facts>, client: nat, p: nat) returns (i: nat)
    requires p < |all| && all[p].broker.client == client && all[p].broker.enabled
    ensures i < |Asked(all, client)| && Asked(all, client)[i] == all[p]
  {
    if p == 0 {
      i := 0;
    } else {
      var i' := AskedAt(all[1..], client, p - 1);
      var head := if all[0].broker.client == client && all[0].broker.enabled then 1 else 0;
      i := i' + head;
    }
  }

  lemma {:induction false} AskedInOrder(all: seq<Facts>, client: nat, p: nat, r: nat) returns (i: nat, j: nat)
    requires p < r < |all|
    requires all[p].broker.client == client && all[p].broker.enabled && all[r].broker.client == client && all[r].broker.enabled
    ensures i < j < |Asked(all, client)| && Asked(all, client)[i] == all[p] && Asked(all, client)[j] == all[r]
  {
    if p == 0 {
      var j' := AskedAt(all[1..], client, r - 1);
      i, j := 0, j' + 1;
    } else {
      var i', j' := AskedInOrder(all[1..], client, p - 1, r - 1);
      var head := if all[0].broker.client == client && all[0].broker.enabled then 1 else 0;
      i, j := i' + head, j' + head;
    }
  }

  predicate Competes(f: Facts, q: Query) {
    f.broker.client == q.client && f.broker.enabled && Fit(f, q)
  }

  /** Of two brokers in the chain the preferred one is first; otherwise the one with more points, and of
      equals the one that is listed first. */
  lemma GoesFirst(all: seq<Facts>, q: Query, p: nat, r: nat, x: real, y: real)
    requires DistinctBrokers(all) && p < |all| && r < |all| && p != r
    requires Competes(all[p], q) && Competes(all[r], q) && IsPressure(all[p], x) && IsPressure(all[r], y)
    ensures var (a, b) := (all[p].broker.id, all[r].broker.id);
            Listed(Select(all, q).chain, a, b)
            <==> q.preferred == Some(a)
                 || (q.preferred != Some(b)
                     && (Points(all[p], q, x) > Points(all[r], q, y)
                         || (Points(all[p], q, x) == Points(all[r], q, y) && p < r)))
  {
    var fs := Asked(all, q.client);
    var vs := Verdicts(fs, q);
    DistinctVerdicts(all, q);
    var i, j;
    if p < r {
      i, j := AskedInOrder(all, q.client, p, r);
    } else {
      j, i := AskedInOrder(all, q.client, r, p);
    }
    JudgedBy(all[p], q);
    JudgedBy(all[r], q);
    ScoredBy(all[p], q, x);
    ScoredBy(all[r], q, y);
    assert vs[i] == Evaluate(all[p], q) && vs[j] == Evaluate(all[r], q);
    ChainOrder(vs, q.preferred, i, j);
  }

  /** What the chain says about a broker in it. */
  lemma CandidateTells(all: seq<Facts>, q: Query, f: Facts, c: Candidate)
    requires DistinctBrokers(all) && f in all && f.broker.client == q.client && f.broker.enabled
    requires c in Select(all, q).chain && c.broker == f.broker.id
    ensures Fit(f, q) && c.health == f.health.value && IsPressure(f, c.pressure) && c.score == Points(f, q, c.pressure)
    ensures c.ip == if f.held.Some? then Some(f.held.value.ip) else None
    ensures RegionMatch in c.tags <==> q.region != ""
    ensures OverRate in c.tags <==> !f.rate.allowed
    ensures PreferredSticky in c.tags <==> q.preferred == Some(f.broker.id)
  {
    DecisionIsRight(all, q);
    var g :| IsAsked(all, q, g) && Evaluate(g, q) == Eligible(c);
    JudgedBy(g, q);
    OneRow(all, f, g);
  }
}
