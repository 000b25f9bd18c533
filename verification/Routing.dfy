/** Route selection: filter the client's brokers, score them, sort stably, pin the preferred one. */
module Routing {
  import opened Common
  import opened Health

  datatype Broker = Broker(id: nat, client: nat, enabled: bool, allowedRegions: seq<string>, priority: int)

  /** The broker's active assignment joined with its static IP. */
  datatype Assigned = Assigned(ip: nat, region: string)

  datatype Reading = Reading(score: real, status: Status)

  datatype RateView = RateView(allowed: bool, pressure: real)

  /** One broker and everything the selection reads about it. */
  datatype Facts = Facts(broker: Broker, held: Option<Assigned>, health: Option<Reading>, rate: RateView)

  /** An empty region stands for no preference. */
  datatype Query = Query(
    client: nat,
    preferred: Option<nat>,
    region: string,
    degradedMin: real,
    requireIp: bool,
    rejects: bool)

  datatype Reason = NoAssignedIp | RegionMismatch | RegionIpMismatch | UnhealthyBroker | RateLimited

  datatype Tag = RegionMatch | OverRate | PreferredSticky

  datatype Candidate = Candidate(
    broker: nat,
    ip: Option<nat>,
    health: Reading,
    pressure: real,
    score: real,
    tags: seq<Tag>)

  datatype Exclusion = Exclusion(broker: nat, reason: Reason)

  datatype Verdict = Eligible(candidate: Candidate) | Out(exclusion: Exclusion)

  datatype Decision = Decision(primary: Option<Candidate>, chain: seq<Candidate>, excluded: seq<Exclusion>)

  function HealthOf(f: Facts): Reading {
    if f.health.Some? then f.health.value else Reading(0.0, Unhealthy)
  }

  function PressureOf(f: Facts): real {
    if f.rate.allowed || f.rate.pressure > 20.0 then f.rate.pressure else 20.0
  }

  function RouteScore(f: Facts, q: Query): real {
    HealthOf(f).score + f.broker.priority as real * 2.0 - PressureOf(f)
    + (if q.preferred == Some(f.broker.id) then 15.0 else 0.0)
    + (if q.region != "" then 10.0 else 0.0)
  }

  function Evaluate(f: Facts, q: Query): Verdict {
    var id := f.broker.id;
    if q.requireIp && f.held.None? then Out(Exclusion(id, NoAssignedIp))
    else if q.region != "" && f.broker.allowedRegions != [] && q.region !in f.broker.allowedRegions then
      Out(Exclusion(id, RegionMismatch))
    else if q.region != "" && f.held.Some? && f.held.value.region != q.region then
      Out(Exclusion(id, RegionIpMismatch))
    else if HealthOf(f).status == Unhealthy || HealthOf(f).score < q.degradedMin then
      Out(Exclusion(id, UnhealthyBroker))
    else if !f.rate.allowed && q.rejects then Out(Exclusion(id, RateLimited))
    else
      Eligible(Candidate(id, if f.held.Some? then Some(f.held.value.ip) else None,
                         HealthOf(f), PressureOf(f), RouteScore(f, q),
                         (if q.region != "" then [RegionMatch] else [])
                         + (if f.rate.allowed then [] else [OverRate])
                         + (if q.preferred == Some(id) then [PreferredSticky] else [])))
  }

  /** The client's enabled brokers. */
  function Asked(all: seq<Facts>, client: nat): seq<Facts> {
    if all == [] then []
    else (if all[0].broker.client == client && all[0].broker.enabled then [all[0]] else []) + Asked(all[1..], client)
  }

  function Verdicts(fs: seq<Facts>, q: Query): seq<Verdict> {
    seq(|fs|, i requires 0 <= i < |fs| => Evaluate(fs[i], q))
  }

  function Candidates(vs: seq<Verdict>): seq<Candidate> {
    if vs == [] then []
    else (if vs[0].Eligible? then [vs[0].candidate] else []) + Candidates(vs[1..])
  }

  function Exclusions(vs: seq<Verdict>): seq<Exclusion> {
    if vs == [] then []
    else (if vs[0].Out? then [vs[0].exclusion] else []) + Exclusions(vs[1..])
  }

  /** Insert before the first candidate that does not score higher. */
  function Insert(c: Candidate, s: seq<Candidate>): seq<Candidate> {
    if s == [] || c.score >= s[0].score then [c] + s else [s[0]] + Insert(c, s[1..])
  }

  /** Stable sort by descending score. */
  function Sort(s: seq<Candidate>): seq<Candidate> {
    if s == [] then [] else Insert(s[0], Sort(s[1..]))
  }

  function Find(s: seq<Candidate>, id: nat): Option<Candidate> {
    if s == [] then None else if s[0].broker == id then Some(s[0]) else Find(s[1..], id)
  }

  function Without(s: seq<Candidate>, id: nat): seq<Candidate> {
    if s == [] then [] else (if s[0].broker != id then [s[0]] else []) + Without(s[1..], id)
  }

  function Primary(sorted: seq<Candidate>, preferred: Option<nat>): Option<Candidate> {
    var pinned := if preferred.Some? then Find(sorted, preferred.value) else None;
    if pinned.Some? then pinned else if sorted == [] then None else Some(sorted[0])
  }

  function Chain(sorted: seq<Candidate>, preferred: Option<nat>): seq<Candidate> {
    var primary := Primary(sorted, preferred);
    if primary.None? then [] else [primary.value] + Without(sorted, primary.value.broker)
  }

  function Select(all: seq<Facts>, q: Query): Decision {
    var vs := Verdicts(Asked(all, q.client), q);
    var sorted := Sort(Candidates(vs));
    Decision(Primary(sorted, q.preferred), Chain(sorted, q.preferred), Exclusions(vs))
  }

  lemma OneMoreVerdict(vs: seq<Verdict>, i: nat)
    requires i < |vs|
    ensures Candidates(vs[i..]) == (if vs[i].Eligible? then [vs[i].candidate] else []) + Candidates(vs[i + 1..])
    ensures Exclusions(vs[i..]) == (if vs[i].Out? then [vs[i].exclusion] else []) + Exclusions(vs[i + 1..])
  {
    assert vs[i..][1..] == vs[i + 1..];
  }

  method Filter(fs: seq<Facts>, q: Query) returns (candidates: seq<Candidate>, excluded: seq<Exclusion>)
    ensures candidates == Candidates(Verdicts(fs, q)) && excluded == Exclusions(Verdicts(fs, q))
  {
    ghost var vs := Verdicts(fs, q);
    candidates, excluded := [], [];
    for i := 0 to |fs|
      invariant candidates + Candidates(vs[i..]) == Candidates(vs)
      invariant excluded + Exclusions(vs[i..]) == Exclusions(vs)
    {
      var v := Evaluate(fs[i], q);
      OneMoreVerdict(vs, i);
      if v.Eligible? {
        assert candidates + ([v.candidate] + Candidates(vs[i + 1..])) == candidates + [v.candidate] + Candidates(vs[i + 1..]);
        candidates := candidates + [v.candidate];
      } else {
        assert excluded + ([v.exclusion] + Exclusions(vs[i + 1..])) == excluded + [v.exclusion] + Exclusions(vs[i + 1..]);
        excluded := excluded + [v.exclusion];
      }
    }
    assert vs[|fs|..] == [];
  }

  method PickPrimary(candidates: seq<Candidate>, preferred: Option<nat>) returns (primary: Option<Candidate>)
    ensures primary == Primary(candidates, preferred)
  {
    primary := None;
    if preferred.Some? {
      var i := 0;
      while i < |candidates| && primary.None?
        invariant i <= |candidates|
        invariant Find(candidates, preferred.value)
                  == if primary.Some? then primary else Find(candidates[i..], preferred.value)
      {
        if candidates[i].broker == preferred.value {
          primary := Some(candidates[i]);
        }
        i := i + 1;
      }
    }
    if primary.None? && candidates != [] {
      primary := Some(candidates[0]);
    }
  }

  method BuildChain(candidates: seq<Candidate>, preferred: Option<nat>)
    returns (primary: Option<Candidate>, chain: seq<Candidate>)
    ensures primary == Primary(candidates, preferred) && chain == Chain(candidates, preferred)
  {
    primary := PickPrimary(candidates, preferred);
    chain := [];
    if primary.Some? {
      chain := [primary.value];
      for i := 0 to |candidates|
        invariant chain + Without(candidates[i..], primary.value.broker)
                  == [primary.value] + Without(candidates, primary.value.broker)
      {
        assert candidates[i..][1..] == candidates[i + 1..];
        if candidates[i].broker != primary.value.broker {
          chain := chain + [candidates[i]];
        }
      }
    }
  }

  /** The selection as the engine runs it: fill two lists, sort, scan for the primary, build the chain. */
  method SelectRoute(all: seq<Facts>, q: Query) returns (d: Decision)
    ensures d == Select(all, q)
  {
    var candidates, excluded := Filter(Asked(all, q.client), q);
    candidates := Sort(candidates);
    var primary, chain := BuildChain(candidates, q.preferred);
    d := Decision(primary, chain, excluded);
  }

  // ---------------------------------------------------------------------------
  // Who is in
  // ---------------------------------------------------------------------------

  function IdOf(v: Verdict): nat {
    match v
    case Eligible(c) => c.broker
    case Out(e) => e.broker
  }

  function Ids(vs: seq<Verdict>): multiset<nat> {
    if vs == [] then multiset{} else multiset{IdOf(vs[0])} + Ids(vs[1..])
  }

  function CandidateIds(s: seq<Candidate>): multiset<nat> {
    if s == [] then multiset{} else multiset{s[0].broker} + CandidateIds(s[1..])
  }

  function ExcludedIds(s: seq<Exclusion>): multiset<nat> {
    if s == [] then multiset{} else multiset{s[0].broker} + ExcludedIds(s[1..])
  }

  lemma OneMoreCandidate(c: Candidate, cs: seq<Candidate>)
    ensures CandidateIds([c] + cs) == multiset{c.broker} + CandidateIds(cs)
  {
    assert ([c] + cs)[1..] == cs;
  }

  lemma OneMoreExcluded(e: Exclusion, es: seq<Exclusion>)
    ensures ExcludedIds([e] + es) == multiset{e.broker} + ExcludedIds(es)
  {
    assert ([e] + es)[1..] == es;
  }

  /** Every broker that is judged is exactly once a candidate or excluded, under its own id. */
  lemma {:induction false} CandidatesAndExclusionsPartition(vs: seq<Verdict>)
    ensures CandidateIds(Candidates(vs)) + ExcludedIds(Exclusions(vs)) == Ids(vs)
  {
    if vs != [] {
      CandidatesAndExclusionsPartition(vs[1..]);
      var cs, es := Candidates(vs[1..]), Exclusions(vs[1..]);
      match vs[0]
      case Eligible(c) =>
        OneMoreCandidate(c, cs);
        assert Candidates(vs) == [c] + cs && Exclusions(vs) == es;
      case Out(e) =>
        OneMoreExcluded(e, es);
        assert Candidates(vs) == cs && Exclusions(vs) == [e] + es;
    }
  }

  lemma VerdictNamesItsBroker(f: Facts, q: Query)
    ensures IdOf(Evaluate(f, q)) == f.broker.id
  {
  }

  lemma {:induction false} AskedExactly(all: seq<Facts>, client: nat, f: Facts)
    ensures multiset(Asked(all, client))[f]
            == if f.broker.client == client && f.broker.enabled then multiset(all)[f] else 0
  {
    if all != [] {
      AskedExactly(all[1..], client, f);
      assert all == [all[0]] + all[1..];
      var rest := Asked(all[1..], client);
      assert multiset([all[0]] + rest) == multiset{all[0]} + multiset(rest);
    }
  }

  // ---------------------------------------------------------------------------
  // The order of the chain
  // ---------------------------------------------------------------------------

  /** Candidate c is the verdict on the broker at position p. */
  ghost predicate From(vs: seq<Verdict>, p: nat, c: Candidate) {
    p < |vs| && vs[p] == Eligible(c)
  }

  /** a ranks before b: by score, ties by the order of the brokers. */
  ghost predicate Ranked(vs: seq<Verdict>, a: Candidate, b: Candidate) {
    exists p: nat, r: nat ::
      From(vs, p, a) && From(vs, r, b) && (a.score > b.score || (a.score == b.score && p < r))
  }

  ghost predicate InRankOrder(vs: seq<Verdict>, s: seq<Candidate>) {
    forall i, j :: 0 <= i < j < |s| ==> Ranked(vs, s[i], s[j])
  }

  lemma RankedInTail(vs: seq<Verdict>, a: Candidate, b: Candidate)
    requires vs != [] && Ranked(vs[1..], a, b)
    ensures Ranked(vs, a, b)
  {
    var p: nat, r: nat :| From(vs[1..], p, a) && From(vs[1..], r, b)
                          && (a.score > b.score || (a.score == b.score && p < r));
    assert From(vs, p + 1, a) && From(vs, r + 1, b);
  }

  lemma {:induction false} MembersComeFrom(vs: seq<Verdict>, c: Candidate)
    ensures c in Candidates(vs) <==> exists p: nat :: From(vs, p, c)
  {
    if vs != [] {
      MembersComeFrom(vs[1..], c);
      if c in Candidates(vs) {
        if vs[0] == Eligible(c) {
          assert From(vs, 0, c);
        } else {
          var p: nat :| From(vs[1..], p, c);
          assert From(vs, p + 1, c);
        }
      }
      if p: nat :| From(vs, p, c) {
        if p > 0 {
          assert From(vs[1..], p - 1, c);
        }
      }
    }
  }

  lemma {:induction false} InsertAdds(c: Candidate, s: seq<Candidate>)
    ensures multiset(Insert(c, s)) == multiset(s) + multiset{c}
  {
    if s != [] && c.score < s[0].score {
      InsertAdds(c, s[1..]);
      assert s == [s[0]] + s[1..];
      assert multiset([s[0]] + Insert(c, s[1..])) == multiset{s[0]} + multiset(Insert(c, s[1..]));
    }
  }

  lemma {:induction false} InsertRanks(vs: seq<Verdict>, c: Candidate, s: seq<Candidate>)
    requires InRankOrder(vs, s)
    requires forall x :: x in s ==> if x.score > c.score then Ranked(vs, x, c) else Ranked(vs, c, x)
    ensures InRankOrder(vs, Insert(c, s))
  {
    if s == [] {
    } else if c.score >= s[0].score {
      forall j | 0 <= j < |s|
        ensures Ranked(vs, c, s[j])
      {
        assert j > 0 ==> Ranked(vs, s[0], s[j]);
      }
    } else {
      InsertRanks(vs, c, s[1..]);
      InsertAdds(c, s[1..]);
      assert s == [s[0]] + s[1..];
      var t := Insert(c, s[1..]);
      forall j | 0 <= j < |t|
        ensures Ranked(vs, s[0], t[j])
      {
        assert t[j] in multiset(t);
        if t[j] != c {
          var i :| 0 <= i < |s[1..]| && s[1..][i] == t[j];
          assert s[i + 1] == t[j];
        }
      }
    }
  }

  lemma {:induction false} SortPermutes(s: seq<Candidate>)
    ensures multiset(Sort(s)) == multiset(s)
  {
    if s != [] {
      SortPermutes(s[1..]);
      InsertAdds(s[0], Sort(s[1..]));
      assert s == [s[0]] + s[1..];
    }
  }

  /** The sorted list is the candidates, in rank order. */
  lemma {:induction false} SortedIsRanked(vs: seq<Verdict>)
    ensures multiset(Sort(Candidates(vs))) == multiset(Candidates(vs))
    ensures InRankOrder(vs, Sort(Candidates(vs)))
  {
    SortPermutes(Candidates(vs));
    if vs != [] {
      var rest, s := Candidates(vs[1..]), Sort(Candidates(vs[1..]));
      SortedIsRanked(vs[1..]);
      forall i, j | 0 <= i < j < |s|
        ensures Ranked(vs, s[i], s[j])
      {
        RankedInTail(vs, s[i], s[j]);
      }
      if vs[0].Eligible? {
        var c := vs[0].candidate;
        assert ([c] + rest)[1..] == rest;
        FirstAgainstRest(vs, s);
        InsertRanks(vs, c, s);
      } else {
        assert [] + rest == rest;
      }
    }
  }

  lemma FirstAgainstRest(vs: seq<Verdict>, s: seq<Candidate>)
    requires vs != [] && vs[0].Eligible? && multiset(s) == multiset(Candidates(vs[1..]))
    ensures forall x :: x in s ==>
              if x.score > vs[0].candidate.score then Ranked(vs, x, vs[0].candidate)
              else Ranked(vs, vs[0].candidate, x)
  {
    forall x | x in s
      ensures if x.score > vs[0].candidate.score then Ranked(vs, x, vs[0].candidate)
              else Ranked(vs, vs[0].candidate, x)
    {
      assert x in multiset(s);
      MembersComeFrom(vs[1..], x);
      var p: nat :| From(vs[1..], p, x);
      assert From(vs, p + 1, x) && From(vs, 0, vs[0].candidate);
    }
  }

  ghost predicate DistinctIds(vs: seq<Verdict>) {
    forall i, j :: 0 <= i < j < |vs| ==> IdOf(vs[i]) != IdOf(vs[j])
  }

  ghost predicate DistinctCandidates(s: seq<Candidate>) {
    forall i, j :: 0 <= i < j < |s| ==> s[i].broker != s[j].broker
  }

  lemma RankedAreDistinct(vs: seq<Verdict>, s: seq<Candidate>)
    requires DistinctIds(vs) && InRankOrder(vs, s)
    ensures DistinctCandidates(s)
  {
    forall i, j | 0 <= i < j < |s|
      ensures s[i].broker != s[j].broker
    {
      assert Ranked(vs, s[i], s[j]);
      var p: nat, r: nat :| From(vs, p, s[i]) && From(vs, r, s[j])
                            && (s[i].score > s[j].score || (s[i].score == s[j].score && p < r));
      assert IdOf(vs[p]) == s[i].broker && IdOf(vs[r]) == s[j].broker && p != r;
    }
  }

  lemma {:induction false} FoundAt(s: seq<Candidate>, id: nat) returns (k: nat)
    ensures if exists i :: 0 <= i < |s| && s[i].broker == id
            then k < |s| && s[k].broker == id && Find(s, id) == Some(s[k])
            else Find(s, id) == None
  {
    k := 0;
    if s != [] && s[0].broker != id {
      var k' := FoundAt(s[1..], id);
      k := k' + 1;
      if i :| 0 <= i < |s| && s[i].broker == id {
        assert s[1..][i - 1].broker == id;
      }
    }
  }

  lemma {:induction false} NothingWithout(s: seq<Candidate>, id: nat)
    requires forall i :: 0 <= i < |s| ==> s[i].broker != id
    ensures Without(s, id) == s
  {
    if s != [] {
      NothingWithout(s[1..], id);
    }
  }

  lemma {:induction false} WithoutAt(s: seq<Candidate>, k: nat)
    requires DistinctCandidates(s) && k < |s|
    ensures Without(s, s[k].broker) == s[..k] + s[k + 1..]
  {
    if k == 0 {
      NothingWithout(s[1..], s[0].broker);
    } else {
      WithoutAt(s[1..], k - 1);
      assert s[..k] == [s[0]] + s[1..][..k - 1];
    }
  }

  /** A list with its element at k moved to the front. */
  function Moved(s: seq<Candidate>, k: nat): seq<Candidate>
    requires k < |s|
  {
    [s[k]] + s[..k] + s[k + 1..]
  }

  function Place(k: nat, i: nat): nat {
    if i == k then 0 else if i < k then i + 1 else i
  }

  lemma MovedIsPermutation(s: seq<Candidate>, k: nat)
    requires k < |s|
    ensures multiset(Moved(s, k)) == multiset(s)
  {
    var front, back := s[..k], s[k + 1..];
    assert s == front + [s[k]] + back;
    assert multiset(front + [s[k]] + back) == multiset(front) + multiset{s[k]} + multiset(back);
  }

  lemma MovedAt(s: seq<Candidate>, k: nat)
    requires k < |s|
    ensures |Moved(s, k)| == |s|
    ensures forall i :: 0 <= i < |s| ==> Place(k, i) < |s| && Moved(s, k)[Place(k, i)] == s[i]
  {
  }

  lemma MovedIsDistinct(s: seq<Candidate>, k: nat)
    requires k < |s| && DistinctCandidates(s)
    ensures DistinctCandidates(Moved(s, k))
  {
    forall x, y | 0 <= x < y < |s|
      ensures Moved(s, k)[x].broker != Moved(s, k)[y].broker
    {
      var i, j := if x == 0 then k else if x <= k then x - 1 else x, if y <= k then y - 1 else y;
      assert Moved(s, k)[x] == s[i] && Moved(s, k)[y] == s[j] && i != j;
    }
  }

  /** The chain is the sorted list with one element, at k, moved to the front: the preferred broker if
      it is eligible, and otherwise the first, which leaves the list as it was. */
  lemma ChainMovesOne(s: seq<Candidate>, preferred: Option<nat>) returns (k: nat)
    requires DistinctCandidates(s) && s != []
    ensures k < |s| && Primary(s, preferred) == Some(s[k])
    ensures Chain(s, preferred) == Moved(s, k)
    ensures if exists i :: 0 <= i < |s| && Some(s[i].broker) == preferred
            then preferred == Some(s[k].broker) else k == 0
  {
    k := 0;
    if preferred.Some? {
      var found := FoundAt(s, preferred.value);
      if exists i :: 0 <= i < |s| && s[i].broker == preferred.value {
        k := found;
      }
    }
    WithoutAt(s, k);
  }

  /** The chain drops and repeats nobody, and its head is the primary. */
  lemma ChainPermutesCandidates(vs: seq<Verdict>, preferred: Option<nat>)
    requires DistinctIds(vs)
    ensures var chain := Chain(Sort(Candidates(vs)), preferred);
            && multiset(chain) == multiset(Candidates(vs))
            && DistinctCandidates(chain)
            && Primary(Sort(Candidates(vs)), preferred) == (if chain == [] then None else Some(chain[0]))
  {
    var s := Sort(Candidates(vs));
    SortedIsRanked(vs);
    RankedAreDistinct(vs, s);
    if s != [] {
      var k := ChainMovesOne(s, preferred);
      MovedIsPermutation(s, k);
      MovedIsDistinct(s, k);
    }
  }

  /** An eligible preferred broker leads the chain. */
  lemma {:induction false} PreferredLeads(vs: seq<Verdict>, p: nat)
    requires DistinctIds(vs) && p < |vs| && vs[p].Eligible?
    ensures var chain := Chain(Sort(Candidates(vs)), Some(vs[p].candidate.broker));
            chain != [] && chain[0] == vs[p].candidate
  {
    var s := Sort(Candidates(vs));
    SortedIsRanked(vs);
    RankedAreDistinct(vs, s);
    var i := SortedPlace(vs, p);
    var k := ChainMovesOne(s, Some(s[i].broker));
    assert k == i;
  }

  /** Where the verdict at p stands in the sorted list. */
  lemma SortedPlace(vs: seq<Verdict>, p: nat) returns (i: nat)
    requires p < |vs| && vs[p].Eligible?
    ensures i < |Sort(Candidates(vs))| && Sort(Candidates(vs))[i] == vs[p].candidate
  {
    SortedIsRanked(vs);
    assert From(vs, p, vs[p].candidate);
    MembersComeFrom(vs, vs[p].candidate);
    assert vs[p].candidate in multiset(Candidates(vs));
    assert vs[p].candidate in Sort(Candidates(vs));
    i :| i < |Sort(Candidates(vs))| && Sort(Candidates(vs))[i] == vs[p].candidate;
  }

  /** The order a reader would define: the preferred broker beats everyone; the others compare by
      score, and ties by their place among the brokers. */
  predicate Beats(vs: seq<Verdict>, preferred: Option<nat>, p: nat, r: nat)
    requires p < |vs| && r < |vs| && vs[p].Eligible? && vs[r].Eligible?
  {
    var a, b := vs[p].candidate, vs[r].candidate;
    preferred == Some(a.broker)
    || (preferred != Some(b.broker) && (a.score > b.score || (a.score == b.score && p < r)))
  }

  ghost predicate Listed(chain: seq<Candidate>, a: nat, b: nat) {
    exists i, j :: 0 <= i < j < |chain| && chain[i].broker == a && chain[j].broker == b
  }

  lemma SortedOrder(vs: seq<Verdict>, p: nat, r: nat, i: nat, j: nat)
    requires DistinctIds(vs) && p < |vs| && r < |vs| && p != r && vs[p].Eligible? && vs[r].Eligible?
    requires var s := Sort(Candidates(vs));
             i < |s| && j < |s| && s[i] == vs[p].candidate && s[j] == vs[r].candidate
    ensures i < j <==> Beats(vs, None, p, r)
  {
    var s := Sort(Candidates(vs));
    SortedIsRanked(vs);
    assert IdOf(vs[p]) != IdOf(vs[r]);
    if i < j {
      assert Ranked(vs, s[i], s[j]);
      RankedIsBeats(vs, p, r);
    } else {
      assert i != j && Ranked(vs, s[j], s[i]);
      RankedIsBeats(vs, r, p);
    }
  }

  lemma RankedIsBeats(vs: seq<Verdict>, p: nat, r: nat)
    requires DistinctIds(vs) && p < |vs| && r < |vs| && vs[p].Eligible? && vs[r].Eligible?
    requires Ranked(vs, vs[p].candidate, vs[r].candidate)
    ensures Beats(vs, None, p, r)
  {
    var a, b := vs[p].candidate, vs[r].candidate;
    var p': nat, r': nat :| From(vs, p', a) && From(vs, r', b)
                            && (a.score > b.score || (a.score == b.score && p' < r'));
    assert IdOf(vs[p']) == IdOf(vs[p]) && IdOf(vs[r']) == IdOf(vs[r]);
    assert p' == p && r' == r;
  }

  /** The chain lists one eligible broker before another exactly when it beats it. */
  lemma {:induction false} ChainOrder(vs: seq<Verdict>, preferred: Option<nat>, p: nat, r: nat)
    requires DistinctIds(vs) && p < |vs| && r < |vs| && p != r && vs[p].Eligible? && vs[r].Eligible?
    ensures Listed(Chain(Sort(Candidates(vs)), preferred), vs[p].candidate.broker, vs[r].candidate.broker)
            <==> Beats(vs, preferred, p, r)
  {
    var s := Sort(Candidates(vs));
    var i := SortedPlace(vs, p);
    var j := SortedPlace(vs, r);
    SortedOrder(vs, p, r, i, j);
    SortedIsRanked(vs);
    RankedAreDistinct(vs, s);
    var k := ChainMovesOne(s, preferred);
    assert IdOf(vs[p]) != IdOf(vs[r]);
    ChainPlaces(s, k, i, j);
    if preferred == Some(s[i].broker) || preferred == Some(s[j].broker) {
      assert preferred == Some(s[k].broker);
    }
  }

  /** After the element at k moves to the front, the one from i is before the one from j exactly when
      it was the one moved, or neither was and it was before already. */
  lemma ChainPlaces(s: seq<Candidate>, k: nat, i: nat, j: nat)
    requires DistinctCandidates(s) && k < |s| && i < |s| && j < |s| && i != j
    ensures Listed(Moved(s, k), s[i].broker, s[j].broker) <==> i == k || (j != k && i < j)
  {
    var chain := Moved(s, k);
    MovedAt(s, k);
    MovedIsDistinct(s, k);
    assert chain[Place(k, i)] == s[i] && chain[Place(k, j)] == s[j];
    if Listed(chain, s[i].broker, s[j].broker) {
      var x, y :| 0 <= x < y < |chain| && chain[x].broker == s[i].broker && chain[y].broker == s[j].broker;
      assert x == Place(k, i) && y == Place(k, j);
    }
  }

  // ---------------------------------------------------------------------------
  // Better health never hurts
  // ---------------------------------------------------------------------------

  /** f' is f with a health reading at least as good in score and status. */
  predicate Healthier(f: Facts, f': Facts) {
    && f'.broker == f.broker && f'.held == f.held && f'.rate == f.rate
    && HealthOf(f).score <= HealthOf(f').score
    && Level(HealthOf(f).status) <= Level(HealthOf(f').status)
  }

  lemma HealthierStaysEligible(f: Facts, f': Facts, q: Query)
    requires Healthier(f, f') && Evaluate(f, q).Eligible?
    ensures Evaluate(f', q).Eligible?
    ensures Evaluate(f, q).candidate.score <= Evaluate(f', q).candidate.score
  {
  }

  /** Raising one broker's health never excludes it, and no broker that it preceded gets before it. */
  lemma RaisingHealthNeverHurts(fs: seq<Facts>, x: nat, better: Facts, q: Query, r: nat)
    requires DistinctIds(Verdicts(fs, q)) && x < |fs| && Healthier(fs[x], better)
    requires Evaluate(fs[x], q).Eligible?
    requires r < |fs| && r != x && Evaluate(fs[r], q).Eligible?
    ensures var fs' := fs[x := better];
            var old_, new_ := Sort(Candidates(Verdicts(fs, q))), Sort(Candidates(Verdicts(fs', q)));
            && Evaluate(better, q).Eligible?
            && (Listed(Chain(new_, q.preferred), fs[r].broker.id, fs[x].broker.id) ==>
                  Listed(Chain(old_, q.preferred), fs[r].broker.id, fs[x].broker.id))
  {
    HealthierStaysEligible(fs[x], better, q);
    var fs' := fs[x := better];
    var vs, vs' := Verdicts(fs, q), Verdicts(fs', q);
    forall i | 0 <= i < |fs|
      ensures IdOf(vs[i]) == IdOf(vs'[i])
    {
      VerdictNamesItsBroker(fs[i], q);
      VerdictNamesItsBroker(fs'[i], q);
    }
    forall i, j | 0 <= i < j < |vs'|
      ensures IdOf(vs'[i]) != IdOf(vs'[j])
    {
      assert IdOf(vs[i]) != IdOf(vs[j]);
    }
    VerdictNamesItsBroker(fs[x], q);
    VerdictNamesItsBroker(fs[r], q);
    ChainOrder(vs, q.preferred, r, x);
    ChainOrder(vs', q.preferred, r, x);
  }

  /** The same from the raw measurements: better latency, success, timeouts, connectivity or IP health. */
  lemma HealthierInputsAreHealthier(f: Facts, x: Inputs, y: Inputs, w: Weights, budget: real, t: Thresholds)
    requires NonNegative(w) && budget > 0.0 && AtLeastAsHealthy(x, y)
    requires f.health == Some(Reading(Score(x, w, budget), StatusOf(Score(x, w, budget), t)))
    ensures Healthier(f, f.(health := Some(Reading(Score(y, w, budget), StatusOf(Score(y, w, budget), t)))))
  {
    HealthierNeverScoresLower(x, y, w, budget, t);
  }

  // ---------------------------------------------------------------------------
  // Which IP a route uses
  // ---------------------------------------------------------------------------

  lemma EligibleHasIp(f: Facts, q: Query)
    requires q.requireIp && Evaluate(f, q).Eligible?
    ensures f.held.Some? && Evaluate(f, q).candidate.ip == Some(f.held.value.ip)
    ensures Evaluate(f, q).candidate.broker == f.broker.id
  {
  }

  /** Under `require_assigned_ip` every candidate in the chain carries the IP that is assigned to its
      broker, and a broker without one is not in the chain. */
  lemma ChainUsesAssignedIps(fs: seq<Facts>, q: Query, c: Candidate)
    requires q.requireIp && DistinctIds(Verdicts(fs, q))
    requires c in Chain(Sort(Candidates(Verdicts(fs, q))), q.preferred)
    ensures exists p: nat :: p < |fs| && fs[p].broker.id == c.broker && fs[p].held.Some?
                             && c.ip == Some(fs[p].held.value.ip)
  {
    var vs := Verdicts(fs, q);
    ChainPermutesCandidates(vs, q.preferred);
    assert c in multiset(Candidates(vs));
    MembersComeFrom(vs, c);
    var p: nat :| From(vs, p, c);
    EligibleHasIp(fs[p], q);
  }

  // ---------------------------------------------------------------------------
  // The whole decision
  // ---------------------------------------------------------------------------

  /** A broker has one row. */
  ghost predicate DistinctBrokers(fs: seq<Facts>) {
    forall i, j :: 0 <= i < j < |fs| ==> fs[i].broker.id != fs[j].broker.id
  }

  lemma {:induction false} AskedAre(all: seq<Facts>, client: nat, f: Facts)
    ensures f in Asked(all, client) <==> f in all && f.broker.client == client && f.broker.enabled
  {
    if all != [] {
      AskedAre(all[1..], client, f);
      assert all == [all[0]] + all[1..];
    }
  }

  lemma {:induction false} AskedAreDistinct(all: seq<Facts>, client: nat)
    requires DistinctBrokers(all)
    ensures DistinctBrokers(Asked(all, client))
  {
    if all != [] {
      AskedAreDistinct(all[1..], client);
      var rest := Asked(all[1..], client);
      forall i | 0 <= i < |rest| ensures rest[i].broker.id != all[0].broker.id {
        AskedAre(all[1..], client, rest[i]);
        assert rest[i] in rest;
        var j :| 0 <= j < |all[1..]| && all[1..][j] == rest[i];
        assert all[j + 1] == rest[i];
      }
    }
  }

  lemma {:induction false} ExcludedComeFrom(vs: seq<Verdict>, e: Exclusion)
    ensures e in Exclusions(vs) <==> Out(e) in vs
  {
    if vs != [] {
      ExcludedComeFrom(vs[1..], e);
      assert vs == [vs[0]] + vs[1..];
    }
  }

  ghost predicate DistinctExclusions(s: seq<Exclusion>) {
    forall i, j :: 0 <= i < j < |s| ==> s[i].broker != s[j].broker
  }

  lemma {:induction false} ExcludedAreDistinct(vs: seq<Verdict>)
    requires DistinctIds(vs)
    ensures DistinctExclusions(Exclusions(vs))
  {
    if vs != [] {
      ExcludedAreDistinct(vs[1..]);
      var rest := Exclusions(vs[1..]);
      forall i | 0 <= i < |rest| ensures rest[i].broker != IdOf(vs[0]) {
        ExcludedComeFrom(vs[1..], rest[i]);
        assert rest[i] in rest;
        var j :| 0 <= j < |vs[1..]| && vs[1..][j] == Out(rest[i]);
        assert vs[j + 1] == Out(rest[i]);
      }
    }
  }

  /** A row of the client's enabled brokers. */
  predicate IsAsked(all: seq<Facts>, q: Query, f: Facts) {
    f in all && f.broker.client == q.client && f.broker.enabled
  }

  lemma VerdictsAre(all: seq<Facts>, q: Query, v: Verdict)
    ensures v in Verdicts(Asked(all, q.client), q) <==> exists f :: IsAsked(all, q, f) && Evaluate(f, q) == v
  {
    var fs := Asked(all, q.client);
    var vs := Verdicts(fs, q);
    if v in vs {
      var i :| 0 <= i < |vs| && vs[i] == v;
      AskedAre(all, q.client, fs[i]);
      assert fs[i] in fs && IsAsked(all, q, fs[i]);
    }
    if f :| IsAsked(all, q, f) && Evaluate(f, q) == v {
      AskedAre(all, q.client, f);
      var i :| 0 <= i < |fs| && fs[i] == f;
      assert vs[i] == v;
    }
  }

  lemma DistinctVerdicts(all: seq<Facts>, q: Query)
    requires DistinctBrokers(all)
    ensures DistinctIds(Verdicts(Asked(all, q.client), q))
  {
    AskedAreDistinct(all, q.client);
    var fs := Asked(all, q.client);
    forall i | 0 <= i < |fs| ensures IdOf(Verdicts(fs, q)[i]) == fs[i].broker.id {
      VerdictNamesItsBroker(fs[i], q);
    }
  }

  /** The decision as a whole: the chain holds exactly the client's enabled brokers that are eligible, each
      once and with what its evaluation gives; the excluded are exactly the others, each once and with
      its reason; and the head of the chain is the primary, the preferred broker if it is eligible. */
  lemma DecisionIsRight(all: seq<Facts>, q: Query)
    requires DistinctBrokers(all)
    ensures var d := Select(all, q);
            && (forall c :: c in d.chain <==> exists f :: IsAsked(all, q, f) && Evaluate(f, q) == Eligible(c))
            && (forall e :: e in d.excluded <==> exists f :: IsAsked(all, q, f) && Evaluate(f, q) == Out(e))
            && DistinctCandidates(d.chain) && DistinctExclusions(d.excluded)
            && d.primary == (if d.chain == [] then None else Some(d.chain[0]))
            && (forall f :: IsAsked(all, q, f) && q.preferred == Some(f.broker.id) && Evaluate(f, q).Eligible? ==>
                  d.primary == Some(Evaluate(f, q).candidate))
  {
    var vs, d := Verdicts(Asked(all, q.client), q), Select(all, q);
    DistinctVerdicts(all, q);
    ChainPermutesCandidates(vs, q.preferred);
    ExcludedAreDistinct(vs);
    forall c ensures c in d.chain <==> exists f :: IsAsked(all, q, f) && Evaluate(f, q) == Eligible(c) {
      ChainHolds(all, q, c);
    }
    forall e ensures e in d.excluded <==> exists f :: IsAsked(all, q, f) && Evaluate(f, q) == Out(e) {
      ExcludedComeFrom(vs, e);
      VerdictsAre(all, q, Out(e));
    }
    forall f | IsAsked(all, q, f) && q.preferred == Some(f.broker.id) && Evaluate(f, q).Eligible?
      ensures d.primary == Some(Evaluate(f, q).candidate)
    {
      PreferredIsPrimary(all, q, f);
    }
  }

  lemma ChainHolds(all: seq<Facts>, q: Query, c: Candidate)
    requires DistinctBrokers(all)
    ensures c in Select(all, q).chain <==> exists f :: IsAsked(all, q, f) && Evaluate(f, q) == Eligible(c)
  {
    var vs := Verdicts(Asked(all, q.client), q);
    DistinctVerdicts(all, q);
    ChainPermutesCandidates(vs, q.preferred);
    assert c in Select(all, q).chain <==> c in multiset(Select(all, q).chain);
    assert c in Candidates(vs) <==> c in multiset(Candidates(vs));
    MembersComeFrom(vs, c);
    if p: nat :| From(vs, p, c) {
      assert Eligible(c) in vs;
    }
    if Eligible(c) in vs {
      var p :| 0 <= p < |vs| && vs[p] == Eligible(c);
      assert From(vs, p, c);
    }
    VerdictsAre(all, q, Eligible(c));
  }

  lemma PreferredIsPrimary(all: seq<Facts>, q: Query, f: Facts)
    requires DistinctBrokers(all)
    requires IsAsked(all, q, f) && q.preferred == Some(f.broker.id) && Evaluate(f, q).Eligible?
    ensures Select(all, q).primary == Some(Evaluate(f, q).candidate)
  {
    var vs := Verdicts(Asked(all, q.client), q);
    DistinctVerdicts(all, q);
    VerdictsAre(all, q, Evaluate(f, q));
    var p: nat :| p < |vs| && vs[p] == Evaluate(f, q);
    VerdictNamesItsBroker(f, q);
    LeadsAsPrimary(vs, p);
  }

  lemma LeadsAsPrimary(vs: seq<Verdict>, p: nat)
    requires DistinctIds(vs) && p < |vs| && vs[p].Eligible?
    ensures Primary(Sort(Candidates(vs)), Some(vs[p].candidate.broker)) == Some(vs[p].candidate)
  {
    PreferredLeads(vs, p);
    ChainPermutesCandidates(vs, Some(vs[p].candidate.broker));
  }
}
