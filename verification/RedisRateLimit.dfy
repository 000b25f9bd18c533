/** The Redis sliding-window limiter. A consumer reads the clock, then prunes and counts the sorted
    set, then reads the clock again, then adds its hit: four steps that other consumers may
    interleave with. A check is the first two of them. */
module RedisRateLimit {
  import opened Common
  import Memory = MemoryRateLimit

  /** A sorted-set member names its clock reading and its limiter object; its score is that reading. */
  datatype Member = Member(at: real, limiter: nat)

  /** Where a consumer stands. `since` is the clock when its snapshot was taken. */
  datatype Stage =
    | Reading(limiter: nat, at: real)
    | Waiting(limiter: nat, since: real)
    | Stamped(since: real, hit: Member)

  datatype State = State(
    clock: real,
    zset: set<Member>,
    expiresAt: Option<real>,
    stages: map<nat, Stage>,
    log: seq<Member>)

  datatype Params = Params(limit: real, window: real)

  datatype Action =
    | Tick(to: real)
    | Start(consumer: nat, limiter: nat)
    | Snapshot(consumer: nat)
    | Look(consumer: nat)
    | Stamp(consumer: nat)
    | Add(consumer: nat)
    | Expire

  /** `zremrangebyscore(key, 0, start)`. */
  function RemoveUpTo(zset: set<Member>, start: real): set<Member> {
    set m | m in zset && !(0.0 <= m.at <= start)
  }

  /** `int(x)`, which drops the fraction. */
  function Truncate(x: real): int {
    if x >= 0.0 then x.Floor else Ceil(x)
  }

  function TimeToLive(window: real): int {
    if 1 > Truncate(window) + 1 then 1 else Truncate(window) + 1
  }

  function TakeSnapshot(s: State, c: nat, p: Params): State
    requires c in s.stages && s.stages[c].Reading?
  {
    var kept := RemoveUpTo(s.zset, s.stages[c].at - p.window);
    s.(zset := kept,
       stages := if |kept| as real < p.limit then s.stages[c := Waiting(s.stages[c].limiter, s.clock)]
                 else s.stages - {c})
  }

  /** The second half of a `check`, which prunes and adds nothing. */
  function TakeLook(s: State, c: nat, p: Params): State
    requires c in s.stages && s.stages[c].Reading?
  {
    s.(zset := RemoveUpTo(s.zset, s.stages[c].at - p.window), stages := s.stages - {c})
  }

  function AddHit(s: State, c: nat, p: Params): State
    requires c in s.stages && s.stages[c].Stamped?
  {
    var hit := s.stages[c].hit;
    s.(zset := s.zset + {hit},
       expiresAt := Some(s.clock + TimeToLive(p.window) as real),
       stages := s.stages - {c},
       log := s.log + [hit])
  }

  /** An action that is not enabled changes nothing. */
  function Step(s: State, a: Action, p: Params): State {
    match a
    case Tick(to) => if s.clock <= to then s.(clock := to) else s
    case Start(c, limiter) =>
      if c in s.stages then s else s.(stages := s.stages[c := Reading(limiter, s.clock)])
    case Snapshot(c) =>
      if c in s.stages && s.stages[c].Reading? then TakeSnapshot(s, c, p) else s
    case Look(c) =>
      if c in s.stages && s.stages[c].Reading? then TakeLook(s, c, p) else s
    case Stamp(c) =>
      if c in s.stages && s.stages[c].Waiting? then
        s.(stages := s.stages[c := Stamped(s.stages[c].since, Member(s.clock, s.stages[c].limiter))])
      else s
    case Add(c) =>
      if c in s.stages && s.stages[c].Stamped? then AddHit(s, c, p) else s
    case Expire =>
      if s.expiresAt.Some? && s.expiresAt.value <= s.clock then s.(zset := {}, expiresAt := None) else s
  }

  const INIT := State(0.0, {}, None, map[], [])

  function Exec(actions: seq<Action>, p: Params): State {
    if actions == [] then INIT
    else Step(Exec(actions[..|actions| - 1], p), actions[|actions| - 1], p)
  }

  /** The consumers that hold an allowing snapshot but have not added their hit. */
  function Between(s: State): set<nat> {
    set c | c in s.stages && !s.stages[c].Reading?
  }

  ghost predicate NeverMoreBetween(actions: seq<Action>, p: Params, k: nat) {
    forall n :: 0 <= n <= |actions| ==> |Between(Exec(actions[..n], p))| <= k
  }

  ghost predicate Distinct(log: seq<Member>) {
    forall i, j :: 0 <= i < j < |log| ==> log[i] != log[j]
  }

  predicate InsideWindow(hit: Member, window: real, end: real) {
    end - window < hit.at <= end
  }

  /** The admitted hits stamped inside (end - window, end]. */
  function Hits(log: seq<Member>, window: real, end: real): nat {
    if log == [] then 0
    else Hits(log[..|log| - 1], window, end) + (if InsideWindow(log[|log| - 1], window, end) then 1 else 0)
  }

  function Bound(limit: real, k: nat): nat {
    if limit <= 0.0 || k == 0 then 0 else Ceil(limit) + k - 1
  }

  /** Consumers between snapshot and add whose snapshot was taken by `end`. */
  function BetweenBy(s: State, end: real): set<nat> {
    set c | c in Between(s) && s.stages[c].since <= end
  }

  // ---------------------------------------------------------------------------
  // What every step keeps
  // ---------------------------------------------------------------------------

  ghost predicate ClockInv(s: State) {
    && (forall i :: 0 <= i < |s.log| ==> s.log[i].at <= s.clock)
    && (forall m :: m in s.zset ==> m.at <= s.clock)
    && (forall c :: c in s.stages ==>
          match s.stages[c]
          case Reading(_, at) => at <= s.clock
          case Waiting(_, since) => since <= s.clock
          case Stamped(since, hit) => since <= hit.at <= s.clock)
  }

  /** No hit that could still count has left the sorted set. */
  ghost predicate LiveInv(s: State, window: real) {
    && (forall i :: 0 <= i < |s.log| && s.clock - window < s.log[i].at ==> s.log[i] in s.zset)
    && (s.expiresAt.Some? ==>
          forall m :: m in s.zset ==> m.at + TimeToLive(window) as real <= s.expiresAt.value)
  }

  /** The different members among the hits of a window. */
  function Members(log: seq<Member>, window: real, end: real): set<Member> {
    set m | m in log && InsideWindow(m, window, end)
  }

  /** The hits of a window whose member an earlier hit carried already. */
  function Repeats(log: seq<Member>, window: real, end: real): nat {
    if log == [] then 0
    else
      var init, last := log[..|log| - 1], log[|log| - 1];
      Repeats(init, window, end) + if InsideWindow(last, window, end) && last in init then 1 else 0
  }

  lemma {:induction false} HitsAreMembersAndRepeats(log: seq<Member>, window: real, end: real)
    ensures Hits(log, window, end) == |Members(log, window, end)| + Repeats(log, window, end)
  {
    if log == [] {
      assert Members(log, window, end) == {};
    } else {
      var init, last := log[..|log| - 1], log[|log| - 1];
      HitsAreMembersAndRepeats(init, window, end);
      assert log == init + [last];
      if InsideWindow(last, window, end) {
        assert Members(log, window, end) == Members(init, window, end) + {last};
        if last in init {
          assert Members(log, window, end) == Members(init, window, end);
        } else {
          assert last !in Members(init, window, end);
          assert |Members(init, window, end) + {last}| == |Members(init, window, end)| + 1;
        }
      } else {
        assert Members(log, window, end) == Members(init, window, end);
      }
    }
  }

  lemma {:induction false} DistinctNeverRepeats(log: seq<Member>, window: real, end: real)
    requires Distinct(log)
    ensures Repeats(log, window, end) == 0
  {
    if log != [] {
      DistinctNeverRepeats(log[..|log| - 1], window, end);
    }
  }

  /** Counted by members, a window and the consumers that may still add to it stay within the bound. */
  ghost predicate RoomInv(s: State, p: Params, bound: nat) {
    forall end: real :: |Members(s.log, p.window, end)| + |BetweenBy(s, end)| <= bound
  }

  /** A second more than the whole seconds of the window, and at least one. */
  lemma LifetimeIs(window: real)
    ensures window >= 0.0 ==> TimeToLive(window) == window.Floor + 1
    ensures window < 1.0 ==> TimeToLive(window) == 1
  {
  }

  lemma LifetimeOutlastsWindow(window: real)
    ensures window < TimeToLive(window) as real
  {
  }

  lemma ClockInvStep(s: State, a: Action, p: Params)
    requires ClockInv(s)
    ensures ClockInv(Step(s, a, p)) && s.clock <= Step(s, a, p).clock
  {
  }

  lemma LiveInvStep(s: State, a: Action, p: Params)
    requires ClockInv(s) && LiveInv(s, p.window)
    ensures LiveInv(Step(s, a, p), p.window)
  {
    LifetimeOutlastsWindow(p.window);
    var s' := Step(s, a, p);
    if (a.Snapshot? || a.Look?) && a.consumer in s.stages && s.stages[a.consumer].Reading? {
      assert s'.zset == RemoveUpTo(s.zset, s.stages[a.consumer].at - p.window);
    }
  }

  lemma RoomInvSnapshot(s: State, c: nat, p: Params, k: nat, end: real)
    requires ClockInv(s) && LiveInv(s, p.window)
    requires RoomInv(s, p, Bound(p.limit, k))
    requires c in s.stages && s.stages[c].Reading?
    requires |Between(TakeSnapshot(s, c, p))| <= k
    ensures |Members(s.log, p.window, end)| + |BetweenBy(TakeSnapshot(s, c, p), end)| <= Bound(p.limit, k)
  {
    var s' := TakeSnapshot(s, c, p);
    if c !in s'.stages || end < s.clock {
      assert BetweenBy(s', end) == BetweenBy(s, end);
    } else {
      var kept := s'.zset;
      assert c in Between(s');
      assert p.limit > 0.0 && k > 0;
      SubsetSize(Members(s.log, p.window, end), kept);
      assert |kept| <= Ceil(p.limit) - 1;
      SubsetSize(BetweenBy(s', end), Between(s'));
    }
  }

  lemma {:induction false} SubsetSize<T>(a: set<T>, b: set<T>)
    requires a <= b
    ensures |a| <= |b|
  {
    assert a + (b - a) == b;
  }

  lemma AtMostOneMore<T>(a: set<T>, x: T)
    ensures |a + {x}| <= |a| + 1
  {
    assert a + {x} == if x in a then a else a + {x};
  }

  lemma RoomInvAdd(s: State, c: nat, p: Params, bound: nat, end: real)
    requires ClockInv(s) && RoomInv(s, p, bound)
    requires c in s.stages && s.stages[c].Stamped?
    ensures |Members(AddHit(s, c, p).log, p.window, end)| + |BetweenBy(AddHit(s, c, p), end)| <= bound
  {
    var s', hit := AddHit(s, c, p), s.stages[c].hit;
    assert BetweenBy(s', end) == BetweenBy(s, end) - {c};
    assert |Members(s.log, p.window, end)| + |BetweenBy(s, end)| <= bound;
    if InsideWindow(hit, p.window, end) {
      assert Members(s'.log, p.window, end) == Members(s.log, p.window, end) + {hit};
      assert c in BetweenBy(s, end);
      assert |BetweenBy(s', end)| == |BetweenBy(s, end)| - 1;
      AtMostOneMore(Members(s.log, p.window, end), hit);
    } else {
      assert Members(s'.log, p.window, end) == Members(s.log, p.window, end);
      SubsetSize(BetweenBy(s', end), BetweenBy(s, end));
    }
  }

  lemma RoomInvStep(s: State, a: Action, p: Params, k: nat)
    requires ClockInv(s) && LiveInv(s, p.window)
    requires RoomInv(s, p, Bound(p.limit, k))
    requires |Between(Step(s, a, p))| <= k
    ensures RoomInv(Step(s, a, p), p, Bound(p.limit, k))
  {
    var s' := Step(s, a, p);
    forall end: real
      ensures |Members(s'.log, p.window, end)| + |BetweenBy(s', end)| <= Bound(p.limit, k)
    {
      if a.Snapshot? && a.consumer in s.stages && s.stages[a.consumer].Reading? {
        RoomInvSnapshot(s, a.consumer, p, k, end);
      } else if a.Add? && a.consumer in s.stages && s.stages[a.consumer].Stamped? {
        RoomInvAdd(s, a.consumer, p, Bound(p.limit, k), end);
      } else {
        assert BetweenBy(s', end) == BetweenBy(s, end);
      }
    }
  }

  lemma {:induction false} InvHolds(actions: seq<Action>, p: Params, k: nat)
    requires NeverMoreBetween(actions, p, k)
    ensures var s := Exec(actions, p);
            ClockInv(s) && LiveInv(s, p.window) && RoomInv(s, p, Bound(p.limit, k))
  {
    if actions == [] {
      forall end: real
        ensures |Members(INIT.log, p.window, end)| + |BetweenBy(INIT, end)| <= Bound(p.limit, k)
      {
        assert BetweenBy(INIT, end) == {} && Members(INIT.log, p.window, end) == {};
      }
    } else {
      var init, last := actions[..|actions| - 1], actions[|actions| - 1];
      var s := Exec(init, p);
      forall n | 0 <= n <= |init|
        ensures |Between(Exec(init[..n], p))| <= k
      {
        assert init[..n] == actions[..n];
      }
      InvHolds(init, p, k);
      ClockInvStep(s, last, p);
      LiveInvStep(s, last, p);
      assert actions[..|actions|] == actions;
      RoomInvStep(s, last, p, k);
    }
  }

  /** However the steps interleave, if at most k consumers are ever between their snapshot and their
      add, every window holds at most ceil(limit) + k - 1 different members, so its admitted hits exceed
      that number by at most those that repeat a member. */
  lemma {:induction false} OvershootBound(actions: seq<Action>, p: Params, k: nat, end: real)
    requires NeverMoreBetween(actions, p, k)
    ensures var log := Exec(actions, p).log;
            && |Members(log, p.window, end)| <= Bound(p.limit, k)
            && Hits(log, p.window, end) <= Bound(p.limit, k) + Repeats(log, p.window, end)
  {
    InvHolds(actions, p, k);
    HitsAreMembersAndRepeats(Exec(actions, p).log, p.window, end);
  }

  // ---------------------------------------------------------------------------
  // When members are distinct
  // ---------------------------------------------------------------------------

  /** The hit that action n adds. */
  function AddedBy(actions: seq<Action>, p: Params, n: nat): Option<Member>
    requires n < |actions|
  {
    var s, a := Exec(actions[..n], p), actions[n];
    if a.Add? && a.consumer in s.stages && s.stages[a.consumer].Stamped? then Some(s.stages[a.consumer].hit) else None
  }

  /** Two hits of one limiter object that were stamped at the same clock reading. */
  predicate SameReading(a: Option<Member>, b: Option<Member>) {
    a.Some? && b.Some? && a.value.limiter == b.value.limiter && a.value.at == b.value.at
  }

  /** The first `upTo` actions add two such hits. */
  ghost predicate SharesReading(actions: seq<Action>, p: Params, upTo: nat)
    requires upTo <= |actions|
  {
    exists m, n :: 0 <= m < n < upTo && SameReading(AddedBy(actions, p, m), AddedBy(actions, p, n))
  }

  lemma AddedByPrefix(actions: seq<Action>, p: Params, upTo: nat, n: nat)
    requires n < upTo <= |actions|
    ensures AddedBy(actions[..upTo], p, n) == AddedBy(actions, p, n)
  {
    assert actions[..upTo][..n] == actions[..n];
  }

  lemma {:induction false} LogGrows(actions: seq<Action>, p: Params)
    requires actions != []
    ensures var added := AddedBy(actions, p, |actions| - 1);
            Exec(actions, p).log == Exec(actions[..|actions| - 1], p).log + (if added.Some? then [added.value] else [])
  {
  }

  ghost predicate Adds(actions: seq<Action>, p: Params, upTo: nat, hit: Member)
    requires upTo <= |actions|
  {
    exists n :: 0 <= n < upTo && AddedBy(actions, p, n) == Some(hit)
  }

  lemma AddsOfPrefix(actions: seq<Action>, p: Params, upTo: nat, hit: Member)
    requires upTo <= |actions|
    ensures Adds(actions[..upTo], p, upTo, hit) <==> Adds(actions, p, upTo, hit)
  {
    forall n: nat | n < upTo ensures AddedBy(actions[..upTo], p, n) == AddedBy(actions, p, n) {
      AddedByPrefix(actions, p, upTo, n);
    }
  }

  /** The log is what the adds added. */
  lemma {:induction false} LogIsAdded(actions: seq<Action>, p: Params, hit: Member)
    ensures hit in Exec(actions, p).log <==> Adds(actions, p, |actions|, hit)
  {
    if actions != [] {
      var last := |actions| - 1;
      LogIsAdded(actions[..last], p, hit);
      AddsOfPrefix(actions, p, last, hit);
      LogGrows(actions, p);
      assert Adds(actions, p, |actions|, hit) <==> Adds(actions, p, last, hit) || AddedBy(actions, p, last) == Some(hit);
    }
  }

  /** Members are distinct exactly when no limiter object adds two hits under one clock reading. */
  lemma {:induction false} DistinctIffReadingsDiffer(actions: seq<Action>, p: Params)
    ensures Distinct(Exec(actions, p).log) <==> !SharesReading(actions, p, |actions|)
  {
    if actions != [] {
      var last := |actions| - 1;
      var init := actions[..last];
      DistinctIffReadingsDiffer(init, p);
      SharesOfPrefix(actions, p, last);
      var log, hit := Exec(init, p).log, AddedBy(actions, p, last);
      LogGrows(actions, p);
      if hit.Some? {
        DistinctOneMore(log, hit.value);
        LastSharesIff(actions, p);
      } else {
        assert log + [] == log;
      }
    }
  }

  lemma DistinctOneMore(log: seq<Member>, hit: Member)
    ensures Distinct(log + [hit]) <==> Distinct(log) && hit !in log
  {
    var longer := log + [hit];
    if Distinct(longer) {
      forall i, j | 0 <= i < j < |log| ensures log[i] != log[j] {
        assert longer[i] == log[i] && longer[j] == log[j];
      }
      forall i | 0 <= i < |log| ensures log[i] != hit {
        assert longer[i] == log[i] && longer[|log|] == hit;
      }
    }
  }

  lemma SharesOfPrefix(actions: seq<Action>, p: Params, upTo: nat)
    requires upTo <= |actions|
    ensures SharesReading(actions[..upTo], p, upTo) <==> SharesReading(actions, p, upTo)
  {
    forall n: nat | n < upTo ensures AddedBy(actions[..upTo], p, n) == AddedBy(actions, p, n) {
      AddedByPrefix(actions, p, upTo, n);
    }
  }

  /** The last action repeats a reading exactly if its hit was added before. */
  lemma LastSharesIff(actions: seq<Action>, p: Params)
    requires actions != [] && AddedBy(actions, p, |actions| - 1).Some?
    ensures SharesReading(actions, p, |actions|)
            <==> SharesReading(actions, p, |actions| - 1)
                 || AddedBy(actions, p, |actions| - 1).value in Exec(actions[..|actions| - 1], p).log
  {
    var last := |actions| - 1;
    var hit := AddedBy(actions, p, last).value;
    LogIsAdded(actions[..last], p, hit);
    AddsOfPrefix(actions, p, last, hit);
    if n :| 0 <= n < last && AddedBy(actions, p, n) == Some(hit) {
      assert SameReading(AddedBy(actions, p, n), AddedBy(actions, p, last));
    }
    if m, n :| 0 <= m < n < |actions| && SameReading(AddedBy(actions, p, m), AddedBy(actions, p, n)) {
      assert n == last ==> AddedBy(actions, p, m) == Some(hit);
    }
  }

  /** A stamp is the reading of the clock at some earlier step of its consumer. */
  lemma {:induction false} StampReadsClock(actions: seq<Action>, p: Params, c: nat)
    requires c in Exec(actions, p).stages && Exec(actions, p).stages[c].Stamped?
    ensures exists n :: 0 <= n < |actions| && actions[n] == Stamp(c)
                        && Exec(actions[..n], p).clock == Exec(actions, p).stages[c].hit.at
  {
    var last := |actions| - 1;
    var s := Exec(actions[..last], p);
    if c in s.stages && s.stages[c] == Exec(actions, p).stages[c] {
      StampReadsClock(actions[..last], p, c);
      var n :| 0 <= n < last && actions[..last][n] == Stamp(c) && Exec(actions[..last][..n], p).clock == s.stages[c].hit.at;
      assert actions[..last][..n] == actions[..n] && actions[n] == Stamp(c);
    } else {
      assert actions[last] == Stamp(c) && s.clock == Exec(actions, p).stages[c].hit.at;
    }
  }

  /** Without such a pair the bound holds as it stands. */
  lemma {:induction false} ReadingsDifferBound(actions: seq<Action>, p: Params, k: nat, end: real)
    requires NeverMoreBetween(actions, p, k) && !SharesReading(actions, p, |actions|)
    ensures Hits(Exec(actions, p).log, p.window, end) <= Bound(p.limit, k)
  {
    OvershootBound(actions, p, k, end);
    DistinctIffReadingsDiffer(actions, p);
    DistinctNeverRepeats(Exec(actions, p).log, p.window, end);
  }

  // ---------------------------------------------------------------------------
  // The bound is exact, and repeated members do exceed it
  // ---------------------------------------------------------------------------

  lemma {:induction false} ExecOne(actions: seq<Action>, a: Action, p: Params, k: nat)
    requires NeverMoreBetween(actions, p, k)
    requires |Between(Step(Exec(actions, p), a, p))| <= k
    ensures Exec(actions + [a], p) == Step(Exec(actions, p), a, p)
    ensures NeverMoreBetween(actions + [a], p, k)
  {
    var all := actions + [a];
    assert all[..|all| - 1] == actions;
    forall n | 0 <= n <= |all|
      ensures |Between(Exec(all[..n], p))| <= k
    {
      if n == |all| {
        assert all[..n] == all;
      } else {
        assert all[..n] == actions[..n];
      }
    }
  }

  lemma {:induction false} ExecTwo(actions: seq<Action>, a: Action, b: Action, p: Params, k: nat) returns (longer: seq<Action>)
    requires NeverMoreBetween(actions, p, k)
    requires |Between(Step(Exec(actions, p), a, p))| <= k
    requires |Between(Step(Step(Exec(actions, p), a, p), b, p))| <= k
    ensures longer == actions + [a] + [b] && NeverMoreBetween(longer, p, k)
    ensures Exec(longer, p) == Step(Step(Exec(actions, p), a, p), b, p)
  {
    ExecOne(actions, a, p, k);
    ExecOne(actions + [a], b, p, k);
    longer := actions + [a] + [b];
  }

  /** The hits of limiters 0, 1, ..., n-1, all at clock zero. */
  function HitsOf(n: nat): seq<Member> {
    seq(n, i requires 0 <= i => Member(0.0, i))
  }

  ghost predicate Stores(s: State, n: nat) {
    && s.clock == 0.0 && s.log == HitsOf(n)
    && |s.zset| == n && forall m :: m in s.zset ==> m.at == 0.0 && m.limiter < n
  }

  lemma {:induction false} HitsOfCount(n: nat, window: real)
    requires window > 0.0
    ensures Distinct(HitsOf(n)) && Hits(HitsOf(n), window, 0.0) == n
  {
    if n > 0 {
      HitsOfCount(n - 1, window);
      assert HitsOf(n)[..n - 1] == HitsOf(n - 1);
    }
  }

  lemma AddStores(s: State, c: nat, p: Params, n: nat)
    requires c in s.stages && s.stages[c].Stamped? && s.stages[c].hit == Member(0.0, n) && Stores(s, n)
    ensures Stores(AddHit(s, c, p), n + 1)
  {
    assert HitsOf(n + 1) == HitsOf(n) + [Member(0.0, n)];
  }

  lemma SnapshotAllows(s: State, c: nat, p: Params, n: nat)
    requires c in s.stages && s.stages[c].Reading? && s.stages[c].at == 0.0 && Stores(s, n)
    requires p.window > 0.0 && n as real < p.limit
    ensures TakeSnapshot(s, c, p) == s.(stages := s.stages[c := Waiting(s.stages[c].limiter, s.clock)])
  {
    assert RemoveUpTo(s.zset, 0.0 - p.window) == s.zset;
  }

  /** One consumer that nothing interrupts, from an idle state. */
  lemma WholeRound(s: State, p: Params, n: nat)
    requires s.stages == map[] && Stores(s, n) && p.window > 0.0 && n as real < p.limit
    ensures var s1 := Step(s, Start(0, n), p);
            var s2 := Step(s1, Snapshot(0), p);
            var s3 := Step(s2, Stamp(0), p);
            var s4 := Step(s3, Add(0), p);
            Between(s1) == {} && Between(s2) == {0} && Between(s3) == {0} && Between(s4) == {}
            && s4.stages == map[] && Stores(s4, n + 1)
  {
    var s1 := Step(s, Start(0, n), p);
    SnapshotAllows(s1, 0, p, n);
    var s2 := Step(s1, Snapshot(0), p);
    var s3 := Step(s2, Stamp(0), p);
    AddStores(s3, 0, p, n);
  }

  /** n consumers, one after the other. */
  lemma {:induction false} OneByOne(p: Params, n: nat, k: nat) returns (actions: seq<Action>)
    requires p.window > 0.0 && 1 <= k && n as real <= p.limit
    ensures NeverMoreBetween(actions, p, k)
    ensures Stores(Exec(actions, p), n) && Exec(actions, p).stages == map[]
  {
    if n == 0 {
      actions := [];
      assert Between(INIT) == {};
    } else {
      actions := OneByOne(p, n - 1, k);
      WholeRound(Exec(actions, p), p, n - 1);
      actions := ExecTwo(actions, Start(0, n - 1), Snapshot(0), p, k);
      actions := ExecTwo(actions, Stamp(0), Add(0), p, k);
    }
  }

  /** Consumers from, ..., upTo-1 hold snapshots taken at clock zero. */
  ghost predicate Ready(s: State, n: nat, from: nat, upTo: nat) {
    && (forall c :: c in s.stages <==> from <= c < upTo)
    && (forall c :: c in s.stages ==>
          s.stages[c].Waiting? && s.stages[c].since == 0.0 && s.stages[c].limiter - c == n)
    && |s.stages.Keys| == upTo - from
  }

  lemma ReadyAreBetween(s: State, n: nat, from: nat, upTo: nat)
    requires Ready(s, n, from, upTo)
    ensures Between(s) == s.stages.Keys
  {
  }

  lemma ReadyGrows(s: State, s': State, n: nat, j: nat)
    requires Ready(s, n, 0, j) && s'.stages == s.stages[j := Waiting(n + j, 0.0)]
    ensures Ready(s', n, 0, j + 1)
  {
    assert j !in s.stages.Keys && s'.stages.Keys == s.stages.Keys + {j};
    assert |s.stages.Keys + {j}| == |s.stages.Keys| + 1;
  }

  lemma OneMoreLooks(s: State, p: Params, n: nat, j: nat)
    requires Stores(s, n) && Ready(s, n, 0, j) && p.window > 0.0 && n as real < p.limit
    ensures var s1 := Step(s, Start(j, n + j), p);
            var s2 := Step(s1, Snapshot(j), p);
            |Between(s1)| == j && |Between(s2)| == j + 1 && Stores(s2, n) && Ready(s2, n, 0, j + 1)
  {
    var s1 := Step(s, Start(j, n + j), p);
    assert Between(s1) == s.stages.Keys;
    SnapshotAllows(s1, j, p, n);
    var s2 := Step(s1, Snapshot(j), p);
    assert s2.stages == s.stages[j := Waiting(n + j, 0.0)];
    ReadyGrows(s, s2, n, j);
    ReadyAreBetween(s2, n, 0, j + 1);
  }

  lemma ReadyShrinks(s: State, s': State, n: nat, from: nat, upTo: nat)
    requires from < upTo && Ready(s, n, from, upTo) && s'.stages == s.stages - {from}
    ensures Ready(s', n, from + 1, upTo)
  {
    assert s'.stages.Keys == s.stages.Keys - {from};
  }

  lemma OneMoreAdds(s: State, p: Params, n: nat, from: nat, upTo: nat)
    requires from < upTo && Stores(s, n + from) && Ready(s, n, from, upTo)
    ensures var s1 := Step(s, Stamp(from), p);
            var s2 := Step(s1, Add(from), p);
            |Between(s1)| == upTo - from && |Between(s2)| == upTo - from - 1
            && Stores(s2, n + from + 1) && Ready(s2, n, from + 1, upTo)
  {
    var s1 := Step(s, Stamp(from), p);
    assert Between(s1) == s.stages.Keys;
    var s2 := AddHit(s1, from, p);
    AddStores(s1, from, p, n + from);
    assert s2.stages == s.stages - {from};
    ReadyShrinks(s, s2, n, from, upTo);
    ReadyAreBetween(s2, n, from + 1, upTo);
  }

  /** After n hits, j consumers take their snapshots before any of them adds. */
  lemma {:induction false} AllLook(p: Params, n: nat, j: nat, k: nat) returns (actions: seq<Action>)
    requires p.window > 0.0 && 1 <= k && j <= k && n as real < p.limit
    ensures NeverMoreBetween(actions, p, k)
    ensures Stores(Exec(actions, p), n) && Ready(Exec(actions, p), n, 0, j)
  {
    if j == 0 {
      actions := OneByOne(p, n, k);
    } else {
      actions := AllLook(p, n, j - 1, k);
      OneMoreLooks(Exec(actions, p), p, n, j - 1);
      actions := ExecTwo(actions, Start(j - 1, n + j - 1), Snapshot(j - 1), p, k);
    }
  }

  /** ... and then j of the k add their hits. */
  lemma {:induction false} ThenAdd(p: Params, n: nat, j: nat, k: nat) returns (actions: seq<Action>)
    requires p.window > 0.0 && 1 <= k && j <= k && n as real < p.limit
    ensures NeverMoreBetween(actions, p, k)
    ensures Stores(Exec(actions, p), n + j) && Ready(Exec(actions, p), n, j, k)
  {
    if j == 0 {
      actions := AllLook(p, n, k, k);
    } else {
      var from := j - 1;
      actions := ThenAdd(p, n, from, k);
      OneMoreAdds(Exec(actions, p), p, n, from, k);
      actions := ExecTwo(actions, Stamp(from), Add(from), p, k);
    }
  }

  /** The overshoot really happens: some run with distinct members and at most k consumers between
      snapshot and add puts the whole ceil(limit) + k - 1 hits into one window. */
  lemma {:induction false} BoundIsReached(p: Params, k: nat) returns (actions: seq<Action>)
    requires p.window > 0.0 && p.limit > 0.0 && k >= 1
    ensures NeverMoreBetween(actions, p, k) && Distinct(Exec(actions, p).log)
    ensures Hits(Exec(actions, p).log, p.window, 0.0) == Bound(p.limit, k)
  {
    var n := Ceil(p.limit) - 1;
    actions := ThenAdd(p, n, k, k);
    HitsOfCount(n + k, p.window);
  }

  /** Repeats do occur, and count: one limiter object that adds twice at one clock reading overwrites
      its own hit. Under limit 2, with one consumer at a time, a window then holds three hits. */
  lemma CollidingMembersBreakTheBound()
    ensures var p := Params(2.0, 1.0);
            var actions := Round() + Round() + Round();
            var log := Exec(actions, p).log;
            !Distinct(log) && Hits(log, p.window, 0.0) == 3 > Bound(p.limit, 1) && NeverMoreBetween(actions, p, 1)
  {
    var p := Params(2.0, 1.0);
    assert Between(INIT) == {};
    assert Exec([], p) == INIT;
    var a1 := CollidingRound([], p, 0);
    var a2 := CollidingRound(a1, p, 1);
    var a3 := CollidingRound(a2, p, 2);
    assert a3 == Round() + Round() + Round();
    SameHitsCount(3);
    assert SameHits(3)[0] == SameHits(3)[1];
  }

  function Round(): seq<Action> {
    [Start(0, 7), Snapshot(0), Stamp(0), Add(0)]
  }

  /** n hits with the same member. */
  function SameHits(n: nat): seq<Member> {
    seq(n, i requires 0 <= i => Member(0.0, 7))
  }

  lemma {:induction false} SameHitsCount(n: nat)
    ensures Hits(SameHits(n), 1.0, 0.0) == n
  {
    if n > 0 {
      SameHitsCount(n - 1);
      assert SameHits(n)[..n - 1] == SameHits(n - 1);
    }
  }

  /** Idle after n rounds that all wrote the same member. */
  ghost predicate Collided(s: State, n: nat) {
    s.clock == 0.0 && s.stages == map[] && s.log == SameHits(n) && s.zset <= {Member(0.0, 7)}
  }

  lemma RoundCollides(s: State, p: Params, n: nat)
    requires p == Params(2.0, 1.0) && Collided(s, n)
    ensures var s1 := Step(s, Start(0, 7), p);
            var s2 := Step(s1, Snapshot(0), p);
            var s3 := Step(s2, Stamp(0), p);
            var s4 := Step(s3, Add(0), p);
            && Between(s1) == {} && Between(s2) == {0} && Between(s3) == {0} && Between(s4) == {}
            && Collided(s4, n + 1)
  {
    var s1 := Step(s, Start(0, 7), p);
    SubsetSize(RemoveUpTo(s1.zset, 0.0 - p.window), {Member(0.0, 7)});
    assert SameHits(n + 1) == SameHits(n) + [Member(0.0, 7)];
  }

  lemma CollidingRound(actions: seq<Action>, p: Params, n: nat) returns (longer: seq<Action>)
    requires p == Params(2.0, 1.0) && NeverMoreBetween(actions, p, 1) && Collided(Exec(actions, p), n)
    ensures longer == actions + Round() && NeverMoreBetween(longer, p, 1) && Collided(Exec(longer, p), n + 1)
  {
    RoundCollides(Exec(actions, p), p, n);
    var looked := ExecTwo(actions, Start(0, 7), Snapshot(0), p, 1);
    longer := ExecTwo(looked, Stamp(0), Add(0), p, 1);
    assert longer == actions + Round();
  }

  // ---------------------------------------------------------------------------
  // The limiter's own calls, one key
  // ---------------------------------------------------------------------------

  /** What one `consume` leaves: it reads the clock at s.clock, and again at `stamp` if it may add. */
  function Consumed(s: State, limiter: nat, stamp: real, p: Params): State {
    var kept := RemoveUpTo(s.zset, s.clock - p.window);
    var hit := Member(stamp, limiter);
    if |kept| as real < p.limit
    then State(stamp, kept + {hit}, Some(stamp + TimeToLive(p.window) as real), s.stages, s.log + [hit])
    else s.(zset := kept)
  }

  lemma LookAlone(s: State, limiter: nat, p: Params)
    requires s.stages == map[]
    ensures var kept := RemoveUpTo(s.zset, s.clock - p.window);
            Step(Step(s, Start(0, limiter), p), Snapshot(0), p)
            == s.(zset := kept,
                  stages := if |kept| as real < p.limit then map[0 := Waiting(limiter, s.clock)] else map[])
  {
    var s1 := Step(s, Start(0, limiter), p);
    assert s1.stages == map[0 := Reading(limiter, s.clock)];
    assert s1.stages - {0} == map[];
  }

  lemma AddAlone(s: State, limiter: nat, stamp: real, p: Params)
    requires s.stages == map[0 := Waiting(limiter, s.clock)] && s.clock <= stamp
    ensures var hit := Member(stamp, limiter);
            Step(Step(Step(s, Tick(stamp), p), Stamp(0), p), Add(0), p)
            == State(stamp, s.zset + {hit}, Some(stamp + TimeToLive(p.window) as real), map[], s.log + [hit])
  {
    var s2 := Step(Step(s, Tick(stamp), p), Stamp(0), p);
    assert s2.stages == map[0 := Stamped(s.clock, Member(stamp, limiter))];
    assert s2.stages - {0} == map[];
  }

  /** A consume that nothing interrupts is the steps of one consumer in a row. */
  lemma ConsumedInSteps(s: State, limiter: nat, stamp: real, p: Params)
    requires s.stages == map[] && s.clock <= stamp
    ensures var seen := Step(Step(s, Start(0, limiter), p), Snapshot(0), p);
            Consumed(s, limiter, stamp, p)
            == if 0 in seen.stages then Step(Step(Step(seen, Tick(stamp), p), Stamp(0), p), Add(0), p) else seen
  {
    LookAlone(s, limiter, p);
    var kept := RemoveUpTo(s.zset, s.clock - p.window);
    if |kept| as real < p.limit {
      AddAlone(s.(zset := kept, stages := map[0 := Waiting(limiter, s.clock)]), limiter, stamp, p);
    }
  }

  /** A check that nothing interrupts prunes what has left the window, and leaves nobody waiting. */
  lemma CheckedInSteps(s: State, limiter: nat, p: Params)
    requires s.stages == map[]
    ensures Step(Step(s, Start(0, limiter), p), Look(0), p)
            == s.(zset := set m | m in s.zset && !(0.0 <= m.at && m.at <= s.clock - p.window))
  {
    var s1 := Step(s, Start(0, limiter), p);
    assert s1.stages - {0} == map[];
  }

  class Limiter {
    const id: nat
    var zset: set<Member>
    var expiresAt: Option<real>
    ghost var log: seq<Member>

    ghost function At(clock: real): State
      reads this
    {
      State(clock, zset, expiresAt, map[], log)
    }

    constructor (id: nat)
      ensures this.id == id && At(0.0) == INIT
    {
      this.id, zset, expiresAt, log := id, {}, None, [];
    }

    method Check(read: real, p: Params) returns (snap: Memory.Snapshot)
      modifies this
      ensures At(read) == old(At(read)).(zset := RemoveUpTo(old(zset), read - p.window))
      ensures zset == set m | m in old(zset) && !(0.0 <= m.at && m.at <= read - p.window)
      ensures expiresAt == old(expiresAt) && log == old(log)
      ensures snap == Memory.Report(|zset| as real < p.limit, p.limit, |zset|, p.window)
    {
      zset := RemoveUpTo(zset, read - p.window);
      snap := Memory.Report(|zset| as real < p.limit, p.limit, |zset|, p.window);
    }

    method Consume(read: real, stamp: real, p: Params) returns (snap: Memory.Snapshot)
      modifies this
      ensures At(if snap.allowed then stamp else read) == Consumed(old(At(read)), id, stamp, p)
      ensures var kept := set m | m in old(zset) && !(0.0 <= m.at && m.at <= read - p.window);
              && (snap.allowed <==> |kept| as real < p.limit)
              && zset == (if snap.allowed then kept + {Member(stamp, id)} else kept)
              && log == old(log) + (if snap.allowed then [Member(stamp, id)] else [])
      ensures expiresAt == if snap.allowed then Some(stamp + TimeToLive(p.window) as real) else old(expiresAt)
      ensures snap == Memory.Report(snap.allowed, p.limit, |zset|, p.window)
      ensures snap.used == |zset| && snap.limit == p.limit && snap.window == p.window
    {
      snap := Check(read, p);
      if !snap.allowed {
        return;
      }
      var hit := Member(stamp, id);
      zset := zset + {hit};
      expiresAt := Some(stamp + TimeToLive(p.window) as real);
      log := log + [hit];
      snap := Memory.Report(true, p.limit, |zset|, p.window);
    }
  }
}
