/** The in-process sliding-window limiter: a pruned list of hits per key. */
module MemoryRateLimit {
  import opened Common

  /** What `check` and `consume` report. */
  datatype Snapshot = Snapshot(
    allowed: bool,
    limit: real,
    used: nat,
    remaining: real,
    pressure: real,
    window: real)

  /** The hits younger than `window` at `now`, in order. */
  function Recent(hits: seq<real>, window: real, now: real): seq<real> {
    if hits == [] then []
    else
      var last := hits[|hits| - 1];
      Recent(hits[..|hits| - 1], window, now) + (if now - last < window then [last] else [])
  }

  function Pressure(limit: real, used: nat): real {
    if limit <= 0.0 then 0.0
    else
      var raw := 20.0 * (used as real / limit);
      if raw < 20.0 then raw else 20.0
  }

  function Remaining(limit: real, used: nat): real {
    if limit - used as real > 0.0 then limit - used as real else 0.0
  }

  function Report(allowed: bool, limit: real, used: nat, window: real): Snapshot {
    Snapshot(allowed, limit, used, Remaining(limit, used), Pressure(limit, used), window)
  }

  // ---------------------------------------------------------------------------
  // One key, followed over a whole run
  // ---------------------------------------------------------------------------

  /** The stored (pruned) hits of a key, and every hit that was ever admitted for it. */
  datatype KeyState = KeyState(hits: seq<real>, log: seq<real>)

  datatype Call = Check(now: real) | Consume(now: real, limit: real)

  predicate Admits(s: KeyState, call: Call, window: real) {
    call.Consume? && |Recent(s.hits, window, call.now)| as real < call.limit
  }

  function Apply(s: KeyState, call: Call, window: real): KeyState {
    var pruned := Recent(s.hits, window, call.now);
    if Admits(s, call, window) then KeyState(pruned + [call.now], s.log + [call.now])
    else KeyState(pruned, s.log)
  }

  function Run(calls: seq<Call>, window: real): KeyState {
    if calls == [] then KeyState([], [])
    else Apply(Run(calls[..|calls| - 1], window), calls[|calls| - 1], window)
  }

  /** The clock never runs backwards. */
  ghost predicate Timed(calls: seq<Call>) {
    forall i, j :: 0 <= i < j < |calls| ==> calls[i].now <= calls[j].now
  }

  ghost predicate NotAfter(log: seq<real>, now: real) {
    forall i :: 0 <= i < |log| ==> log[i] <= now
  }

  ghost predicate LimitsWithin(calls: seq<Call>, limit: real) {
    forall i :: 0 <= i < |calls| && calls[i].Consume? ==> calls[i].limit <= limit
  }

  /** The logged hits in the half-open window (end - window, end]. */
  function InWindow(log: seq<real>, window: real, end: real): seq<real> {
    if log == [] then []
    else
      var last := log[|log| - 1];
      InWindow(log[..|log| - 1], window, end) + (if last <= end && end - last < window then [last] else [])
  }

  /** How many hits a window may hold under a limit: none for a limit of at most zero. */
  function Capacity(limit: real): nat {
    if limit <= 0.0 then 0 else Ceil(limit)
  }

  lemma {:induction false} RecentOfRecent(hits: seq<real>, window: real, earlier: real, now: real)
    requires earlier <= now
    ensures Recent(Recent(hits, window, earlier), window, now) == Recent(hits, window, now)
  {
    if hits != [] {
      var init, last := hits[..|hits| - 1], hits[|hits| - 1];
      RecentOfRecent(init, window, earlier, now);
      if earlier - last < window {
        var kept := Recent(init, window, earlier) + [last];
        assert kept[..|kept| - 1] == Recent(init, window, earlier);
      } else {
        assert Recent(hits, window, earlier) == Recent(init, window, earlier);
      }
    }
  }

  lemma {:induction false} LogNotAfter(calls: seq<Call>, window: real)
    requires Timed(calls)
    ensures if calls == [] then Run(calls, window).log == []
            else NotAfter(Run(calls, window).log, calls[|calls| - 1].now)
  {
    if calls != [] {
      var init, last := calls[..|calls| - 1], calls[|calls| - 1];
      LogNotAfter(init, window);
      assert init != [] ==> init[|init| - 1].now <= last.now;
      assert NotAfter(Run(init, window).log, last.now);
    }
  }

  lemma {:induction false} NothingRecentWithoutWindow(log: seq<real>, window: real, now: real)
    requires window <= 0.0 && NotAfter(log, now)
    ensures Recent(log, window, now) == []
  {
    if log != [] {
      NothingRecentWithoutWindow(log[..|log| - 1], window, now);
    }
  }

  /** Pruning forgets nothing that can still count: from the latest call on, the stored list and
      the log of every admission have the same recent hits. */
  lemma {:induction false} StoredHitsStandForLog(calls: seq<Call>, window: real, now: real)
    requires Timed(calls) && (calls != [] ==> calls[|calls| - 1].now <= now)
    ensures Recent(Run(calls, window).hits, window, now) == Recent(Run(calls, window).log, window, now)
  {
    if calls != [] {
      var init, last := calls[..|calls| - 1], calls[|calls| - 1];
      var s := Run(init, window);
      StoredHitsStandForLog(init, window, now);
      RecentOfRecent(s.hits, window, last.now, now);
      if Admits(s, last, window) {
        var hits, log := Recent(s.hits, window, last.now) + [last.now], s.log + [last.now];
        assert hits[..|hits| - 1] == Recent(s.hits, window, last.now) && log[..|log| - 1] == s.log;
      }
    }
  }

  /** The stored list is exactly the log restricted to the window ending at the latest call, except
      right after an admission through a window of no length, which keeps its own hit once. */
  lemma PrunedListIsRecentLog(calls: seq<Call>, window: real)
    requires Timed(calls) && calls != []
    ensures var init, last := calls[..|calls| - 1], calls[|calls| - 1];
            Run(calls, window).hits == Recent(Run(calls, window).log, window, last.now)
            <==> window > 0.0 || !Admits(Run(init, window), last, window)
  {
    var init, last := calls[..|calls| - 1], calls[|calls| - 1];
    var s := Run(init, window);
    StoredHitsStandForLog(init, window, last.now);
    if Admits(s, last, window) {
      var log := s.log + [last.now];
      assert log[..|log| - 1] == s.log;
      if window <= 0.0 {
        LogNotAfter(init, window);
        NothingRecentWithoutWindow(log, window, last.now);
      }
    }
  }

  /** `consume` admits exactly when fewer than `limit` logged hits lie in the current window. */
  lemma AdmitsIffLogHasRoom(calls: seq<Call>, window: real, now: real, limit: real)
    requires Timed(calls) && (calls != [] ==> calls[|calls| - 1].now <= now)
    ensures Admits(Run(calls, window), Consume(now, limit), window)
            <==> |InWindow(Run(calls, window).log, window, now)| as real < limit
  {
    StoredHitsStandForLog(calls, window, now);
    LogNotAfter(calls, window);
    InWindowIsRecent(Run(calls, window).log, window, now);
  }

  lemma {:induction false} InWindowIsRecent(log: seq<real>, window: real, now: real)
    requires NotAfter(log, now)
    ensures InWindow(log, window, now) == Recent(log, window, now)
  {
    if log != [] {
      InWindowIsRecent(log[..|log| - 1], window, now);
    }
  }

  /** A window that ends later holds no more of the hits known now. */
  lemma {:induction false} LaterWindowHoldsFewer(log: seq<real>, window: real, now: real, end: real)
    requires now <= end && NotAfter(log, now)
    ensures |InWindow(log, window, end)| <= |Recent(log, window, now)|
  {
    if log != [] {
      LaterWindowHoldsFewer(log[..|log| - 1], window, now, end);
    }
  }

  /** Every window of the given length, ending at any time at all, holds at most ceil(limit) hits. */
  lemma {:induction false} EveryWindowWithinCapacity(calls: seq<Call>, window: real, limit: real, end: real)
    requires Timed(calls) && LimitsWithin(calls, limit)
    ensures |InWindow(Run(calls, window).log, window, end)| <= Capacity(limit)
  {
    if calls != [] {
      var init, last := calls[..|calls| - 1], calls[|calls| - 1];
      var s := Run(init, window);
      EveryWindowWithinCapacity(init, window, limit, end);
      if Admits(s, last, window) {
        var log := s.log + [last.now];
        assert log[..|log| - 1] == s.log;
        if last.now <= end {
          LogNotAfter(init, window);
          LaterWindowHoldsFewer(s.log, window, last.now, end);
          StoredHitsStandForLog(init, window, last.now);
        }
      }
    }
  }

  /** n consumes, or n hits, at one time. */
  function AtOnce(now: real, limit: real, n: nat): (calls: seq<Call>)
    ensures |calls| == n && forall i :: 0 <= i < n ==> calls[i] == Consume(now, limit)
  {
    if n == 0 then [] else AtOnce(now, limit, n - 1) + [Consume(now, limit)]
  }

  function Times(now: real, n: nat): (log: seq<real>)
    ensures |log| == n && forall i :: 0 <= i < n ==> log[i] == now
  {
    if n == 0 then [] else Times(now, n - 1) + [now]
  }

  lemma {:induction false} AllRecent(window: real, now: real, n: nat)
    requires window > 0.0
    ensures Recent(Times(now, n), window, now) == Times(now, n)
    ensures InWindow(Times(now, n), window, now) == Times(now, n)
  {
    if n > 0 {
      var init, all := Times(now, n - 1), Times(now, n);
      AllRecent(window, now, n - 1);
      assert all[..n - 1] == init && all[n - 1] == now;
      assert Recent(all, window, now) == Recent(init, window, now) + [now];
      assert InWindow(all, window, now) == InWindow(init, window, now) + [now];
    }
  }

  lemma BelowCapacity(limit: real, n: nat)
    requires n < Capacity(limit)
    ensures n as real < limit
  {
  }

  lemma AdmitsOneMore(limit: real, window: real, now: real, n: nat)
    requires window > 0.0 && n as real < limit
    ensures Apply(KeyState(Times(now, n), Times(now, n)), Consume(now, limit), window)
            == KeyState(Times(now, n + 1), Times(now, n + 1))
  {
    AllRecent(window, now, n);
  }

  lemma {:induction false} AllAdmitted(limit: real, window: real, now: real, n: nat)
    requires window > 0.0 && n <= Capacity(limit)
    ensures Run(AtOnce(now, limit, n), window) == KeyState(Times(now, n), Times(now, n))
  {
    if n > 0 {
      var init, all := AtOnce(now, limit, n - 1), AtOnce(now, limit, n);
      AllAdmitted(limit, window, now, n - 1);
      BelowCapacity(limit, n - 1);
      AdmitsOneMore(limit, window, now, n - 1);
      assert all[..n - 1] == init && all[n - 1] == Consume(now, limit);
    }
  }

  /** The capacity is reached: an idle limiter under a positive limit admits ceil(limit) at once. */
  lemma CapacityIsReached(limit: real, window: real, now: real, n: nat)
    requires window > 0.0 && n <= Capacity(limit)
    ensures Timed(AtOnce(now, limit, n)) && Run(AtOnce(now, limit, n), window).log == Times(now, n)
    ensures InWindow(Run(AtOnce(now, limit, n), window).log, window, now) == Times(now, n)
  {
    AllAdmitted(limit, window, now, n);
    AllRecent(window, now, n);
  }

  // ---------------------------------------------------------------------------
  // The limiter itself: many keys, updated in place
  // ---------------------------------------------------------------------------

  class Limiter {
    var hits: map<string, seq<real>>
    /** Every admission ever made, by key: what the runs above call the log. */
    ghost var admitted: map<string, seq<real>>

    ghost function State(key: string): KeyState
      reads this
    {
      KeyState(if key in hits then hits[key] else [], if key in admitted then admitted[key] else [])
    }

    constructor ()
      ensures forall key :: State(key) == KeyState([], [])
    {
      hits, admitted := map[], map[];
    }

    method Prune(key: string, window: real, now: real) returns (kept: seq<real>)
      modifies this
      ensures kept == Recent(old(State(key)).hits, window, now)
      ensures State(key) == old(State(key)).(hits := kept)
      ensures forall other :: other != key ==> State(other) == old(State(other))
    {
      kept := Recent(if key in hits then hits[key] else [], window, now);
      hits := hits[key := kept];
    }

    method Check(key: string, now: real, limit: real, window: real) returns (snap: Snapshot)
      modifies this
      ensures State(key) == Apply(old(State(key)), Call.Check(now), window)
      ensures forall other :: other != key ==> State(other) == old(State(other))
      ensures snap.allowed <==> Admits(old(State(key)), Call.Consume(now, limit), window)
      ensures snap == Report(snap.allowed, limit, |State(key).hits|, window)
      ensures snap.used == |State(key).hits| && snap.limit == limit && snap.window == window
    {
      var kept := Prune(key, window, now);
      snap := Report(|kept| as real < limit, limit, |kept|, window);
    }

    method Consume(key: string, now: real, limit: real, window: real) returns (snap: Snapshot)
      modifies this
      ensures State(key) == Apply(old(State(key)), Call.Consume(now, limit), window)
      ensures forall other :: other != key ==> State(other) == old(State(other))
      ensures snap.allowed <==> Admits(old(State(key)), Call.Consume(now, limit), window)
      ensures snap == Report(snap.allowed, limit, |State(key).hits|, window)
      ensures snap.used == |State(key).hits| && snap.limit == limit && snap.window == window
    {
      var kept := Prune(key, window, now);
      if |kept| as real >= limit {
        return Snapshot(false, limit, |kept|, 0.0, Pressure(limit, |kept|), window);
      }
      kept := kept + [now];
      hits := hits[key := kept];
      admitted := admitted[key := (if key in admitted then admitted[key] else []) + [now]];
      snap := Report(true, limit, |kept|, window);
    }
  }

  /** The reported pressure lies in [0, 20]; under a positive limit it is 20 exactly when nothing remains. */
  lemma PressureReadsRemaining(limit: real, used: nat)
    ensures 0.0 <= Pressure(limit, used) <= 20.0
    ensures limit > 0.0 ==> (Pressure(limit, used) == 20.0 <==> Remaining(limit, used) == 0.0)
  {
    if limit > 0.0 {
      ShareOf(used as real, limit);
    }
  }

  /** Pressure is twenty times the used share of the limit, and remaining the rest of it. */
  lemma PressureIsShare(limit: real, used: nat)
    ensures limit <= 0.0 ==> Pressure(limit, used) == 0.0
    ensures limit > 0.0 ==> Pressure(limit, used) * limit == 20.0 * (if used as real < limit then used as real else limit)
    ensures Remaining(limit, used) == if used as real < limit then limit - used as real else 0.0
  {
    if limit > 0.0 {
      ShareOf(used as real, limit);
      var ratio := used as real / limit;
      assert (20.0 * ratio) * limit == 20.0 * (ratio * limit);
    }
  }

  lemma OneMore(s: seq<real>, x: real, t: real)
    ensures multiset(s + [x])[t] == multiset(s)[t] + if x == t then 1 else 0
  {
  }

  /** What pruning keeps, and what a window holds, hit by hit. */
  lemma {:induction false} RecentHolds(hits: seq<real>, window: real, now: real, t: real)
    ensures multiset(Recent(hits, window, now))[t] == if now - window < t then multiset(hits)[t] else 0
  {
    if hits != [] {
      var init, last := hits[..|hits| - 1], hits[|hits| - 1];
      RecentHolds(init, window, now, t);
      OneMore(init, last, t);
      assert hits == init + [last];
      if now - last < window {
        OneMore(Recent(init, window, now), last, t);
        assert Recent(hits, window, now) == Recent(init, window, now) + [last];
      } else {
        assert Recent(hits, window, now) == Recent(init, window, now);
      }
    }
  }

  lemma {:induction false} WindowHolds(log: seq<real>, window: real, end: real, t: real)
    ensures multiset(InWindow(log, window, end))[t] == if end - window < t && t <= end then multiset(log)[t] else 0
  {
    if log != [] {
      var init, last := log[..|log| - 1], log[|log| - 1];
      WindowHolds(init, window, end, t);
      OneMore(init, last, t);
      assert log == init + [last];
      if last <= end && end - last < window {
        OneMore(InWindow(init, window, end), last, t);
        assert InWindow(log, window, end) == InWindow(init, window, end) + [last];
      } else {
        assert InWindow(log, window, end) == InWindow(init, window, end);
      }
    }
  }
}
