/** Versioned provider rows, and the cache that each process builds providers into. */
module ProviderCache {
  import opened Common

  datatype Kind = Event | Infrastructure | OtherKind

  datatype RowStatus = Pending | Active | Retired

  /** `settings` stands for the provider type and configuration of a row. */
  datatype Row = Row(kind: Kind, client: Option<nat>, status: RowStatus, version: int, settings: nat)

  datatype Config = FromEnvironment | FromRow(settings: nat)

  datatype Provider = Provider(id: nat, config: Config)

  /** The cache of one process, with every event provider it ever built and those it has closed. */
  datatype Cache = Cache(
    event: Option<Provider>,
    eventVersion: Option<int>,
    stale: seq<Provider>,
    closed: seq<Provider>,
    built: seq<Provider>,
    infra: Option<Config>,
    infraVersion: Option<int>)

  const UNUSED := Cache(None, None, [], [], [], None, None)

  // ---------------------------------------------------------------------------
  // The rows
  // ---------------------------------------------------------------------------

  /** The highest version of a kind. */
  function Latest(rows: seq<Row>, kind: Kind): (v: Option<int>)
    ensures v.None? <==> forall i :: 0 <= i < |rows| ==> rows[i].kind != kind
    ensures v.Some? ==> forall i :: 0 <= i < |rows| && rows[i].kind == kind ==> rows[i].version <= v.value
  {
    if rows == [] then None
    else
      var init, last := rows[..|rows| - 1], rows[|rows| - 1];
      var v := Latest(init, kind);
      if last.kind == kind && (v.None? || v.value < last.version) then Some(last.version) else v
  }

  function NextVersion(rows: seq<Row>, kind: Kind): int {
    var latest := Latest(rows, kind);
    if latest.Some? then latest.value + 1 else 1
  }

  function Retire(rows: seq<Row>, kind: Kind): (r: seq<Row>)
    ensures |r| == |rows|
    ensures forall i :: 0 <= i < |rows| ==>
              r[i] == if rows[i].kind == kind && rows[i].status == Active then rows[i].(status := Retired) else rows[i]
  {
    seq(|rows|, i requires 0 <= i < |rows| =>
      if rows[i].kind == kind && rows[i].status == Active then rows[i].(status := Retired) else rows[i])
  }

  /** Retire the active row of the kind and insert the next one, at a version that was read before. */
  function Insert(rows: seq<Row>, kind: Kind, client: Option<nat>, activate: bool, version: int, settings: nat): seq<Row> {
    Retire(rows, kind) + [Row(kind, client, if activate then Active else Pending, version, settings)]
  }

  function Activated(rows: seq<Row>, kind: Kind, client: Option<nat>, activate: bool, settings: nat): seq<Row> {
    Insert(rows, kind, client, activate, NextVersion(rows, kind), settings)
  }

  predicate IsCurrent(row: Row, kind: Kind) {
    row.kind == kind && row.status == Active && row.client.None?
  }

  /** The active row that holds for everybody; without a session there is none. */
  function ActiveRow(rows: Option<seq<Row>>, kind: Kind): (r: Option<Row>)
    ensures r.Some? ==> rows.Some? && r.value in rows.value && IsCurrent(r.value, kind)
    ensures r.None? && rows.Some? ==> forall i :: 0 <= i < |rows.value| ==> !IsCurrent(rows.value[i], kind)
    decreases if rows.Some? then |rows.value| else 0
  {
    if rows.None? || rows.value == [] then None
    else if IsCurrent(rows.value[0], kind) then Some(rows.value[0])
    else ActiveRow(Some(rows.value[1..]), kind)
  }

  /** What a provider ought to be built from. */
  function Wanted(rows: Option<seq<Row>>, kind: Kind): Config {
    var row := ActiveRow(rows, kind);
    if row.Some? then FromRow(row.value.settings) else FromEnvironment
  }

  /** -1 marks the environment. */
  function WantedVersion(rows: Option<seq<Row>>, kind: Kind): int {
    var row := ActiveRow(rows, kind);
    if row.Some? then row.value.version else -1
  }

  // ---------------------------------------------------------------------------
  // The cache
  // ---------------------------------------------------------------------------

  /** Closing takes providers from the end of the stale list; a close that fails is only logged. */
  function CloseStale(c: Cache): (c': Cache)
    ensures c'.stale == [] && c' == c.(stale := [], closed := c'.closed)
    ensures multiset(c'.closed) == multiset(c.closed) + multiset(c.stale)
    decreases |c.stale|
  {
    if c.stale == [] then c
    else
      var n := |c.stale| - 1;
      assert c.stale == c.stale[..n] + [c.stale[n]];
      CloseStale(c.(stale := c.stale[..n], closed := c.closed + [c.stale[n]]))
  }

  lemma ClosesNewest(c: Cache, c': Cache)
    requires c.stale != []
    requires c' == c.(stale := c.stale[..|c.stale| - 1], closed := c.closed + [c.stale[|c.stale| - 1]])
    ensures CloseStale(c') == CloseStale(c)
  {
  }

  function SetAside(c: Cache): Cache {
    if c.event.Some? then c.(event := None, stale := c.stale + [c.event.value]) else c
  }

  function Invalidated(c: Cache, kind: Option<Kind>): Cache {
    match kind
    case None => SetAside(c).(eventVersion := None, infra := None, infraVersion := None)
    case Some(Event) => SetAside(c).(eventVersion := None)
    case Some(Infrastructure) => c.(infra := None, infraVersion := None)
    case Some(OtherKind) => c
  }

  /** Building a provider into an empty slot. */
  function Built(c: Cache, p: Provider, version: int): Cache {
    c.(event := Some(p), eventVersion := Some(version), built := c.built + [p])
  }

  function GotEvent(c: Cache, rows: Option<seq<Row>>): Cache {
    var clean := CloseStale(c);
    if clean.event.Some? && clean.eventVersion == Some(WantedVersion(rows, Event)) then clean
    else
      Built(CloseStale(SetAside(clean)), Provider(|c.built|, Wanted(rows, Event)), WantedVersion(rows, Event))
  }

  function GotInfra(c: Cache, rows: Option<seq<Row>>): Cache {
    if c.infra.Some? && c.infraVersion == Some(WantedVersion(rows, Infrastructure)) then c
    else c.(infra := Some(Wanted(rows, Infrastructure)), infraVersion := Some(WantedVersion(rows, Infrastructure)))
  }

  class Registry {
    var rows: seq<Row>

    /** Retire and insert in one transaction. */
    method Activate(kind: Kind, client: Option<nat>, activate: bool, settings: nat) returns (row: Row)
      modifies this
      ensures rows == Activated(old(rows), kind, client, activate, settings)
      ensures |rows| == |old(rows)| + 1 && row == rows[|old(rows)|]
      ensures row.kind == kind && row.client == client && row.settings == settings
      ensures row.status == if activate then Active else Pending
      ensures forall i :: 0 <= i < |old(rows)| ==>
                rows[i] == if old(rows)[i].kind == kind && old(rows)[i].status == Active
                           then old(rows)[i].(status := Retired) else old(rows)[i]
      ensures forall i :: 0 <= i < |old(rows)| && old(rows)[i].kind == kind ==> old(rows)[i].version < row.version
      ensures if exists i :: 0 <= i < |old(rows)| && old(rows)[i].kind == kind
              then exists i :: 0 <= i < |old(rows)| && old(rows)[i].kind == kind && old(rows)[i].version + 1 == row.version
              else row.version == 1
    {
      LatestIsReached(rows, kind);
      var latest := Latest(rows, kind);
      var version := if latest.Some? then latest.value + 1 else 1;
      row := Row(kind, client, if activate then Active else Pending, version, settings);
      rows := Retire(rows, kind) + [row];
    }
  }

  class Manager {
    var event: Option<Provider>
    var eventVersion: Option<int>
    var stale: seq<Provider>
    var closed: seq<Provider>
    var built: seq<Provider>
    var infra: Option<Config>
    var infraVersion: Option<int>

    function Value(): Cache
      reads this
    {
      Cache(event, eventVersion, stale, closed, built, infra, infraVersion)
    }

    constructor ()
      ensures Value() == UNUSED
    {
      event, eventVersion, stale, closed, built := None, None, [], [], [];
      infra, infraVersion := None, None;
    }

    method Invalidate(kind: Option<Kind>)
      modifies this
      ensures Value() == Invalidated(old(Value()), kind)
      ensures if kind == None || kind == Some(Event)
              then event == None && eventVersion == None
                   && stale == old(stale) + (if old(event).Some? then [old(event).value] else [])
              else event == old(event) && eventVersion == old(eventVersion) && stale == old(stale)
      ensures if kind == None || kind == Some(Infrastructure)
              then infra == None && infraVersion == None else infra == old(infra) && infraVersion == old(infraVersion)
      ensures closed == old(closed) && built == old(built)
    {
      if kind.None? || kind.value == Event {
        if event.Some? {
          stale := stale + [event.value];
        }
        event, eventVersion := None, None;
      }
      if kind.None? || kind.value == Infrastructure {
        infra, infraVersion := None, None;
      }
    }

    method CloseAll()
      modifies this
      ensures Value() == CloseStale(old(Value()))
    {
      while stale != []
        invariant CloseStale(Value()) == CloseStale(old(Value()))
        decreases |stale|
      {
        ghost var before := Value();
        var last := stale[|stale| - 1];
        stale := stale[..|stale| - 1];
        closed := closed + [last];
        ClosesNewest(before, Value());
      }
    }

    method GetEventProvider(rows: Option<seq<Row>>) returns (p: Provider)
      modifies this
      ensures Value() == GotEvent(old(Value()), rows)
      ensures event == Some(p)
    {
      CloseAll();
      var row := ActiveRow(rows, Event);
      if row.Some? {
        if event.Some? && eventVersion == Some(row.value.version) {
          return event.value;
        }
        p := Replace(FromRow(row.value.settings), row.value.version);
        return p;
      }
      if event.Some? && eventVersion == Some(-1) {
        return event.value;
      }
      p := Replace(FromEnvironment, -1);
    }

    /** Set a cached provider aside, close it, and build another. */
    method Replace(config: Config, version: int) returns (p: Provider)
      requires stale == []
      modifies this
      ensures p == Provider(|old(built)|, config)
      ensures Value() == Built(CloseStale(SetAside(old(Value()))), p, version)
    {
      if event.Some? {
        stale, event := stale + [event.value], None;
        CloseAll();
      }
      p := Provider(|built|, config);
      event, eventVersion, built := Some(p), Some(version), built + [p];
    }

    method GetInfrastructureProvider(rows: Option<seq<Row>>) returns (p: Config)
      modifies this
      ensures Value() == GotInfra(old(Value()), rows)
      ensures infra == Some(p)
    {
      var row := ActiveRow(rows, Infrastructure);
      if row.Some? {
        if infra.Some? && infraVersion == Some(row.value.version) {
          return infra.value;
        }
        p := FromRow(row.value.settings);
        infra, infraVersion := Some(p), Some(row.value.version);
        return p;
      }
      if infra.Some? && infraVersion == Some(-1) {
        return infra.value;
      }
      p := FromEnvironment;
      infra, infraVersion := Some(p), Some(-1);
    }
  }

  // ---------------------------------------------------------------------------
  // Runs: several processes may activate rows, this one holds the cache
  // ---------------------------------------------------------------------------

  datatype Action =
    | Activate(kind: Kind, client: Option<nat>, activate: bool, settings: nat)
    | Invalidate(which: Option<Kind>)
    | GetEvent(session: bool)
    | GetInfra(session: bool)

  datatype System = System(rows: seq<Row>, cache: Cache)

  function Seen(s: System, session: bool): Option<seq<Row>> {
    if session then Some(s.rows) else None
  }

  function Step(s: System, a: Action): System {
    match a
    case Activate(kind, client, activate, settings) => s.(rows := Activated(s.rows, kind, client, activate, settings))
    case Invalidate(which) => s.(cache := Invalidated(s.cache, which))
    case GetEvent(session) => s.(cache := GotEvent(s.cache, Seen(s, session)))
    case GetInfra(session) => s.(cache := GotInfra(s.cache, Seen(s, session)))
  }

  function Exec(actions: seq<Action>): System {
    if actions == [] then System([], UNUSED)
    else Step(Exec(actions[..|actions| - 1]), actions[|actions| - 1])
  }

  /** Versions of a kind strictly increase, and at most one row of a kind is active. */
  ghost predicate RowsInv(rows: seq<Row>) {
    && (forall i :: 0 <= i < |rows| ==> 1 <= rows[i].version)
    && (forall i, j :: 0 <= i < j < |rows| && rows[i].kind == rows[j].kind ==>
          rows[i].version < rows[j].version && !(rows[i].status == Active && rows[j].status == Active))
  }

  lemma ActivateKeepsRows(rows: seq<Row>, kind: Kind, client: Option<nat>, activate: bool, settings: nat)
    requires RowsInv(rows)
    ensures RowsInv(Activated(rows, kind, client, activate, settings))
  {
    LatestIsReached(rows, kind);
  }

  lemma {:induction false} LatestIsReached(rows: seq<Row>, kind: Kind)
    ensures var v := Latest(rows, kind);
            v.Some? ==> exists i :: 0 <= i < |rows| && rows[i].kind == kind && rows[i].version == v.value
  {
    if rows != [] {
      LatestIsReached(rows[..|rows| - 1], kind);
      var v := Latest(rows[..|rows| - 1], kind);
      if v.Some? {
        var i :| 0 <= i < |rows| - 1 && rows[..|rows| - 1][i].kind == kind && rows[..|rows| - 1][i].version == v.value;
        assert rows[i].kind == kind && rows[i].version == v.value;
      }
    }
  }

  /** A configuration remembered under a version is that of the row with that version. */
  ghost predicate Matches(rows: seq<Row>, kind: Kind, version: Option<int>, config: Option<Config>) {
    && (version.Some? <==> config.Some?)
    && (version.Some? ==>
          || (version.value == -1 && config.value == FromEnvironment)
          || exists i :: 0 <= i < |rows| && rows[i].kind == kind && rows[i].version == version.value
                         && config.value == FromRow(rows[i].settings))
  }

  function ConfigOf(p: Option<Provider>): Option<Config> {
    if p.Some? then Some(p.value.config) else None
  }

  function Cached(c: Cache): seq<Provider> {
    if c.event.Some? then [c.event.value] else []
  }

  /** Where the event providers are. */
  function Everywhere(c: Cache): multiset<Provider> {
    multiset(Cached(c)) + multiset(c.stale) + multiset(c.closed)
  }

  /** Every event provider ever built is cached, stale or closed. */
  ghost predicate Conserved(c: Cache) {
    && (forall i :: 0 <= i < |c.built| ==> c.built[i].id == i)
    && Everywhere(c) == multiset(c.built)
  }

  ghost predicate Inv(s: System) {
    && RowsInv(s.rows)
    && Matches(s.rows, Event, s.cache.eventVersion, ConfigOf(s.cache.event))
    && Matches(s.rows, Infrastructure, s.cache.infraVersion, s.cache.infra)
    && Conserved(s.cache)
  }

  lemma MatchesLater(rows: seq<Row>, kind: Kind, client: Option<nat>, activate: bool, settings: nat,
                     k: Kind, version: Option<int>, config: Option<Config>)
    requires Matches(rows, k, version, config)
    ensures Matches(Activated(rows, kind, client, activate, settings), k, version, config)
  {
    var rows' := Activated(rows, kind, client, activate, settings);
    if version.Some? && !(version.value == -1 && config.value == FromEnvironment) {
      var i :| 0 <= i < |rows| && rows[i].kind == k && rows[i].version == version.value
               && config.value == FromRow(rows[i].settings);
      assert rows'[i].kind == k && rows'[i].version == version.value && config.value == FromRow(rows'[i].settings);
    }
  }

  lemma WantedMatches(rows: seq<Row>, session: bool, kind: Kind)
    requires RowsInv(rows)
    ensures var seen := if session then Some(rows) else None;
            Matches(rows, kind, Some(WantedVersion(seen, kind)), Some(Wanted(seen, kind)))
  {
  }

  /** Remembering the version that is wanted means remembering the configuration that is wanted. */
  lemma SameVersionSameConfig(rows: seq<Row>, session: bool, kind: Kind, version: Option<int>, config: Option<Config>)
    requires RowsInv(rows) && Matches(rows, kind, version, config)
    ensures var seen := if session then Some(rows) else None;
            version == Some(WantedVersion(seen, kind)) ==> config == Some(Wanted(seen, kind))
  {
    var seen := if session then Some(rows) else None;
    if version == Some(WantedVersion(seen, kind)) {
      var row := ActiveRow(seen, kind);
      if row.Some? {
        var j :| 0 <= j < |rows| && rows[j] == row.value;
        assert rows[j].kind == kind && 1 <= rows[j].version;
      }
    }
  }

  lemma AsideIsSomewhere(c: Cache)
    ensures Everywhere(SetAside(c)) == Everywhere(c)
  {
    var none: seq<Provider> := [];
    if c.event.Some? {
      assert multiset(c.stale + [c.event.value]) == multiset(c.stale) + multiset([c.event.value]);
      assert multiset(none) == multiset{};
    }
  }

  lemma ClosingIsSomewhere(c: Cache)
    ensures Everywhere(CloseStale(c)) == Everywhere(c)
  {
    var c' := CloseStale(c);
    assert Cached(c') == Cached(c) && multiset(c'.stale) == multiset{};
  }

  lemma BuildingAddsOne(c: Cache, p: Provider, version: int)
    requires Conserved(c) && c.event.None? && p.id == |c.built|
    ensures Conserved(Built(c, p, version))
  {
    var c' := Built(c, p, version);
    assert Cached(c) == [] && Cached(c') == [p];
    assert multiset(c.built + [p]) == multiset(c.built) + multiset([p]);
    assert Everywhere(c') == Everywhere(c) + multiset([p]);
  }

  lemma GetKeepsConserved(c: Cache, rows: Option<seq<Row>>)
    requires Conserved(c)
    ensures Conserved(GotEvent(c, rows))
    ensures GotEvent(c, rows).stale == [] && GotEvent(c, rows).event.Some?
  {
    var clean := CloseStale(c);
    ClosingIsSomewhere(c);
    if !(clean.event.Some? && clean.eventVersion == Some(WantedVersion(rows, Event))) {
      AsideIsSomewhere(clean);
      ClosingIsSomewhere(SetAside(clean));
      var empty, p := CloseStale(SetAside(clean)), Provider(|c.built|, Wanted(rows, Event));
      BuildingAddsOne(empty, p, WantedVersion(rows, Event));
    }
  }

  lemma InvalidateKeepsConserved(c: Cache, which: Option<Kind>)
    requires Conserved(c)
    ensures Conserved(Invalidated(c, which))
  {
    AsideIsSomewhere(c);
    if which.None? || which.value == Event {
      assert Everywhere(Invalidated(c, which)) == Everywhere(SetAside(c));
    } else {
      assert Everywhere(Invalidated(c, which)) == Everywhere(c);
    }
  }

  /** A get leaves the cached provider as it is or holds what is wanted. */
  lemma GetEventShape(c: Cache, rows: Option<seq<Row>>)
    ensures var c' := GotEvent(c, rows);
            && c'.infra == c.infra && c'.infraVersion == c.infraVersion
            && ((ConfigOf(c'.event) == ConfigOf(c.event) && c'.eventVersion == c.eventVersion)
                || (ConfigOf(c'.event) == Some(Wanted(rows, Event)) && c'.eventVersion == Some(WantedVersion(rows, Event))))
  {
  }

  lemma GetEventKeeps(s: System, session: bool)
    requires Inv(s)
    ensures Inv(Step(s, GetEvent(session)))
  {
    GetKeepsConserved(s.cache, Seen(s, session));
    GetEventShape(s.cache, Seen(s, session));
    WantedMatches(s.rows, session, Event);
    InvOf(s.rows, s.cache, GotEvent(s.cache, Seen(s, session)));
  }

  lemma InvOf(rows: seq<Row>, c: Cache, c': Cache)
    requires Inv(System(rows, c)) && Conserved(c')
    requires Matches(rows, Event, c'.eventVersion, ConfigOf(c'.event))
    requires Matches(rows, Infrastructure, c'.infraVersion, c'.infra)
    ensures Inv(System(rows, c'))
  {
  }

  /** Invalidating leaves each cached provider as it is or forgets it with its version. */
  lemma InvalidateShape(c: Cache, which: Option<Kind>)
    ensures var c' := Invalidated(c, which);
            && ((c'.event == c.event && c'.eventVersion == c.eventVersion) || (c'.event.None? && c'.eventVersion.None?))
            && ((c'.infra == c.infra && c'.infraVersion == c.infraVersion) || (c'.infra.None? && c'.infraVersion.None?))
  {
  }

  lemma NothingMatches(rows: seq<Row>, kind: Kind)
    ensures Matches(rows, kind, None, None)
  {
  }

  lemma InvalidateKeeps(s: System, which: Option<Kind>)
    requires Inv(s)
    ensures Inv(Step(s, Invalidate(which)))
  {
    var c' := Invalidated(s.cache, which);
    InvalidateKeepsConserved(s.cache, which);
    InvalidateShape(s.cache, which);
    NothingMatches(s.rows, Event);
    NothingMatches(s.rows, Infrastructure);
    assert ConfigOf(c'.event) == ConfigOf(s.cache.event) || ConfigOf(c'.event) == None;
    InvOf(s.rows, s.cache, c');
  }

  lemma GetInfraKeeps(s: System, session: bool)
    requires Inv(s)
    ensures Inv(Step(s, GetInfra(session)))
  {
    WantedMatches(s.rows, session, Infrastructure);
    assert Everywhere(Step(s, GetInfra(session)).cache) == Everywhere(s.cache);
  }

  lemma ActivateKeeps(s: System, kind: Kind, client: Option<nat>, activate: bool, settings: nat)
    requires Inv(s)
    ensures Inv(Step(s, Activate(kind, client, activate, settings)))
  {
    ActivateKeepsRows(s.rows, kind, client, activate, settings);
    MatchesLater(s.rows, kind, client, activate, settings, Event, s.cache.eventVersion, ConfigOf(s.cache.event));
    MatchesLater(s.rows, kind, client, activate, settings, Infrastructure, s.cache.infraVersion, s.cache.infra);
  }

  lemma InvStep(s: System, a: Action)
    requires Inv(s)
    ensures Inv(Step(s, a))
  {
    match a
    case Activate(kind, client, activate, settings) => ActivateKeeps(s, kind, client, activate, settings);
    case Invalidate(which) => InvalidateKeeps(s, which);
    case GetEvent(session) => GetEventKeeps(s, session);
    case GetInfra(session) => GetInfraKeeps(s, session);
  }

  lemma {:induction false} InvHolds(actions: seq<Action>)
    ensures Inv(Exec(actions))
  {
    if actions != [] {
      InvHolds(actions[..|actions| - 1]);
      InvStep(Exec(actions[..|actions| - 1]), actions[|actions| - 1]);
    }
  }

  /** In every run versions of a kind strictly increase and at most one row of a kind is active. */
  lemma {:induction false} VersionsIncrease(actions: seq<Action>, i: nat, j: nat)
    requires i < j < |Exec(actions).rows| && Exec(actions).rows[i].kind == Exec(actions).rows[j].kind
    ensures Exec(actions).rows[i].version < Exec(actions).rows[j].version
    ensures !(Exec(actions).rows[i].status == Active && Exec(actions).rows[j].status == Active)
  {
    InvHolds(actions);
  }

  /** After any run, a get returns a provider built from the row that is active now, or from the
      environment when there is none, even if nothing was invalidated in this process. */
  lemma {:induction false} GetAgreesWithRebuilding(actions: seq<Action>, session: bool)
    ensures var s := Exec(actions);
            ConfigOf(GotEvent(s.cache, Seen(s, session)).event) == Some(Wanted(Seen(s, session), Event))
    ensures var s := Exec(actions);
            GotInfra(s.cache, Seen(s, session)).infra == Some(Wanted(Seen(s, session), Infrastructure))
  {
    InvHolds(actions);
    var s := Exec(actions);
    SameVersionSameConfig(s.rows, session, Event, s.cache.eventVersion, ConfigOf(s.cache.event));
    SameVersionSameConfig(s.rows, session, Infrastructure, s.cache.infraVersion, s.cache.infra);
  }

  lemma {:induction false} DistinctCount(built: seq<Provider>, i: nat)
    requires (forall k :: 0 <= k < |built| ==> built[k].id == k) && i < |built|
    ensures multiset(built)[built[i]] == 1
    decreases |built|
  {
    var n := |built| - 1;
    assert built == built[..n] + [built[n]];
    if i < n {
      DistinctCount(built[..n], i);
    } else {
      assert built[n] !in built[..n];
    }
  }

  /** After any run every event provider ever built is in exactly one place: cached, stale or closed. */
  lemma {:induction false} ExactlyOnePlace(actions: seq<Action>, i: nat)
    requires i < |Exec(actions).cache.built|
    ensures var c := Exec(actions).cache;
            multiset(Cached(c))[c.built[i]] + multiset(c.stale)[c.built[i]] + multiset(c.closed)[c.built[i]] == 1
  {
    InvHolds(actions);
    var c := Exec(actions).cache;
    DistinctCount(c.built, i);
    assert Everywhere(c)[c.built[i]] == 1;
  }

  /** After a get exactly one event provider is open, the one returned: it is not closed, and every
      other one is closed exactly once. */
  lemma OneOpenAfterGet(actions: seq<Action>, session: bool, i: nat)
    requires i < |Exec(actions + [GetEvent(session)]).cache.built|
    ensures var c := Exec(actions + [GetEvent(session)]).cache;
            c.event.Some? && multiset(c.closed)[c.built[i]] == if c.built[i] == c.event.value then 0 else 1
  {
    var all := actions + [GetEvent(session)];
    assert all[..|all| - 1] == actions;
    InvHolds(actions);
    GetKeepsConserved(Exec(actions).cache, Seen(Exec(actions), session));
    ExactlyOnePlace(all, i);
  }

  // ---------------------------------------------------------------------------
  // What a get yields, and when it builds
  // ---------------------------------------------------------------------------

  /** Row i is the active row of the kind that holds for every client. */
  predicate IsGlobal(rows: seq<Row>, kind: Kind, i: nat) {
    i < |rows| && rows[i].kind == kind && rows[i].status == Active && rows[i].client == None
  }

  lemma {:induction false} GlobalIsActive(rows: seq<Row>, kind: Kind, i: nat)
    requires IsGlobal(rows, kind, i) && forall j: nat :: IsGlobal(rows, kind, j) ==> j == i
    ensures ActiveRow(Some(rows), kind) == Some(rows[i])
    decreases |rows|
  {
    if i > 0 {
      assert !IsGlobal(rows, kind, 0);
      forall j: nat | IsGlobal(rows[1..], kind, j) ensures j == i - 1 {
        assert IsGlobal(rows, kind, j + 1);
      }
      GlobalIsActive(rows[1..], kind, i - 1);
    }
  }

  lemma NoGlobalRow(rows: seq<Row>, kind: Kind)
    requires forall j: nat :: !IsGlobal(rows, kind, j)
    ensures ActiveRow(Some(rows), kind) == None
  {
    var row := ActiveRow(Some(rows), kind);
    if row.Some? {
      var j :| 0 <= j < |rows| && rows[j] == row.value;
      assert IsGlobal(rows, kind, j);
    }
  }

  lemma WantedIs(actions: seq<Action>, kind: Kind, i: nat)
    ensures var rows := Exec(actions).rows;
            && (IsGlobal(rows, kind, i) ==>
                  Wanted(Some(rows), kind) == FromRow(rows[i].settings) && WantedVersion(Some(rows), kind) == rows[i].version)
            && ((forall j: nat :: !IsGlobal(rows, kind, j)) ==>
                  Wanted(Some(rows), kind) == FromEnvironment && WantedVersion(Some(rows), kind) == -1)
  {
    var rows := Exec(actions).rows;
    InvHolds(actions);
    if IsGlobal(rows, kind, i) {
      forall j: nat | IsGlobal(rows, kind, j) ensures j == i {
        assert i < j || j <= i;
      }
      GlobalIsActive(rows, kind, i);
    }
    if forall j: nat :: !IsGlobal(rows, kind, j) {
      NoGlobalRow(rows, kind);
    }
  }

  /** After any run a get with a session yields what the active global row says, and the environment's
      provider when there is none, as a get without a session does. */
  lemma GetYields(actions: seq<Action>, i: nat)
    ensures var (s, c) := (Exec(actions), GotEvent(Exec(actions).cache, Some(Exec(actions).rows)));
            && (IsGlobal(s.rows, Event, i) ==> ConfigOf(c.event) == Some(FromRow(s.rows[i].settings)))
            && ((forall j: nat :: !IsGlobal(s.rows, Event, j)) ==> ConfigOf(c.event) == Some(FromEnvironment))
    ensures var (s, c) := (Exec(actions), GotInfra(Exec(actions).cache, Some(Exec(actions).rows)));
            && (IsGlobal(s.rows, Infrastructure, i) ==> c.infra == Some(FromRow(s.rows[i].settings)))
            && ((forall j: nat :: !IsGlobal(s.rows, Infrastructure, j)) ==> c.infra == Some(FromEnvironment))
    ensures ConfigOf(GotEvent(Exec(actions).cache, None).event) == Some(FromEnvironment)
  {
    GetAgreesWithRebuilding(actions, true);
    GetAgreesWithRebuilding(actions, false);
    WantedIs(actions, Event, i);
    WantedIs(actions, Infrastructure, i);
  }

  /** It builds a new provider exactly if none of that row's version is cached. */
  lemma GetBuildsIff(actions: seq<Action>, i: nat)
    requires IsGlobal(Exec(actions).rows, Event, i)
    ensures var (s, c) := (Exec(actions), Exec(actions).cache);
            var c' := GotEvent(c, Some(s.rows));
            if c.event.Some? && c.eventVersion == Some(s.rows[i].version) then c'.built == c.built && c'.event == c.event
            else |c'.built| == |c.built| + 1 && c'.event == Some(c'.built[|c.built|])
  {
    WantedIs(actions, Event, i);
  }

  /** Forgetting the event provider makes the next get build another and close the old one. */
  lemma ForgottenIsRebuilt(c: Cache, which: Option<Kind>, rows: Option<seq<Row>>)
    requires which == None || which == Some(Event)
    ensures var c' := GotEvent(Invalidated(c, which), rows);
            && |c'.built| == |c.built| + 1 && c'.event == Some(c'.built[|c.built|])
            && (c.event.Some? ==> c.event.value in c'.closed)
  {
    if c.event.Some? {
      var aside := Invalidated(c, which);
      assert c.event.value in multiset(aside.stale);
      assert c.event.value in multiset(CloseStale(aside).closed);
      ClosedStays(aside, rows, c.event.value);
    }
  }

  lemma ClosedStays(c: Cache, rows: Option<seq<Row>>, p: Provider)
    requires p in CloseStale(c).closed
    ensures p in GotEvent(c, rows).closed
  {
    var clean := CloseStale(c);
    assert p in multiset(clean.closed);
    assert p in multiset(CloseStale(SetAside(clean)).closed);
  }
}
