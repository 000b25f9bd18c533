/** Activations that interleave: each reads the latest version in one step and retires and inserts in a
    later one. A get then agrees with rebuilding unless a version was given out twice. */
module ProviderRaces {
  import opened Common
  import opened ProviderCache

  datatype Action =
    | ReadLatest(admin: nat, kind: Kind)
    | Commit(admin: nat, client: Option<nat>, activate: bool, settings: nat)
    | Forget(which: Option<Kind>)
    | UseEvent(session: bool)
    | UseInfra(session: bool)

  datatype Read = Read(kind: Kind, version: int)

  /** `pending` holds, for each activation under way, its kind and the version that it will insert. */
  datatype State = State(rows: seq<Row>, cache: Cache, pending: map<nat, Read>)

  function SeenBy(s: State, session: bool): Option<seq<Row>> {
    if session then Some(s.rows) else None
  }

  function Step(s: State, a: Action): State {
    match a
    case ReadLatest(admin, kind) => s.(pending := s.pending[admin := Read(kind, NextVersion(s.rows, kind))])
    case Commit(admin, client, activate, settings) =>
      if admin !in s.pending then s
      else
        var Read(kind, version) := s.pending[admin];
        s.(rows := Insert(s.rows, kind, client, activate, version, settings), pending := s.pending - {admin})
    case Forget(which) => s.(cache := Invalidated(s.cache, which))
    case UseEvent(session) => s.(cache := GotEvent(s.cache, SeenBy(s, session)))
    case UseInfra(session) => s.(cache := GotInfra(s.cache, SeenBy(s, session)))
  }

  function Exec(actions: seq<Action>): State {
    if actions == [] then State([], UNUSED, map[])
    else Step(Exec(actions[..|actions| - 1]), actions[|actions| - 1])
  }

  // ---------------------------------------------------------------------------
  // What every step keeps
  // ---------------------------------------------------------------------------

  predicate HasVersion(rows: seq<Row>, kind: Kind, v: int) {
    exists i :: 0 <= i < |rows| && rows[i].kind == kind && rows[i].version == v
  }

  /** At most one row of a kind is active, and the versions of a kind leave no gap. */
  ghost predicate RowsWeak(rows: seq<Row>) {
    && (forall i :: 0 <= i < |rows| ==> 1 <= rows[i].version)
    && (forall i, j :: 0 <= i < j < |rows| && rows[i].kind == rows[j].kind ==>
          !(rows[i].status == Active && rows[j].status == Active))
    && (forall i, v :: 0 <= i < |rows| && 1 <= v <= rows[i].version ==> HasVersion(rows, rows[i].kind, v))
  }

  predicate PendingWeak(rows: seq<Row>, read: Read) {
    1 <= read.version <= NextVersion(rows, read.kind)
  }

  ghost predicate Inv(s: State) {
    && RowsWeak(s.rows)
    && (forall a :: a in s.pending ==> PendingWeak(s.rows, s.pending[a]))
    && Matches(s.rows, Event, s.cache.eventVersion, ConfigOf(s.cache.event))
    && Matches(s.rows, Infrastructure, s.cache.infraVersion, s.cache.infra)
  }

  /** No version of a kind is given out twice. */
  ghost predicate Unique(rows: seq<Row>) {
    forall i, j :: 0 <= i < j < |rows| && rows[i].kind == rows[j].kind ==> rows[i].version != rows[j].version
  }

  lemma LatestIsAVersion(rows: seq<Row>, kind: Kind)
    ensures Latest(rows, kind).Some? ==> HasVersion(rows, kind, Latest(rows, kind).value)
  {
    LatestIsReached(rows, kind);
  }

  lemma VersionsReach(rows: seq<Row>, kind: Kind, v: int)
    requires RowsWeak(rows) && 1 <= v < NextVersion(rows, kind)
    ensures HasVersion(rows, kind, v)
  {
    LatestIsAVersion(rows, kind);
    var i :| 0 <= i < |rows| && rows[i].kind == kind && rows[i].version == Latest(rows, kind).value;
    assert 1 <= v <= rows[i].version;
  }

  lemma InsertKeepsVersions(rows: seq<Row>, kind: Kind, client: Option<nat>, activate: bool, version: int, settings: nat, k: Kind, v: int)
    ensures HasVersion(Insert(rows, kind, client, activate, version, settings), k, v)
            <==> HasVersion(rows, k, v) || (k == kind && v == version)
  {
    var rows' := Insert(rows, kind, client, activate, version, settings);
    if HasVersion(rows, k, v) {
      var i :| 0 <= i < |rows| && rows[i].kind == k && rows[i].version == v;
      assert rows'[i].kind == k && rows'[i].version == v;
    }
    if k == kind && v == version {
      assert rows'[|rows|].kind == k && rows'[|rows|].version == v;
    }
  }

  lemma InsertKeepsRows(rows: seq<Row>, kind: Kind, client: Option<nat>, activate: bool, version: int, settings: nat)
    requires RowsWeak(rows) && 1 <= version <= NextVersion(rows, kind)
    ensures RowsWeak(Insert(rows, kind, client, activate, version, settings))
  {
    var rows' := Insert(rows, kind, client, activate, version, settings);
    forall i, v | 0 <= i < |rows'| && 1 <= v <= rows'[i].version ensures HasVersion(rows', rows'[i].kind, v) {
      InsertKeepsVersions(rows, kind, client, activate, version, settings, rows'[i].kind, v);
      if i < |rows| {
        assert HasVersion(rows, rows[i].kind, v);
      } else if v < version {
        VersionsReach(rows, kind, v);
      }
    }
  }

  lemma NextNeverFalls(rows: seq<Row>, kind: Kind, client: Option<nat>, activate: bool, version: int, settings: nat, k: Kind)
    ensures NextVersion(rows, k) <= NextVersion(Insert(rows, kind, client, activate, version, settings), k)
            || Latest(rows, k).None?
    ensures version + 1 <= NextVersion(Insert(rows, kind, client, activate, version, settings), kind)
  {
    var rows' := Insert(rows, kind, client, activate, version, settings);
    assert rows'[|rows|].kind == kind && rows'[|rows|].version == version;
    LatestIsAVersion(rows, k);
    if Latest(rows, k).Some? {
      var i :| 0 <= i < |rows| && rows[i].kind == k && rows[i].version == Latest(rows, k).value;
      assert rows'[i].kind == k && rows'[i].version == rows[i].version;
    }
  }

  lemma InsertMatches(rows: seq<Row>, kind: Kind, client: Option<nat>, activate: bool, v: int, settings: nat,
                      k: Kind, version: Option<int>, config: Option<Config>)
    requires Matches(rows, k, version, config)
    ensures Matches(Insert(rows, kind, client, activate, v, settings), k, version, config)
  {
    var rows' := Insert(rows, kind, client, activate, v, settings);
    if version.Some? && !(version.value == -1 && config.value == FromEnvironment) {
      var i :| 0 <= i < |rows| && rows[i].kind == k && rows[i].version == version.value
               && config.value == FromRow(rows[i].settings);
      assert rows'[i].kind == k && rows'[i].version == version.value && config.value == FromRow(rows'[i].settings);
    }
  }

  lemma CommitKeeps(s: State, admin: nat, client: Option<nat>, activate: bool, settings: nat)
    requires Inv(s) && admin in s.pending
    ensures Inv(Step(s, Commit(admin, client, activate, settings)))
  {
    var Read(kind, version) := s.pending[admin];
    assert PendingWeak(s.rows, s.pending[admin]);
    InsertKeepsRows(s.rows, kind, client, activate, version, settings);
    InsertMatches(s.rows, kind, client, activate, version, settings, Event, s.cache.eventVersion, ConfigOf(s.cache.event));
    InsertMatches(s.rows, kind, client, activate, version, settings, Infrastructure, s.cache.infraVersion, s.cache.infra);
    var s' := Step(s, Commit(admin, client, activate, settings));
    forall a | a in s'.pending ensures PendingWeak(s'.rows, s'.pending[a]) {
      assert PendingWeak(s.rows, s.pending[a]);
      NextNeverFalls(s.rows, kind, client, activate, version, settings, s.pending[a].kind);
      PositiveNext(s'.rows, s.pending[a].kind);
    }
  }

  lemma PositiveNext(rows: seq<Row>, kind: Kind)
    requires RowsWeak(rows)
    ensures 1 <= NextVersion(rows, kind)
  {
    LatestIsAVersion(rows, kind);
  }

  lemma WantedMatchesWeak(rows: seq<Row>, session: bool, kind: Kind)
    ensures var seen := if session then Some(rows) else None;
            Matches(rows, kind, Some(WantedVersion(seen, kind)), Some(Wanted(seen, kind)))
  {
  }

  lemma InvStep(s: State, a: Action)
    requires Inv(s)
    ensures Inv(Step(s, a))
  {
    match a
    case ReadLatest(admin, kind) => PositiveNext(s.rows, kind);
    case Commit(admin, client, activate, settings) =>
      if admin in s.pending {
        CommitKeeps(s, admin, client, activate, settings);
      }
    case Forget(which) => ForgetKeeps(s, which);
    case UseEvent(session) =>
      GetEventShape(s.cache, SeenBy(s, session));
      WantedMatchesWeak(s.rows, session, Event);
    case UseInfra(session) =>
      WantedMatchesWeak(s.rows, session, Infrastructure);
  }

  lemma ForgetKeeps(s: State, which: Option<Kind>)
    requires Inv(s)
    ensures Inv(Step(s, Forget(which)))
  {
    InvalidateShape(s.cache, which);
    NothingMatches(s.rows, Event);
    NothingMatches(s.rows, Infrastructure);
    var c' := Invalidated(s.cache, which);
    assert ConfigOf(c'.event) == ConfigOf(s.cache.event) || ConfigOf(c'.event) == None;
  }

  lemma {:induction false} InvHolds(actions: seq<Action>)
    ensures Inv(Exec(actions))
  {
    if actions != [] {
      InvHolds(actions[..|actions| - 1]);
      InvStep(Exec(actions[..|actions| - 1]), actions[|actions| - 1]);
    }
  }

  // ---------------------------------------------------------------------------
  // When versions are unique
  // ---------------------------------------------------------------------------

  /** A commit whose version is still the next one. */
  predicate Fresh(s: State, a: Action) {
    a.Commit? && a.admin in s.pending ==> s.pending[a.admin].version == NextVersion(s.rows, s.pending[a.admin].kind)
  }

  lemma UniqueStep(s: State, a: Action)
    requires Inv(s)
    ensures Unique(Step(s, a).rows) <==> Unique(s.rows) && Fresh(s, a)
  {
    if a.Commit? && a.admin in s.pending {
      var Read(kind, version) := s.pending[a.admin];
      assert PendingWeak(s.rows, s.pending[a.admin]);
      UniqueInsert(s.rows, kind, a.client, a.activate, version, a.settings);
      if version < NextVersion(s.rows, kind) {
        VersionsReach(s.rows, kind, version);
      } else if HasVersion(s.rows, kind, version) {
        var i :| 0 <= i < |s.rows| && s.rows[i].kind == kind && s.rows[i].version == version;
      }
    }
  }

  lemma UniqueInsert(rows: seq<Row>, kind: Kind, client: Option<nat>, activate: bool, version: int, settings: nat)
    ensures Unique(Insert(rows, kind, client, activate, version, settings))
            <==> Unique(rows) && !HasVersion(rows, kind, version)
  {
    var rows' := Insert(rows, kind, client, activate, version, settings);
    assert forall i :: 0 <= i < |rows| ==> rows'[i].kind == rows[i].kind && rows'[i].version == rows[i].version;
    assert rows'[|rows|].kind == kind && rows'[|rows|].version == version;
    if Unique(rows') {
      forall i, j | 0 <= i < j < |rows| && rows[i].kind == rows[j].kind ensures rows[i].version != rows[j].version {
        assert rows'[i].kind == rows'[j].kind;
      }
      forall i | 0 <= i < |rows| && rows[i].kind == kind ensures rows[i].version != version {
        assert rows'[i].kind == rows'[|rows|].kind;
      }
    }
  }

  /** Every commit of the run is fresh. */
  predicate AllFresh(actions: seq<Action>) {
    actions == []
    || (AllFresh(actions[..|actions| - 1]) && Fresh(Exec(actions[..|actions| - 1]), actions[|actions| - 1]))
  }

  /** Over any run, every version of a kind is given out once exactly if every activation commits a
      version that is still the next one, as it does when nobody committed in between. */
  lemma {:induction false} UniqueIffFresh(actions: seq<Action>)
    ensures Unique(Exec(actions).rows) <==> AllFresh(actions)
  {
    if actions != [] {
      var last := |actions| - 1;
      UniqueIffFresh(actions[..last]);
      InvHolds(actions[..last]);
      UniqueStep(Exec(actions[..last]), actions[last]);
    }
  }

  // ---------------------------------------------------------------------------
  // When a get agrees with rebuilding
  // ---------------------------------------------------------------------------

  /** The cache holds what was built from another row of the wanted version, with other settings. */
  predicate CachedFromOther(rows: seq<Row>, session: bool, kind: Kind, version: Option<int>, config: Option<Config>) {
    var seen := if session then Some(rows) else None;
    exists i :: 0 <= i < |rows| && rows[i].kind == kind && rows[i].version == WantedVersion(seen, kind)
                && version == Some(rows[i].version) && config == Some(FromRow(rows[i].settings))
                && FromRow(rows[i].settings) != Wanted(seen, kind)
  }

  lemma AgreesUnlessOther(rows: seq<Row>, session: bool, kind: Kind, version: Option<int>, config: Option<Config>)
    requires RowsWeak(rows) && Matches(rows, kind, version, config)
    ensures var seen := if session then Some(rows) else None;
            (version == Some(WantedVersion(seen, kind)) && config != Some(Wanted(seen, kind)))
            <==> CachedFromOther(rows, session, kind, version, config)
  {
    var seen := if session then Some(rows) else None;
    var row := ActiveRow(seen, kind);
    if row.Some? {
      var j :| 0 <= j < |rows| && rows[j] == row.value;
      assert 1 <= rows[j].version;
    }
  }

  /** After any run of interleaved activations, a get agrees with rebuilding exactly unless the active
      row's version is cached from another row with other settings. */
  lemma {:induction false} GetAgreesIff(actions: seq<Action>, session: bool)
    ensures var s := Exec(actions);
            ConfigOf(GotEvent(s.cache, SeenBy(s, session)).event) == Some(Wanted(SeenBy(s, session), Event))
            <==> !CachedFromOther(s.rows, session, Event, s.cache.eventVersion, ConfigOf(s.cache.event))
    ensures var s := Exec(actions);
            GotInfra(s.cache, SeenBy(s, session)).infra == Some(Wanted(SeenBy(s, session), Infrastructure))
            <==> !CachedFromOther(s.rows, session, Infrastructure, s.cache.infraVersion, s.cache.infra)
  {
    InvHolds(actions);
    var s := Exec(actions);
    AgreesUnlessOther(s.rows, session, Event, s.cache.eventVersion, ConfigOf(s.cache.event));
    AgreesUnlessOther(s.rows, session, Infrastructure, s.cache.infraVersion, s.cache.infra);
    EventHit(s.cache, SeenBy(s, session));
  }

  lemma EventHit(c: Cache, rows: Option<seq<Row>>)
    ensures ConfigOf(GotEvent(c, rows).event)
            == if c.event.Some? && c.eventVersion == Some(WantedVersion(rows, Event)) then ConfigOf(c.event)
               else Some(Wanted(rows, Event))
  {
  }

  /** So it always agrees in a run in which every commit is fresh, however reads and commits interleave. */
  lemma {:induction false} FreshRunsAgree(actions: seq<Action>, session: bool)
    requires AllFresh(actions)
    ensures var s := Exec(actions);
            ConfigOf(GotEvent(s.cache, SeenBy(s, session)).event) == Some(Wanted(SeenBy(s, session), Event))
    ensures var s := Exec(actions);
            GotInfra(s.cache, SeenBy(s, session)).infra == Some(Wanted(SeenBy(s, session), Infrastructure))
  {
    var s := Exec(actions);
    InvHolds(actions);
    UniqueIffFresh(actions);
    GetAgreesIff(actions, session);
    UniqueIsNotOther(s.rows, session, Event, s.cache.eventVersion, ConfigOf(s.cache.event));
    UniqueIsNotOther(s.rows, session, Infrastructure, s.cache.infraVersion, s.cache.infra);
  }

  lemma UniqueIsNotOther(rows: seq<Row>, session: bool, kind: Kind, version: Option<int>, config: Option<Config>)
    requires Unique(rows) && forall i :: 0 <= i < |rows| ==> 1 <= rows[i].version
    ensures !CachedFromOther(rows, session, kind, version, config)
  {
    var seen := if session then Some(rows) else None;
    var row := ActiveRow(seen, kind);
    if row.Some? {
      var j :| 0 <= j < |rows| && rows[j] == row.value;
      forall i | 0 <= i < |rows| && rows[i].kind == kind && rows[i].version == rows[j].version ensures i == j {
      }
    }
  }

  /** Two activations read the same latest version, the first commits and is used, the second commits. */
  function Race(first: nat, second: nat): seq<Action> {
    [ReadLatest(0, Event), ReadLatest(1, Event), Commit(0, None, true, first), UseEvent(true), Commit(1, None, true, second)]
  }

  lemma ExecMore(actions: seq<Action>, n: nat)
    requires n < |actions|
    ensures Exec(actions[..n + 1]) == Step(Exec(actions[..n]), actions[n])
  {
    assert actions[..n + 1][..n] == actions[..n];
  }

  /** Then the second row is active and the process keeps serving the first, for any two settings that
      differ. */
  lemma RacingActivationsServeStale(first: nat, second: nat)
    requires first != second
    ensures var s := Exec(Race(first, second));
            && !AllFresh(Race(first, second))
            && Wanted(Some(s.rows), Event) == FromRow(second)
            && ConfigOf(GotEvent(s.cache, Some(s.rows)).event) == Some(FromRow(first))
  {
    var s := CommittedTwice(first, second);
    SecondIsActive(s.rows);
    EventHit(s.cache, Some(s.rows));
    UniqueIffFresh(Race(first, second));
    assert s.rows[0].version == s.rows[1].version;
  }

  lemma CommittedTwice(first: nat, second: nat) returns (s: State)
    ensures s == Exec(Race(first, second))
    ensures s.rows == [Row(Event, None, Retired, 1, first), Row(Event, None, Active, 1, second)]
    ensures s.cache.eventVersion == Some(1) && ConfigOf(s.cache.event) == Some(FromRow(first))
  {
    var actions := Race(first, second);
    var s4 := UsedOnce(first, second);
    ExecMore(actions, 4);
    assert actions[..5] == actions;
    s := Step(s4, actions[4]);
  }

  lemma SecondIsActive(rows: seq<Row>)
    requires |rows| == 2 && !IsCurrent(rows[0], Event) && IsCurrent(rows[1], Event)
    ensures ActiveRow(Some(rows), Event) == Some(rows[1])
  {
    assert ActiveRow(Some(rows), Event) == ActiveRow(Some(rows[1..]), Event);
  }

  lemma UsedOnce(first: nat, second: nat) returns (s4: State)
    ensures s4 == Exec(Race(first, second)[..4])
    ensures s4.rows == [Row(Event, None, Active, 1, first)] && s4.pending == map[1 := Read(Event, 1)]
    ensures s4.cache.eventVersion == Some(1) && ConfigOf(s4.cache.event) == Some(FromRow(first))
  {
    var actions := Race(first, second);
    var s3 := CommittedOnce(first, second);
    ExecMore(actions, 3);
    s4 := Step(s3, actions[3]);
    assert ActiveRow(Some(s3.rows), Event) == Some(s3.rows[0]);
    FirstUse(s3.cache, s3.rows);
  }

  lemma FirstUse(c: Cache, rows: seq<Row>)
    requires c.event.None? && ActiveRow(Some(rows), Event).Some?
    ensures var row := ActiveRow(Some(rows), Event).value;
            GotEvent(c, Some(rows)).eventVersion == Some(row.version)
            && ConfigOf(GotEvent(c, Some(rows)).event) == Some(FromRow(row.settings))
  {
  }

  lemma CommittedOnce(first: nat, second: nat) returns (s3: State)
    ensures s3 == Exec(Race(first, second)[..3])
    ensures s3 == State([Row(Event, None, Active, 1, first)], UNUSED, map[1 := Read(Event, 1)])
  {
    var actions := Race(first, second);
    s3 := State([Row(Event, None, Active, 1, first)], UNUSED, map[1 := Read(Event, 1)]);
    BothRead(first, second);
    ExecMore(actions, 2);
    assert Retire([], Event) == [];
    assert map[0 := Read(Event, 1), 1 := Read(Event, 1)] - {0} == map[1 := Read(Event, 1)];
  }

  lemma BothRead(first: nat, second: nat)
    ensures Exec(Race(first, second)[..2]) == State([], UNUSED, map[0 := Read(Event, 1), 1 := Read(Event, 1)])
  {
    var actions := Race(first, second);
    assert actions[..0] == [] && NextVersion([], Event) == 1;
    ExecMore(actions, 0);
    ExecMore(actions, 1);
  }
}
