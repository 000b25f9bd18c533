/** The broker/IP usage history: open rows, closed rows that still wait, and what writing to it keeps. */
module UsageHistory {
  import opened Common
  import opened IpTables

  /** A broker was freed from an IP, which it may not use again before `until`. */
  datatype Freed = Freed(broker: nat, ip: nat, until: int)

  ghost predicate OpenUsage(usage: seq<Usage>, broker: nat, ip: nat) {
    exists u :: 0 <= u < |usage| && usage[u].broker == broker && usage[u].ip == ip && usage[u].releasedAt.None?
  }

  /** A closed usage row says until when the pair must wait. */
  ghost predicate Waits(usage: seq<Usage>, f: Freed) {
    exists u :: 0 <= u < |usage| && usage[u].broker == f.broker && usage[u].ip == f.ip
                && usage[u].releasedAt.Some? && usage[u].eligibleAt == Some(f.until)
  }

  /** Rows are only added or closed: a closed row stays as it is. */
  ghost predicate Extends(u: seq<Usage>, u': seq<Usage>) {
    && |u| <= |u'|
    && forall i :: 0 <= i < |u| ==>
         u'[i].broker == u[i].broker && u'[i].ip == u[i].ip && (u[i].releasedAt.Some? ==> u'[i] == u[i])
  }

  lemma WaitsStays(u: seq<Usage>, u': seq<Usage>, f: Freed)
    requires Extends(u, u') && Waits(u, f)
    ensures Waits(u', f)
  {
    var i :| 0 <= i < |u| && u[i].broker == f.broker && u[i].ip == f.ip
             && u[i].releasedAt.Some? && u[i].eligibleAt == Some(f.until);
    assert u'[i] == u[i];
  }

  lemma OpenStays(u: seq<Usage>, u': seq<Usage>, broker: nat, ip: nat)
    requires |u| <= |u'| && OpenUsage(u, broker, ip)
    requires forall i :: 0 <= i < |u| && u[i].broker == broker && u[i].ip == ip ==> u'[i] == u[i]
    ensures OpenUsage(u', broker, ip)
  {
    var i :| 0 <= i < |u| && u[i].broker == broker && u[i].ip == ip && u[i].releasedAt.None?;
    assert u'[i] == u[i];
  }

  lemma ReleaseExtends(t: Tables, picked: seq<nat>, ip: nat, now: int, cooldown: int)
    requires ip in t.ips && InRange(picked, |t.assignments|)
    ensures Extends(t.usage, ReleaseTx(t, picked, ip, now, cooldown).usage)
  {
    var u' := ReleaseTx(t, picked, ip, now, cooldown).usage;
    forall u | 0 <= u < |t.usage|
      ensures u'[u].broker == t.usage[u].broker && u'[u].ip == t.usage[u].ip && (t.usage[u].releasedAt.Some? ==> u'[u] == t.usage[u])
    {
      ClosesPickedUsage(t, picked, ip, now, now + cooldown, u);
    }
  }

  /** Stamping and adding rows only closes and adds. */
  lemma StampingExtends(u: seq<Usage>, broker: nat, ip: nat, now: int, eligible: int, x: Usage)
    ensures Extends(u, CloseUsage(u, broker, ip, now, eligible) + [x])
    ensures OpenUsage(u, broker, ip) ==>
              Waits(CloseUsage(u, broker, ip, now, eligible) + [x], Freed(broker, ip, eligible))
  {
    var u' := CloseUsage(u, broker, ip, now, eligible) + [x];
    if i :| 0 <= i < |u| && u[i].broker == broker && u[i].ip == ip && u[i].releasedAt.None? {
      assert u'[i].eligibleAt == Some(eligible);
    }
  }
}
