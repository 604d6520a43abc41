/**
 Any sequence of status updates by any agents on one generation, and what the aggregate says at the end
 in terms of the updates alone.
 */
module StatusRuns {
  import opened Prelude
  import opened HealthyBitmap
  import opened StatusAggregation
  import opened AgentStatusList
  import opened VipStatus

  /** Every agent's last report. */
  type LastByAgent = map<string, Report>

  ghost function LastReports(updates: seq<Report>): LastByAgent {
    if updates == [] then map[]
    else LastReports(updates[..|updates| - 1])[updates[|updates| - 1].agentId := updates[|updates| - 1]]
  }

  ghost function SeenIn(reports: LastByAgent): Sightings { map id | id in reports :: reports[id].healthy }

  predicate FreshAt(u: Report, now: int) { now - u.now <= TTLSeconds(u.ttl) * SECOND }

  predicate SeenFresh(reports: LastByAgent, now: int, a: Address) {
    exists id :: id in reports && FreshAt(reports[id], now) && a in reports[id].healthy
  }

  /** The configured backends that some agent with a fresh last report saw healthy in it. */
  function FreshUnion(specBackends: seq<Address>, reports: LastByAgent, now: int): set<Address> {
    set a | a in specBackends && SeenFresh(reports, now, a)
  }

  predicate ServedFresh(reports: LastByAgent, now: int) {
    exists id :: id in reports && FreshAt(reports[id], now) && reports[id].serving == Some(True)
  }

  ghost predicate HasId(s: seq<AgentStatus>, id: string) { exists o :: o in s && o.agentId == id }

  /** Stored observations carry the stamps of their agents' last reports, and none is missing before its week is over. */
  ghost predicate Stamped(s: seq<AgentStatus>, reports: LastByAgent, generation: int, now: int) {
    && (forall o :: o in s ==> o.agentId in reports && Stamp(o, reports[o.agentId], generation))
    && forall id :: id in reports && now - reports[id].now <= EXPIRED_RETENTION ==> HasId(s, id)
  }

  /** Unique IDs out of a set are no more than its elements. */
  lemma {:induction false} NoMoreThanAgents(s: seq<AgentStatus>, agents: set<string>)
    requires UniqueIds(s) && forall o :: o in s ==> o.agentId in agents
    ensures |s| <= |agents|
    decreases |s|
  {
    if s != [] {
      var init, last := s[..|s| - 1], s[|s| - 1];
      forall o | o in init ensures o.agentId in agents - {last.agentId} {
        assert o in s;
      }
      NoMoreThanAgents(init, agents - {last.agentId});
    }
  }

  lemma TTLSecondsAreSane(ttl: int)
    ensures 0 < TTLSeconds(ttl) <= MAX_TTL / SECOND
  {
  }

  lemma StampedAge(o: AgentStatus, u: Report, generation: int, now: int, ttl: int)
    requires Stamp(o, u, generation)
    ensures AgeOf(o, generation, now, ttl) == Fresh <==> FreshAt(u, now)
    ensures AgeOf(o, generation, now, ttl) == Gone ==> now - u.now > EXPIRED_RETENTION
  {
    TTLSecondsAreSane(u.ttl);
  }

  lemma ClampKeepsStamp(o: AgentStatus, u: Report, generation: int)
    requires Stamp(o, u, generation)
    ensures Stamp(Clamp(o), u, generation)
  {
    TTLSecondsAreSane(u.ttl);
  }

  lemma UpsertKeepsStamps(s: seq<AgentStatus>, reports: LastByAgent, u: Report, mine: AgentStatus, generation: int, before: int)
    requires Stamped(s, reports, generation, before) && before <= u.now && Stamp(mine, u, generation)
    ensures Stamped(Upserted(s, mine, generation), reports[u.agentId := u], generation, u.now)
  {
    UpsertContents(s, mine, generation);
    var after, next := Upserted(s, mine, generation), reports[u.agentId := u];
    forall id | id in next && u.now - next[id].now <= EXPIRED_RETENTION ensures HasId(after, id) {
      if id == u.agentId {
        assert mine in after;
      } else {
        assert HasId(s, id);
        var o :| o in s && o.agentId == id;
        assert o in after;
      }
    }
  }

  lemma SplitKeepsStamps(s: seq<AgentStatus>, reports: LastByAgent, generation: int, now: int, ttl: int)
    requires Stamped(s, reports, generation, now)
    ensures Stamped(OfAge(s, Fresh, generation, now, ttl) + OfAge(s, Expired, generation, now, ttl), reports, generation, now)
  {
    OfAgeMembers(s, Fresh, generation, now, ttl);
    OfAgeMembers(s, Expired, generation, now, ttl);
    var both := OfAge(s, Fresh, generation, now, ttl) + OfAge(s, Expired, generation, now, ttl);
    forall id | id in reports && now - reports[id].now <= EXPIRED_RETENTION ensures HasId(both, id) {
      assert HasId(s, id);
      var o :| o in s && o.agentId == id;
      StampedAge(o, reports[id], generation, now, ttl);
      assert o in both;
    }
  }

  lemma ClampAllKeepsStamps(s: seq<AgentStatus>, reports: LastByAgent, generation: int, now: int)
    requires Stamped(s, reports, generation, now)
    ensures Stamped(ClampAll(s), reports, generation, now)
  {
    var clamped := ClampAll(s);
    forall o | o in clamped ensures o.agentId in reports && Stamp(o, reports[o.agentId], generation) {
      var i :| 0 <= i < |s| && clamped[i] == o;
      assert s[i] in s;
      ClampKeepsStamp(s[i], reports[s[i].agentId], generation);
    }
    forall id | id in reports && now - reports[id].now <= EXPIRED_RETENTION ensures HasId(clamped, id) {
      assert HasId(s, id);
      var i :| 0 <= i < |s| && s[i].agentId == id;
      assert clamped[i] in clamped && clamped[i].agentId == id;
    }
  }

  /** With no more than 256 agents nothing is capped. */
  lemma KeptKeepsStamps(s: seq<AgentStatus>, reports: LastByAgent, generation: int, now: int, ttl: int, agents: set<string>)
    requires Stamped(s, reports, generation, now) && UniqueIds(s) && reports.Keys <= agents && |agents| <= MAX_AGENT_STATUSES
    ensures Stamped(Kept(s, generation, now, ttl), reports, generation, now)
  {
    var both := OfAge(s, Fresh, generation, now, ttl) + OfAge(s, Expired, generation, now, ttl);
    SplitKeepsStamps(s, reports, generation, now, ttl);
    SplitAgainKeepsIds(s, generation, now, ttl);
    NoMoreThanAgents(both, agents);
    ClampAllKeepsStamps(both, reports, generation, now);
  }

  lemma UpdateKeepsStamps(s: seq<AgentStatus>, reports: LastByAgent, u: Report, mine: AgentStatus, generation: int, before: int, agents: set<string>)
    requires Stamped(s, reports, generation, before) && before <= u.now && Stamp(mine, u, generation) && UniqueIds(s)
    requires reports.Keys + {u.agentId} <= agents && |agents| <= MAX_AGENT_STATUSES
    ensures Stamped(Kept(Upserted(s, mine, generation), generation, u.now, NormalizeTTL(u.ttl)), reports[u.agentId := u], generation, u.now)
  {
    UpsertKeepsStamps(s, reports, u, mine, generation, before);
    UpsertContents(s, mine, generation);
    KeptKeepsStamps(Upserted(s, mine, generation), reports[u.agentId := u], generation, u.now, NormalizeTTL(u.ttl), agents);
  }

  /** An agent's observation is live exactly when its last report is fresh. */
  ghost predicate LiveIsFresh(live: seq<AgentStatus>, reports: LastByAgent, generation: int, now: int) {
    && (forall o :: o in live ==> o.agentId in reports && Stamp(o, reports[o.agentId], generation) && FreshAt(reports[o.agentId], now))
    && forall id :: id in reports && FreshAt(reports[id], now) ==> HasId(live, id)
  }

  lemma StampedLive(s: seq<AgentStatus>, reports: LastByAgent, generation: int, now: int, ttl: int)
    requires Stamped(s, reports, generation, now)
    ensures LiveIsFresh(OfAge(s, Fresh, generation, now, ttl), reports, generation, now)
  {
    var live := OfAge(s, Fresh, generation, now, ttl);
    OfAgeMembers(s, Fresh, generation, now, ttl);
    forall o | o in live ensures o.agentId in reports && Stamp(o, reports[o.agentId], generation) && FreshAt(reports[o.agentId], now) {
      StampedAge(o, reports[o.agentId], generation, now, ttl);
    }
    forall id | id in reports && FreshAt(reports[id], now) ensures HasId(live, id) {
      TTLSecondsAreSane(reports[id].ttl);
      assert HasId(s, id);
      var o :| o in s && o.agentId == id;
      StampedAge(o, reports[id], generation, now, ttl);
      assert o in live;
    }
  }

  lemma LiveUnion(live: seq<AgentStatus>, reports: LastByAgent, generation: int, now: int, specBackends: seq<Address>)
    requires LiveIsFresh(live, reports, generation, now)
    ensures Union(specBackends, SeenBy(live, SeenIn(reports))) == FreshUnion(specBackends, reports, now)
    ensures ServingReported(live, Some(True)) <==> ServedFresh(reports, now)
  {
    var seen := SeenBy(live, SeenIn(reports));
    forall a ensures SeenBySome(seen, a) <==> SeenFresh(reports, now, a) {
      if SeenBySome(seen, a) {
        var i :| 0 <= i < |seen| && a in seen[i];
        assert live[i] in live;
      }
      if SeenFresh(reports, now, a) {
        var id :| id in reports && FreshAt(reports[id], now) && a in reports[id].healthy;
        assert HasId(live, id);
        var i :| 0 <= i < |live| && live[i].agentId == id;
        assert a in seen[i];
      }
    }
    if ServedFresh(reports, now) {
      var id :| id in reports && FreshAt(reports[id], now) && reports[id].serving == Some(True);
      assert HasId(live, id);
    }
  }

  // --- runs ---

  function Agents(updates: seq<Report>): set<string> { set u | u in updates :: u.agentId }

  /** Updates come in the order of their times, from no more agents than are stored. */
  ghost predicate Orderly(updates: seq<Report>) {
    && (forall i, j :: 0 <= i < j < |updates| ==> updates[i].now <= updates[j].now)
    && |Agents(updates)| <= MAX_AGENT_STATUSES
  }

  /** The aggregate after the last update, in terms of the updates. */
  ghost predicate SaysFresh(status: VirtualIPStatus, updates: seq<Report>, specBackends: seq<Address>)
    requires updates != []
    reads status
  {
    var reports, now := LastReports(updates), updates[|updates| - 1].now;
    && status.healthyBackends == |FreshUnion(specBackends, reports, now)|
    && (status.serving == True <==> ServedFresh(reports, now))
  }

  lemma {:induction false} ReportsAreFromAgents(updates: seq<Report>, i: nat)
    requires i <= |updates|
    ensures LastReports(updates[..i]).Keys <= Agents(updates)
    decreases i
  {
    if i > 0 {
      ReportsAreFromAgents(updates, i - 1);
      assert updates[..i][..i - 1] == updates[..i - 1];
      assert updates[i - 1] in updates;
    }
  }

  /** One update of an orderly run. */
  method Update(status: VirtualIPStatus, updates: seq<Report>, i: nat, specBackends: seq<Address>, generation: int, ghost before: int)
    requires i < |updates|
    requires Recorded(status.agentStatuses, generation, specBackends, SeenIn(LastReports(updates[..i]))) && UniqueIds(status.agentStatuses)
    requires Orderly(updates) ==> Stamped(status.agentStatuses, LastReports(updates[..i]), generation, before) && before <= updates[i].now
    modifies status
    ensures Recorded(status.agentStatuses, generation, specBackends, SeenIn(LastReports(updates[..i + 1]))) && UniqueIds(status.agentStatuses)
    ensures |status.agentStatuses| <= MAX_AGENT_STATUSES
    ensures Orderly(updates) ==> Stamped(status.agentStatuses, LastReports(updates[..i + 1]), generation, updates[i].now)
    ensures Orderly(updates) ==> SaysFresh(status, updates[..i + 1], specBackends)
  {
    var u := updates[i];
    assert updates[..i + 1][..i] == updates[..i];
    ghost var reports, stored := LastReports(updates[..i]), status.agentStatuses;
    assert SeenIn(reports[u.agentId := u]) == SeenIn(reports)[u.agentId := u.healthy];
    ghost var mine, live;
    mine, live := status.UpdateVIPStatus(u, specBackends, generation, SeenIn(reports));
    if Orderly(updates) {
      ReportsAreFromAgents(updates, i);
      UpdateKeepsStamps(stored, reports, u, mine, generation, before, Agents(updates));
      UpsertKeepsStamps(stored, reports, u, mine, generation, before);
      StampedLive(Upserted(stored, mine, generation), reports[u.agentId := u], generation, u.now, NormalizeTTL(u.ttl));
      LiveUnion(live, reports[u.agentId := u], generation, u.now, specBackends);
    }
  }

  /**
   Any number of updates from an empty status. If their times do not run backwards and no more than 256
   agents report, the count is the number of configured backends that some agent with a fresh last report
   saw healthy in it, and the VIP is served exactly when such a report says so.
   */
  method RunUpdates(status: VirtualIPStatus, updates: seq<Report>, specBackends: seq<Address>, generation: int)
    requires status.agentStatuses == []
    modifies status
    ensures UniqueIds(status.agentStatuses) && |status.agentStatuses| <= MAX_AGENT_STATUSES
    ensures updates != [] && Orderly(updates) ==> SaysFresh(status, updates, specBackends)
  {
    ghost var before := if updates == [] then 0 else updates[0].now;
    for i := 0 to |updates|
      invariant Recorded(status.agentStatuses, generation, specBackends, SeenIn(LastReports(updates[..i])))
      invariant UniqueIds(status.agentStatuses) && |status.agentStatuses| <= MAX_AGENT_STATUSES
      invariant Orderly(updates) ==> Stamped(status.agentStatuses, LastReports(updates[..i]), generation, before)
      invariant i < |updates| && Orderly(updates) ==> before <= updates[i].now
      invariant i > 0 && Orderly(updates) ==> SaysFresh(status, updates[..i], specBackends)
    {
      Update(status, updates, i, specBackends, generation, before);
      before := updates[i].now;
    }
    assert updates[..|updates|] == updates;
  }
}
