/** The aggregate conditions of a VirtualIP, and the status object that agents update in turn. */
module VipStatus {
  import opened Prelude
  import opened HealthyBitmap
  import opened StatusAggregation
  import opened AgentStatusList

  // --- verdicts ---

  predicate ServingReported(s: seq<AgentStatus>, v: Option<Verdict>) { exists o :: o in s && o.serving == v }

  predicate RouteReported(s: seq<AgentStatus>, v: Option<Verdict>) { exists o :: o in s && o.route == v }

  predicate DataPlaneReported(s: seq<AgentStatus>, v: Option<Verdict>) { exists o :: o in s && o.dataPlane == v }

  /** Some agent serves; otherwise a missing, unknown or expired observation leaves it open. */
  function ServingVerdict(live: seq<AgentStatus>, expired: seq<AgentStatus>): Verdict {
    if ServingReported(live, Some(True)) then True
    else if live == [] || ServingReported(live, None) || ServingReported(live, Some(Unknown)) || expired != [] then Unknown
    else False
  }

  /** Here an open observation outweighs an agent that advertises. */
  function RouteVerdict(live: seq<AgentStatus>, expired: seq<AgentStatus>): Verdict {
    if live == [] || RouteReported(live, None) || RouteReported(live, Some(Unknown)) then Unknown
    else if RouteReported(live, Some(True)) then True
    else if expired != [] then Unknown
    else False
  }

  method AggregateServing(live: seq<AgentStatus>, expired: seq<AgentStatus>) returns (v: Verdict)
    ensures v == ServingVerdict(live, expired)
  {
    if live == [] {
      return Unknown;
    }
    var unknown := false;
    for i := 0 to |live|
      invariant forall j :: 0 <= j < i ==> live[j].serving != Some(True)
      invariant unknown <==> exists j :: 0 <= j < i && live[j].serving in {None, Some(Unknown)}
    {
      var serving := live[i].serving;
      if serving.None? {
        unknown := true;
        continue;
      }
      if serving.value == True {
        return True;
      }
      if serving.value == Unknown {
        unknown := true;
      }
    }
    return if unknown || expired != [] then Unknown else False;
  }

  method AggregateRouteAdvertised(live: seq<AgentStatus>, expired: seq<AgentStatus>) returns (v: Verdict)
    ensures v == RouteVerdict(live, expired)
  {
    if live == [] {
      return Unknown;
    }
    var unknown, advertised := false, 0;
    for i := 0 to |live|
      invariant unknown <==> exists j :: 0 <= j < i && live[j].route in {None, Some(Unknown)}
      invariant advertised >= 0 && (advertised > 0 <==> exists j :: 0 <= j < i && live[j].route == Some(True))
    {
      match live[i].route
      case None => unknown := true;
      case Some(True) => advertised := advertised + 1;
      case Some(Unknown) => unknown := true;
      case Some(False) =>
    }
    return if unknown then Unknown else if advertised > 0 then True else if expired != [] then Unknown else False;
  }

  /** The first reported state other than True, if any. */
  function FirstNotReady(live: seq<AgentStatus>): Option<Verdict> {
    if live == [] then None
    else if live[0].dataPlane.Some? && live[0].dataPlane.value != True then live[0].dataPlane
    else FirstNotReady(live[1..])
  }

  /** No verdict at all means that the condition is left out. */
  function DataPlaneVerdict(live: seq<AgentStatus>, expired: seq<AgentStatus>): Option<Verdict> {
    if FirstNotReady(live).Some? then FirstNotReady(live)
    else if DataPlaneReported(live, None) then Some(Unknown)
    else if live != [] then Some(True)
    else if exists o :: o in expired && o.dataPlane.Some? then Some(Unknown)
    else None
  }

  method AggregateDataPlaneReady(live: seq<AgentStatus>, expired: seq<AgentStatus>) returns (v: Option<Verdict>)
    ensures v == DataPlaneVerdict(live, expired)
  {
    var reported, missing := false, false;
    for i := 0 to |live|
      invariant FirstNotReady(live) == FirstNotReady(live[i..])
      invariant missing <==> exists j :: 0 <= j < i && live[j].dataPlane == None
      invariant reported || missing <==> i > 0
    {
      assert live[i..][1..] == live[i + 1..];
      var dataPlane := live[i].dataPlane;
      if dataPlane.None? {
        missing := true;
        continue;
      }
      reported := true;
      if dataPlane.value != True {
        return dataPlane;
      }
    }
    if missing {
      return Some(Unknown);
    }
    if reported {
      return Some(True);
    }
    if live == [] {
      for i := 0 to |expired|
        invariant forall j :: 0 <= j < i ==> expired[j].dataPlane.None?
      {
        if expired[i].dataPlane.Some? {
          return Some(Unknown);
        }
      }
    }
    return None;
  }

  lemma {:induction false} FirstNotReadyMeans(live: seq<AgentStatus>)
    ensures FirstNotReady(live).None? <==> forall o :: o in live ==> o.dataPlane in {None, Some(True)}
    ensures FirstNotReady(live).Some? ==>
              FirstNotReady(live) in {Some(False), Some(Unknown)} && DataPlaneReported(live, FirstNotReady(live))
    decreases |live|
  {
    if live != [] {
      FirstNotReadyMeans(live[1..]);
      assert live == [live[0]] + live[1..];
    }
  }

  /**
   Serving is True exactly when some agent reports it, and False exactly when every agent reports False and
   no observation has expired.
   */
  lemma ServingVerdictIff(live: seq<AgentStatus>, expired: seq<AgentStatus>)
    ensures ServingVerdict(live, expired) == True <==> exists o :: o in live && o.serving == Some(True)
    ensures ServingVerdict(live, expired) == False <==>
              live != [] && expired == [] && forall o :: o in live ==> o.serving == Some(False)
  {
    if ServingVerdict(live, expired) == False {
      forall o | o in live ensures o.serving == Some(False) {
        assert o.serving.Some? && !o.serving.value.Unknown? && !o.serving.value.True?;
      }
    }
    assert live != [] ==> live[0] in live;
  }

  /**
   The route is advertised exactly when every agent knows its state and some agent advertises it, and not
   advertised exactly when every agent reports False and no observation has expired.
   */
  lemma RouteVerdictIff(live: seq<AgentStatus>, expired: seq<AgentStatus>)
    ensures RouteVerdict(live, expired) == True <==>
              && (exists o :: o in live && o.route == Some(True))
              && forall o :: o in live ==> o.route.Some? && o.route.value != Unknown
    ensures RouteVerdict(live, expired) == False <==>
              live != [] && expired == [] && forall o :: o in live ==> o.route == Some(False)
  {
    if RouteVerdict(live, expired) == False {
      forall o | o in live ensures o.route == Some(False) {
        assert o.route.Some? && !o.route.value.Unknown? && !o.route.value.True?;
      }
    }
    assert live != [] ==> live[0] in live;
  }

  /** Ready exactly when somebody reports and everybody reports True. */
  lemma DataPlaneReadyIff(live: seq<AgentStatus>, expired: seq<AgentStatus>)
    ensures DataPlaneVerdict(live, expired) == Some(True) <==> live != [] && forall o :: o in live ==> o.dataPlane == Some(True)
  {
    FirstNotReadyMeans(live);
    if live != [] && FirstNotReady(live).None? && !DataPlaneReported(live, None) {
      assert forall o :: o in live ==> o.dataPlane == Some(True);
    }
    if live != [] && forall o :: o in live ==> o.dataPlane == Some(True) {
      assert live[0] in live;
    }
  }

  /** Reordering the agents changes neither the serving nor the route verdict. */
  lemma VerdictsIgnoreOrder(a: seq<AgentStatus>, b: seq<AgentStatus>, expiredA: seq<AgentStatus>, expiredB: seq<AgentStatus>)
    requires multiset(a) == multiset(b) && multiset(expiredA) == multiset(expiredB)
    ensures ServingVerdict(a, expiredA) == ServingVerdict(b, expiredB)
    ensures RouteVerdict(a, expiredA) == RouteVerdict(b, expiredB)
  {
    SameMembers(a, b);
    SameMembers(expiredA, expiredB);
  }

  lemma SameMembers(a: seq<AgentStatus>, b: seq<AgentStatus>)
    requires multiset(a) == multiset(b)
    ensures (a == [] <==> b == []) && forall o :: o in a <==> o in b
  {
    assert forall o :: o in a <==> o in multiset(a);
    assert forall o :: o in b <==> o in multiset(b);
    assert |multiset(a)| == |a| && |multiset(b)| == |b|;
  }

  /** `o` moved to the front. */
  lemma MovedToFront(s: seq<AgentStatus>, o: AgentStatus) returns (r: seq<AgentStatus>)
    requires o in s
    ensures multiset(r) == multiset(s) && r != [] && r[0] == o
  {
    var i :| 0 <= i < |s| && s[i] == o;
    r := [o] + s[..i] + s[i + 1..];
    assert s == s[..i] + [o] + s[i + 1..];
  }

  /** The data plane verdict takes the first bad report, so it ignores the order unless both kinds are reported. */
  lemma DataPlaneIgnoresOrderIff(live: seq<AgentStatus>, expired: seq<AgentStatus>)
    ensures (forall other :: multiset(other) == multiset(live) ==> DataPlaneVerdict(other, expired) == DataPlaneVerdict(live, expired))
            <==> !(DataPlaneReported(live, Some(False)) && DataPlaneReported(live, Some(Unknown)))
  {
    FirstNotReadyMeans(live);
    if DataPlaneReported(live, Some(False)) && DataPlaneReported(live, Some(Unknown)) {
      var f :| f in live && f.dataPlane == Some(False);
      var u :| u in live && u.dataPlane == Some(Unknown);
      var falseFirst := MovedToFront(live, f);
      var unknownFirst := MovedToFront(live, u);
      assert DataPlaneVerdict(falseFirst, expired) != DataPlaneVerdict(unknownFirst, expired);
    } else {
      forall other | multiset(other) == multiset(live) ensures DataPlaneVerdict(other, expired) == DataPlaneVerdict(live, expired) {
        FirstNotReadyMeans(other);
        SameMembers(other, live);
      }
    }
  }

  /** An agent that only reports the state of its data plane. */
  function DataPlaneOnly(agentId: string, v: Verdict): AgentStatus {
    AgentStatus(agentId, 1, 0, 0, [], "", Some(0), 60, None, Some(v), None)
  }

  /** Two agents in two orders, and two verdicts. */
  lemma OrderCanDecide()
    ensures var a, b := DataPlaneOnly("a", False), DataPlaneOnly("b", Unknown);
            && multiset([a, b]) == multiset([b, a])
            && DataPlaneVerdict([a, b], []) == Some(False) && DataPlaneVerdict([b, a], []) == Some(Unknown)
  {
  }

  // --- the status object ---

  /** What every agent said it sees, by agent ID. */
  type Sightings = map<string, set<Address>>

  /** Observations of this generation are reports of what their agent last saw. */
  ghost predicate Recorded(s: seq<AgentStatus>, generation: int, backends: seq<Address>, seen: Sightings) {
    forall o :: o in s && o.observedGeneration == generation ==> o.agentId in seen && Reports(o, backends, seen[o.agentId])
  }

  ghost function SeenBy(s: seq<AgentStatus>, seen: Sightings): seq<set<Address>>
    requires forall o :: o in s ==> o.agentId in seen
  {
    seq(|s|, i requires 0 <= i < |s| => seen[s[i].agentId])
  }

  lemma RecordedReports(s: seq<AgentStatus>, generation: int, backends: seq<Address>, seen: Sightings)
    requires Recorded(s, generation, backends, seen) && forall o :: o in s ==> o.observedGeneration == generation
    ensures forall o :: o in s ==> o.agentId in seen
    ensures AllReport(s, backends, SeenBy(s, seen))
  {
    forall i | 0 <= i < |s| ensures Reports(s[i], backends, SeenBy(s, seen)[i]) {
      assert s[i] in s;
    }
  }

  lemma ClampKeepsReport(o: AgentStatus, backends: seq<Address>, healthy: set<Address>)
    requires Reports(o, backends, healthy)
    ensures Reports(Clamp(o), backends, healthy)
  {
  }

  /** Clamping and capping lose whole observations at most. */
  lemma SanitizeKeepsRecorded(s: seq<AgentStatus>, generation: int, backends: seq<Address>, seen: Sightings)
    requires Recorded(s, generation, backends, seen)
    ensures Recorded(Capped(ClampAll(s)), generation, backends, seen)
  {
    var clamped := ClampAll(s);
    var dropped := CapKeepsNewest(clamped);
    forall o | o in Capped(clamped) && o.observedGeneration == generation
      ensures o.agentId in seen && Reports(o, backends, seen[o.agentId])
    {
      assert o in multiset(Capped(clamped)) + multiset(dropped);
      var i :| 0 <= i < |clamped| && clamped[i] == o;
      assert s[i] in s;
      ClampKeepsReport(s[i], backends, seen[o.agentId]);
    }
  }

  lemma {:induction false} InsertKeepsIds(s: seq<AgentStatus>, x: AgentStatus)
    requires UniqueIds(s) && forall o :: o in s ==> o.agentId != x.agentId
    ensures UniqueIds(InsertStable(s, x))
    decreases |s|
  {
    if s != [] {
      var init, last := s[..|s| - 1], s[|s| - 1];
      if Before(x, last) {
        InsertKeepsIds(init, x);
        InsertAddsOne(init, x);
        var r := InsertStable(init, x);
        forall i | 0 <= i < |r| ensures r[i].agentId != last.agentId {
          assert r[i] in multiset(init) + multiset{x};
        }
      }
    }
  }

  lemma {:induction false} SortKeepsIds(s: seq<AgentStatus>)
    requires UniqueIds(s)
    ensures UniqueIds(Sorted(s))
    decreases |s|
  {
    if s != [] {
      var init, last := s[..|s| - 1], s[|s| - 1];
      SortKeepsIds(init);
      SortedIsStableSort(init, last);
      forall o | o in Sorted(init) ensures o.agentId != last.agentId {
        assert o in multiset(init);
      }
      InsertKeepsIds(Sorted(init), last);
    }
  }

  lemma SanitizeKeepsIds(s: seq<AgentStatus>)
    requires UniqueIds(s)
    ensures UniqueIds(Capped(ClampAll(s)))
  {
    var clamped := ClampAll(s);
    assert UniqueIds(clamped);
    if |s| > MAX_AGENT_STATUSES {
      SortKeepsIds(clamped);
      SortedIsStableSort(clamped, clamped[0]);
    }
  }

  lemma {:induction false} SplitKeepsIds(s: seq<AgentStatus>, a: Age, generation: int, now: int, ttl: int)
    requires UniqueIds(s)
    ensures UniqueIds(OfAge(s, a, generation, now, ttl))
    decreases |s|
  {
    if s != [] {
      var init, last := s[..|s| - 1], s[|s| - 1];
      SplitKeepsIds(init, a, generation, now, ttl);
      OfAgeMembers(init, a, generation, now, ttl);
      assert forall o :: o in init ==> o.agentId != last.agentId;
    }
  }

  lemma SplitAgainKeepsIds(s: seq<AgentStatus>, generation: int, now: int, ttl: int)
    requires UniqueIds(s)
    ensures UniqueIds(OfAge(s, Fresh, generation, now, ttl) + OfAge(s, Expired, generation, now, ttl))
  {
    SplitKeepsIds(s, Fresh, generation, now, ttl);
    SplitKeepsIds(s, Expired, generation, now, ttl);
    OfAgeMembers(s, Fresh, generation, now, ttl);
    OfAgeMembers(s, Expired, generation, now, ttl);
    var live, expired := OfAge(s, Fresh, generation, now, ttl), OfAge(s, Expired, generation, now, ttl);
    forall i, j | 0 <= i < |live| && 0 <= j < |expired| ensures live[i].agentId != expired[j].agentId {
      assert live[i] in live && expired[j] in expired;
    }
  }

  lemma SplitKeepsRecorded(s: seq<AgentStatus>, generation: int, now: int, ttl: int, specBackends: seq<Address>, seen: Sightings)
    requires Recorded(s, generation, specBackends, seen)
    ensures Recorded(OfAge(s, Fresh, generation, now, ttl) + OfAge(s, Expired, generation, now, ttl), generation, specBackends, seen)
  {
    OfAgeMembers(s, Fresh, generation, now, ttl);
    OfAgeMembers(s, Expired, generation, now, ttl);
  }

  /** The observations that a refresh stores. */
  function Kept(s: seq<AgentStatus>, generation: int, now: int, ttl: int): seq<AgentStatus> {
    Capped(ClampAll(OfAge(s, Fresh, generation, now, ttl) + OfAge(s, Expired, generation, now, ttl)))
  }

  lemma KeptIsRecorded(s: seq<AgentStatus>, generation: int, now: int, ttl: int, specBackends: seq<Address>, seen: Sightings)
    requires Recorded(s, generation, specBackends, seen) && UniqueIds(s)
    ensures var kept := Kept(s, generation, now, ttl);
            && Recorded(kept, generation, specBackends, seen) && UniqueIds(kept)
            && |kept| <= MAX_AGENT_STATUSES && Capped(ClampAll(kept)) == kept
  {
    var both := OfAge(s, Fresh, generation, now, ttl) + OfAge(s, Expired, generation, now, ttl);
    SplitAgainKeepsIds(s, generation, now, ttl);
    SanitizeKeepsIds(both);
    SplitKeepsRecorded(s, generation, now, ttl, specBackends, seen);
    SanitizeKeepsRecorded(both, generation, specBackends, seen);
    SanitizeIsIdempotent(both);
    var _ := CapKeepsNewest(ClampAll(both));
  }

  lemma UpsertIsRecorded(s: seq<AgentStatus>, next: AgentStatus, specBackends: seq<Address>, seen: Sightings, healthy: set<Address>)
    requires Recorded(s, next.observedGeneration, specBackends, seen) && UniqueIds(s) && Reports(next, specBackends, healthy)
    ensures var after := Upserted(s, next, next.observedGeneration);
            && Recorded(after, next.observedGeneration, specBackends, seen[next.agentId := healthy]) && UniqueIds(after)
            && next in after
  {
    UpsertContents(s, next, next.observedGeneration);
  }

  /** `count` is the number of configured backends that some agent of the list saw healthy. */
  ghost predicate CountsUnion(live: seq<AgentStatus>, specBackends: seq<Address>, seen: Sightings, count: int) {
    && (forall o :: o in live ==> o.agentId in seen)
    && count == |Union(specBackends, SeenBy(live, seen))|
  }

  /** The count computed from the fresh observations is the size of the union of what their agents saw. */
  lemma CountIsUnion(s: seq<AgentStatus>, generation: int, now: int, ttl: int, specBackends: seq<Address>, seen: Sightings)
    requires Recorded(s, generation, specBackends, seen)
    ensures var live := OfAge(s, Fresh, generation, now, ttl);
            CountsUnion(live, specBackends, seen, Max(ClaimedCount(specBackends, live), |Aggregate(specBackends, live)|))
  {
    var live := OfAge(s, Fresh, generation, now, ttl);
    OfAgeMembers(s, Fresh, generation, now, ttl);
    RecordedReports(live, generation, specBackends, seen);
    UnionOfReports(specBackends, live, SeenBy(live, seen));
  }

  /** The reporting agent and exactly the other agents whose stored observation is fresh. */
  ghost predicate LiveAfter(live: seq<AgentStatus>, stored: seq<AgentStatus>, agentId: string, generation: int, now: int, ttl: int) {
    && (exists o :: o in live && o.agentId == agentId)
    && forall o: AgentStatus :: o.agentId != agentId ==>
                     (o in live <==> o in stored && AgeOf(o, generation, now, NormalizeTTL(ttl)) == Fresh)
  }

  lemma FreshAfterUpsert(s: seq<AgentStatus>, next: AgentStatus, now: int, ttl: int)
    requires next.lastUpdate == Some(now)
    ensures var live := OfAge(Upserted(s, next, next.observedGeneration), Fresh, next.observedGeneration, now, ttl);
            && next in live
            && forall o: AgentStatus :: o.agentId != next.agentId ==>
                                          (o in live <==> o in s && AgeOf(o, next.observedGeneration, now, ttl) == Fresh)
  {
    UpsertContents(s, next, next.observedGeneration);
    OfAgeMembers(Upserted(s, next, next.observedGeneration), Fresh, next.observedGeneration, now, ttl);
  }

  /** One call of UpdateVIPStatus: what the agent sees and reports, when, and for how long that counts. */
  datatype Report = Report(agentId: string, healthy: set<Address>, now: int, ttl: int,
                           serving: Option<Verdict>, dataPlane: Option<Verdict>, route: Option<Verdict>)

  /** The least number of whole seconds that covers the time to live. */
  function TTLSeconds(ttl: int): (s: int)
    ensures 0 < s && (s - 1) * SECOND < NormalizeTTL(ttl) <= s * SECOND
  { (NormalizeTTL(ttl) + SECOND - 1) / SECOND }

  /** The observation carries the report's stamps. */
  predicate Stamp(o: AgentStatus, u: Report, generation: int) {
    && o.agentId == u.agentId && o.observedGeneration == generation
    && o.lastUpdate == Some(u.now) && o.ttlSeconds == TTLSeconds(u.ttl) && o.serving == u.serving
  }

  class VirtualIPStatus {
    var agentStatuses: seq<AgentStatus>
    var observedGeneration: int
    var totalBackends: int
    var healthyBackends: int
    var backends: seq<BackendStatus>
    var serving: Verdict
    var routeAdvertised: Verdict
    var dataPlaneReady: Option<Verdict>

    /** The first half of applyAggregateStatus. */
    method ApplyBackends(specBackends: seq<Address>, generation: int, live: seq<AgentStatus>)
      modifies this`observedGeneration, this`totalBackends, this`healthyBackends, this`backends
      ensures observedGeneration == generation && totalBackends == |specBackends|
      ensures healthyBackends == Max(ClaimedCount(specBackends, live), |Aggregate(specBackends, live)|)
      ensures |backends| == if |specBackends| > MAX_STATUS_BACKENDS then MAX_STATUS_BACKENDS else |specBackends|
      ensures forall i :: 0 <= i < |backends| ==>
                            backends[i] == BackendStatus(specBackends[i], specBackends[i] in Aggregate(specBackends, live))
    {
      var healthySet;
      healthySet, healthyBackends := AggregateHealthyBackends(specBackends, live);
      observedGeneration, totalBackends := generation, |specBackends|;
      backends := BuildBackendStatuses(specBackends, healthySet);
    }

    /** The second half of applyAggregateStatus. */
    method ApplyConditions(live: seq<AgentStatus>, expired: seq<AgentStatus>)
      modifies this`serving, this`routeAdvertised, this`dataPlaneReady
      ensures serving == ServingVerdict(live, expired)
      ensures routeAdvertised == RouteVerdict(live, expired)
      ensures dataPlaneReady == DataPlaneVerdict(live, expired)
    {
      serving := AggregateServing(live, expired);
      routeAdvertised := AggregateRouteAdvertised(live, expired);
      dataPlaneReady := AggregateDataPlaneReady(live, expired);
    }

    method RefreshAggregateStatus(specBackends: seq<Address>, generation: int, now: int, ttl: int)
        returns (ghost live: seq<AgentStatus>, ghost expired: seq<AgentStatus>)
      modifies this
      ensures live == OfAge(old(agentStatuses), Fresh, generation, now, ttl)
      ensures expired == OfAge(old(agentStatuses), Expired, generation, now, ttl)
      ensures agentStatuses == Kept(old(agentStatuses), generation, now, ttl)
      ensures observedGeneration == generation && totalBackends == |specBackends|
      ensures |backends| == if |specBackends| > MAX_STATUS_BACKENDS then MAX_STATUS_BACKENDS else |specBackends|
      ensures forall i :: 0 <= i < |backends| ==>
                            backends[i] == BackendStatus(specBackends[i], specBackends[i] in Aggregate(specBackends, live))
      ensures healthyBackends == Max(ClaimedCount(specBackends, live), |Aggregate(specBackends, live)|)
      ensures serving == ServingVerdict(live, expired)
      ensures routeAdvertised == RouteVerdict(live, expired)
      ensures dataPlaneReady == DataPlaneVerdict(live, expired)
    {
      var current, stale := SplitAgentStatuses(agentStatuses, generation, now, ttl);
      agentStatuses := SanitizeAgentStatuses(current + stale);
      ApplyBackends(specBackends, generation, current);
      ApplyConditions(current, stale);
      return current, stale;
    }

    /**
     UpdateVIPStatus once the stored object was found to be of the same UID and generation. The agent's
     new observation `mine` replaces its old one, all others stay as long as they are kept at all, and the
     count is the size of the union of what the agents with a fresh observation last saw among the
     configured backends.
     */
    method UpdateVIPStatus(u: Report, specBackends: seq<Address>, generation: int, ghost seen: Sightings)
        returns (ghost mine: AgentStatus, ghost live: seq<AgentStatus>)
      requires Recorded(agentStatuses, generation, specBackends, seen) && UniqueIds(agentStatuses)
      modifies this
      ensures Recorded(agentStatuses, generation, specBackends, seen[u.agentId := u.healthy]) && UniqueIds(agentStatuses)
      ensures |agentStatuses| <= MAX_AGENT_STATUSES
      ensures Stamp(mine, u, generation) && mine.dataPlane == u.dataPlane && mine.route == u.route
      ensures agentStatuses == Kept(Upserted(old(agentStatuses), mine, generation), generation, u.now, NormalizeTTL(u.ttl))
      ensures live == OfAge(Upserted(old(agentStatuses), mine, generation), Fresh, generation, u.now, NormalizeTTL(u.ttl))
      ensures LiveAfter(live, old(agentStatuses), u.agentId, generation, u.now, u.ttl)
      ensures CountsUnion(live, specBackends, seen[u.agentId := u.healthy], healthyBackends)
      ensures serving == True <==> ServingReported(live, Some(True))
    {
      var ttl := NormalizeTTL(u.ttl);
      var report := BuildReport(u.agentId, generation, specBackends, u.healthy, u.now, TTLSeconds(u.ttl), u.serving, u.dataPlane, u.route);
      mine := report;
      ghost var seenNow := seen[u.agentId := u.healthy];
      UpsertIsRecorded(agentStatuses, report, specBackends, seen, u.healthy);
      FreshAfterUpsert(agentStatuses, report, u.now, ttl);
      agentStatuses := UpsertAgentStatus(agentStatuses, report, generation);
      CountIsUnion(agentStatuses, generation, u.now, ttl, specBackends, seenNow);
      KeptIsRecorded(agentStatuses, generation, u.now, ttl, specBackends, seenNow);
      ghost var expired;
      live, expired := RefreshAggregateStatus(specBackends, generation, u.now, ttl);
      agentStatuses := SanitizeAgentStatuses(agentStatuses);
      assert report in live;
    }
  }
}
